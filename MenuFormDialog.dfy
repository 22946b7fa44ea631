/** The dialog that creates or edits a menu (features/RunningRoom/Kitchen/MenuFormDialog.tsx):
    a single date field, filled from the menu being edited, and a submit
    that refuses an empty date. */
module MenuFormDialog {
  import opened Common
  import opened Menus

  /** `dayjs(d).format("YYYY-MM-DD")` on the dates of this model: a
      normalised date comes back as it is, and the empty text, which dayjs
      cannot parse, comes back as "Invalid Date". Either way the text is not
      empty. */
  function FormattedDate(d: string): (r: string)
    ensures r != ""
    ensures d != "" ==> r == d
  {
    if d == "" then "Invalid Date" else d
  }

  class MenuForm {
    var menuDate: string

    constructor ()
      ensures menuDate == ""
    {
      menuDate := "";
    }

    /** The effect on `initialData`: the edited menu's date in `YYYY-MM-DD`
        form, or an empty field for a new menu. */
    method LoadInitial(initialData: Option<MenuDraft>)
      modifies this
      ensures initialData.Some? ==> menuDate == FormattedDate(initialData.value.menuDate)
      ensures initialData.None? ==> menuDate == ""
    {
      if initialData.Some? {
        menuDate := FormattedDate(initialData.value.menuDate);
      } else {
        menuDate := "";
      }
    }

    /** `handleSubmit`: nothing is submitted while the date is empty;
        otherwise the body is exactly `{ menuDate }`. The field is kept. */
    method HandleSubmit() returns (submitted: Option<MenuDraft>)
      ensures submitted.None? <==> menuDate == ""
      ensures submitted.Some? ==> submitted.value == MenuDraft(menuDate)
    {
      if menuDate == "" {
        return None;
      }
      submitted := Some(MenuDraft(menuDate));
    }
  }

  /** Editing a menu and submitting at once always submits: the menu's own
      date, or "Invalid Date" when the menu has none. A new menu cannot be
      submitted until a date is entered. */
  method EditAndSubmit(menu: MenuDraft) returns (submitted: Option<MenuDraft>)
    ensures submitted.Some?
    ensures menu.menuDate != "" ==> submitted == Some(menu)
    ensures menu.menuDate == "" ==> submitted == Some(MenuDraft("Invalid Date"))
  {
    var form := new MenuForm();
    form.LoadInitial(Some(menu));
    submitted := form.HandleSubmit();
  }

  method NewAndSubmit() returns (submitted: Option<MenuDraft>)
    ensures submitted == None
  {
    var form := new MenuForm();
    form.LoadInitial(None);
    submitted := form.HandleSubmit();
  }
}
