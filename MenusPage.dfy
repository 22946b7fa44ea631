/** The kitchen's menu screen (features/RunningRoom/Kitchen/MenusPage.tsx): it
    holds the view ("weekly" or "daily"), the date it is looking at, the
    loaded menus, an error line, two dialog flags and the menu and item the
    dialogs edit. A fetch loads the menus of the current week or day; the
    save and delete handlers call the API and fetch again.

    Dates are day numbers: day 0 is 1970-01-01, a Thursday, in the
    browser's time zone. The week is dayjs's default locale week, which runs
    from Sunday to Saturday. */
module MenusPage {
  import opened Common
  import opened Menus
  import opened DailyMenuCard
  import opened WeeklyMenu

  datatype View = Weekly | Daily

  /** The weekday of a day number: 0 for Sunday up to 6 for Saturday. */
  function DayOfWeek(day: int): (w: int)
    ensures 0 <= w < 7
  {
    (day + 4) % 7
  }

  /** `startOf("week")`: the Sunday on or before the day. */
  function WeekStart(day: int): (s: int)
    ensures s <= day <= s + 6
    ensures DayOfWeek(s) == 0
  {
    var s := day - DayOfWeek(day);
    assert day + 4 == 7 * ((day + 4) / 7) + DayOfWeek(day);
    assert s + 4 == 7 * ((day + 4) / 7);
    s
  }

  /** `endOf("week")`: the Saturday on or after the day. */
  function WeekEnd(day: int): (e: int)
    ensures e == WeekStart(day) + 6
    ensures DayOfWeek(e) == 6
  {
    var e := WeekStart(day) + 6;
    assert WeekStart(day) + 4 == 7 * ((WeekStart(day) + 4) / 7);
    e
  }

  /** The week of a day is the only Sunday-to-Saturday span holding it. */
  lemma WeekStartUnique(day: int, s: int)
    requires s <= day <= s + 6 && DayOfWeek(s) == 0
    ensures s == WeekStart(day)
  {
    var t := WeekStart(day);
    assert s + 4 == 7 * ((s + 4) / 7);
    assert t + 4 == 7 * ((t + 4) / 7);
    assert s - t == 7 * ((s + 4) / 7 - (t + 4) / 7);
  }

  /** Every day of a week asks for the same range. */
  lemma SameWeekSameRange(day: int, other: int)
    requires WeekStart(day) <= other <= WeekEnd(day)
    ensures WeekStart(other) == WeekStart(day) && WeekEnd(other) == WeekEnd(day)
  {
    WeekStartUnique(other, WeekStart(day));
  }

  /** The request a fetch makes. */
  datatype MenuQuery = WeekQuery(startDate: int, endDate: int) | DayQuery(date: int)

  /** The request for a view: the current week from Sunday to Saturday, or
      the current day. */
  function QueryFor(view: View, today: int): (q: MenuQuery)
    ensures view == Weekly ==>
      q.WeekQuery? && q.startDate <= today <= q.endDate && q.endDate == q.startDate + 6
      && DayOfWeek(q.startDate) == 0 && DayOfWeek(q.endDate) == 6
    ensures view == Daily ==> q == DayQuery(today)
  {
    if view == Weekly then WeekQuery(WeekStart(today), WeekEnd(today)) else DayQuery(today)
  }

  /** The server's answers: the menus of a date range, and the menu of a
      day if there is one. */
  datatype MenuApi = MenuApi(
    weekly: (int, int) -> ApiOutcome<seq<Menu>>,
    daily: int -> ApiOutcome<Option<Menu>>)

  /** `menus` and `error` after a fetch. */
  datatype Loaded = Loaded(menus: seq<Menu>, error: string)

  /** What a fetch for the query leaves in `menus` and `error`, starting from
      the given ones. */
  function Fetched(q: MenuQuery, api: MenuApi, menus: seq<Menu>, error: string): (r: Loaded)
    ensures Answered(q, api) ==> r.error == ""
    ensures !Answered(q, api) ==> r.menus == menus && r.error != ""
    ensures q.DayQuery? && Answered(q, api) ==> |r.menus| <= 1
  {
    match q
    case WeekQuery(startDate, endDate) =>
      (match api.weekly(startDate, endDate)
       case Ok(list) => Loaded(list, "")
       case Failed(message) => Loaded(menus, ErrorText(message, "Failed to load menus")))
    case DayQuery(date) =>
      (match api.daily(date)
       case Ok(found) => Loaded(if found.Some? then [found.value] else [], "")
       case Failed(message) => Loaded(menus, ErrorText(message, "Failed to load menus")))
  }

  /** Whether the server answered the query. */
  predicate Answered(q: MenuQuery, api: MenuApi)
  {
    match q
    case WeekQuery(startDate, endDate) => api.weekly(startDate, endDate).Ok?
    case DayQuery(date) => api.daily(date).Ok?
  }

  /** A fetch clears the error exactly when the server answered; a week's
      answer is shown as it is; a day shows its menu or nothing, so at most
      one; a failure keeps the menus and shows the server's message or
      "Failed to load menus". */
  lemma FetchOutcome(q: MenuQuery, api: MenuApi, menus: seq<Menu>, error: string)
    ensures Fetched(q, api, menus, error).error == "" <==> Answered(q, api)
    ensures q.WeekQuery? && Answered(q, api) ==>
      Fetched(q, api, menus, error).menus == api.weekly(q.startDate, q.endDate).value
    ensures q.DayQuery? && Answered(q, api) ==>
      |Fetched(q, api, menus, error).menus| <= 1
      && (Fetched(q, api, menus, error).menus == [] <==> api.daily(q.date).value.None?)
      && (api.daily(q.date).value.Some? ==> Fetched(q, api, menus, error).menus == [api.daily(q.date).value.value])
    ensures q.WeekQuery? && !Answered(q, api) ==>
      Fetched(q, api, menus, error) == Loaded(menus, ErrorText(api.weekly(q.startDate, q.endDate).message, "Failed to load menus"))
    ensures q.DayQuery? && !Answered(q, api) ==>
      Fetched(q, api, menus, error) == Loaded(menus, ErrorText(api.daily(q.date).message, "Failed to load menus"))
  {
  }

  /** The API call a handler makes. */
  datatype MenuCall =
    | CreateMenu(menu: MenuDraft)
    | UpdateMenu(id: string, menu: MenuDraft)
    | DeleteMenu(id: string)
    | AddMenuItem(menuId: string, item: ItemDraft)
    | UpdateMenuItem(menuId: string, itemId: string, item: ItemDraft)
    | DeleteMenuItem(menuId: string, itemId: string)
    | NoCall

  /** What the daily view shows. */
  datatype DailyPanel = NoMenu | MenuCard(card: Card)

  /** The daily view as written: `<DailyMenuCard menu={menus[0]} />`. The
      card reads `menu.items` first, which throws a TypeError when `menus`
      is empty and `menus[0]` is undefined. */
  function DailyViewAsWritten(menus: seq<Menu>): (r: Throws<Card>)
    ensures r.TypeError? <==> menus == []
    ensures menus != [] ==> r.value == CardOf(menus[0])
  {
    if menus == [] then TypeError else Value(CardOf(menus[0]))
  }

  /** A day without a menu crashes the daily view as written: the fetch
      leaves `menus` empty and the card then reads `undefined.items`. */
  lemma DailyViewAsWrittenCrashesOnEmptyDay(today: int, api: MenuApi, menus: seq<Menu>, error: string)
    requires api.daily(today) == Ok(None)
    ensures DailyViewAsWritten(Fetched(QueryFor(Daily, today), api, menus, error).menus).TypeError?
  {
  }

  /** The daily view as intended: the card of the first menu, or an empty
      panel when there is none. */
  function DailyView(menus: seq<Menu>): (r: DailyPanel)
    ensures r.NoMenu? <==> menus == []
    ensures menus != [] ==> r == MenuCard(CardOf(menus[0]))
  {
    if menus == [] then NoMenu else MenuCard(CardOf(menus[0]))
  }

  /** The intended view never crashes, agrees with the written one wherever
      that one does not crash, and after an answered daily fetch shows the
      server's menu for the day, or the empty panel when it has none. */
  lemma DailyViewShowsTheDaysMenu(today: int, api: MenuApi, menus: seq<Menu>, error: string)
    ensures menus != [] ==> DailyViewAsWritten(menus) == Value(DailyView(menus).card)
    ensures api.daily(today).Ok? ==>
      DailyView(Fetched(QueryFor(Daily, today), api, menus, error).menus)
        == (if api.daily(today).value.Some? then MenuCard(CardOf(api.daily(today).value.value)) else NoMenu)
  {
  }

  /** What the screen shows: the day panel or the week grid, and the error
      line when `error` is not empty. */
  datatype Body = DailyBody(panel: DailyPanel) | WeeklyBody(cards: seq<ColouredCard>)
  datatype Screen = Screen(body: Body, errorLine: Option<string>)

  class MenusScreen {
    var view: View
    var menus: seq<Menu>
    var currentDate: int
    var error: string
    var openMenuDialog: bool
    var openItemDialog: bool
    var selectedMenu: Option<Menu>
    var selectedItem: Option<MenuItem>

    /** The first render and the mount effect's fetch of the current week. */
    constructor (today: int, api: MenuApi)
      ensures view == Weekly && currentDate == today
      ensures Loaded(menus, error) == Fetched(QueryFor(Weekly, today), api, [], "")
      ensures !openMenuDialog && !openItemDialog && selectedMenu == None && selectedItem == None
    {
      view, currentDate := Weekly, today;
      openMenuDialog, openItemDialog := false, false;
      selectedMenu, selectedItem := None, None;
      menus, error := [], "";
      new;
      var _ := FetchMenus(api);
    }

    /** `fetchMenus`: asks for the current week or day and stores the
        answer, or the error. */
    method FetchMenus(api: MenuApi) returns (query: MenuQuery)
      modifies this
      ensures query == QueryFor(view, currentDate)
      ensures Loaded(menus, error) == Fetched(query, api, old(menus), old(error))
      ensures view == old(view) && currentDate == old(currentDate)
      ensures openMenuDialog == old(openMenuDialog) && openItemDialog == old(openItemDialog)
      ensures selectedMenu == old(selectedMenu) && selectedItem == old(selectedItem)
    {
      query := QueryFor(view, currentDate);
      match query {
        case WeekQuery(startDate, endDate) =>
          match api.weekly(startDate, endDate) {
            case Ok(list) =>
              menus := list;
              error := "";
            case Failed(message) =>
              error := ErrorText(message, "Failed to load menus");
          }
        case DayQuery(date) =>
          match api.daily(date) {
            case Ok(found) =>
              menus := if found.Some? then [found.value] else [];
              error := "";
            case Failed(message) =>
              error := ErrorText(message, "Failed to load menus");
          }
      }
    }

    /** The view select: a new view runs the effect, which fetches again. */
    method ChangeView(newView: View, api: MenuApi)
      modifies this
      ensures view == newView && currentDate == old(currentDate)
      ensures newView == old(view) ==> menus == old(menus) && error == old(error)
      ensures newView != old(view) ==>
        Loaded(menus, error) == Fetched(QueryFor(newView, currentDate), api, old(menus), old(error))
      ensures openMenuDialog == old(openMenuDialog) && openItemDialog == old(openItemDialog)
      ensures selectedMenu == old(selectedMenu) && selectedItem == old(selectedItem)
    {
      if newView != view {
        view := newView;
        var _ := FetchMenus(api);
      }
    }

    /** `handleSaveMenu`: update the selected menu, or create one when none
        is selected. Only when the call succeeds is the dialog closed, the
        selection cleared and the list fetched again; a failed call rejects
        the handler's promise before any of that. */
    method SaveMenu(data: MenuDraft, callSucceeds: bool, api: MenuApi) returns (call: MenuCall)
      modifies this
      ensures call == if old(selectedMenu).Some? then UpdateMenu(old(selectedMenu).value.id, data) else CreateMenu(data)
      ensures callSucceeds ==>
        !openMenuDialog && selectedMenu == None
        && Loaded(menus, error) == Fetched(QueryFor(view, currentDate), api, old(menus), old(error))
      ensures !callSucceeds ==>
        openMenuDialog == old(openMenuDialog) && selectedMenu == old(selectedMenu)
        && menus == old(menus) && error == old(error)
      ensures view == old(view) && currentDate == old(currentDate)
      ensures openItemDialog == old(openItemDialog) && selectedItem == old(selectedItem)
    {
      if selectedMenu.Some? {
        call := UpdateMenu(selectedMenu.value.id, data);
      } else {
        call := CreateMenu(data);
      }
      if !callSucceeds {
        return;
      }
      openMenuDialog := false;
      selectedMenu := None;
      var _ := FetchMenus(api);
    }

    /** `handleDeleteMenu`: nothing happens unless the user confirms; then
        the menu is deleted and, if that succeeds, the list fetched again. */
    method RemoveMenu(menuId: string, confirmed: bool, callSucceeds: bool, api: MenuApi) returns (call: MenuCall)
      modifies this
      ensures call == if confirmed then DeleteMenu(menuId) else NoCall
      ensures confirmed && callSucceeds ==>
        Loaded(menus, error) == Fetched(QueryFor(view, currentDate), api, old(menus), old(error))
      ensures !(confirmed && callSucceeds) ==> menus == old(menus) && error == old(error)
      ensures view == old(view) && currentDate == old(currentDate)
      ensures openMenuDialog == old(openMenuDialog) && openItemDialog == old(openItemDialog)
      ensures selectedMenu == old(selectedMenu) && selectedItem == old(selectedItem)
    {
      call := NoCall;
      if confirmed {
        call := DeleteMenu(menuId);
        if callSucceeds {
          var _ := FetchMenus(api);
        }
      }
    }

    /** `handleSaveItem`: update the selected item when it has an id,
        otherwise add the item to the menu; when the call succeeds the item
        dialog closes, the item selection is cleared and the list fetched
        again. The selected menu is kept. */
    method SaveItem(menuId: string, data: ItemDraft, callSucceeds: bool, api: MenuApi) returns (call: MenuCall)
      modifies this
      ensures call ==
        if old(selectedItem).Some? && IsTruthy(old(selectedItem).value.id)
        then UpdateMenuItem(menuId, old(selectedItem).value.id.value, data)
        else AddMenuItem(menuId, data)
      ensures callSucceeds ==>
        !openItemDialog && selectedItem == None
        && Loaded(menus, error) == Fetched(QueryFor(view, currentDate), api, old(menus), old(error))
      ensures !callSucceeds ==>
        openItemDialog == old(openItemDialog) && selectedItem == old(selectedItem)
        && menus == old(menus) && error == old(error)
      ensures view == old(view) && currentDate == old(currentDate)
      ensures openMenuDialog == old(openMenuDialog) && selectedMenu == old(selectedMenu)
    {
      if selectedItem.Some? && IsTruthy(selectedItem.value.id) {
        call := UpdateMenuItem(menuId, selectedItem.value.id.value, data);
      } else {
        call := AddMenuItem(menuId, data);
      }
      if !callSucceeds {
        return;
      }
      openItemDialog := false;
      selectedItem := None;
      var _ := FetchMenus(api);
    }

    /** The item dialog's `onSubmit`: `selectedMenu && handleSaveItem(...)`,
        so nothing happens while no menu is selected. */
    method SubmitItem(data: ItemDraft, callSucceeds: bool, api: MenuApi) returns (call: MenuCall)
      modifies this
      ensures old(selectedMenu).None? ==>
        call == NoCall && menus == old(menus) && error == old(error)
        && openItemDialog == old(openItemDialog) && selectedItem == old(selectedItem)
      ensures old(selectedMenu).Some? ==>
        call ==
          if old(selectedItem).Some? && IsTruthy(old(selectedItem).value.id)
          then UpdateMenuItem(old(selectedMenu).value.id, old(selectedItem).value.id.value, data)
          else AddMenuItem(old(selectedMenu).value.id, data)
      ensures old(selectedMenu).Some? && callSucceeds ==>
        !openItemDialog && selectedItem == None
        && Loaded(menus, error) == Fetched(QueryFor(view, currentDate), api, old(menus), old(error))
      ensures old(selectedMenu).Some? && !callSucceeds ==>
        openItemDialog == old(openItemDialog) && selectedItem == old(selectedItem)
        && menus == old(menus) && error == old(error)
      ensures view == old(view) && currentDate == old(currentDate)
      ensures openMenuDialog == old(openMenuDialog) && selectedMenu == old(selectedMenu)
    {
      call := NoCall;
      if selectedMenu.Some? {
        call := SaveItem(selectedMenu.value.id, data, callSucceeds, api);
      }
    }

    /** `handleDeleteItem`: only after confirmation, then a fetch when the
        call succeeds. */
    method RemoveItem(menuId: string, itemId: string, confirmed: bool, callSucceeds: bool, api: MenuApi)
      returns (call: MenuCall)
      modifies this
      ensures call == if confirmed then DeleteMenuItem(menuId, itemId) else NoCall
      ensures confirmed && callSucceeds ==>
        Loaded(menus, error) == Fetched(QueryFor(view, currentDate), api, old(menus), old(error))
      ensures !(confirmed && callSucceeds) ==> menus == old(menus) && error == old(error)
      ensures view == old(view) && currentDate == old(currentDate)
      ensures openMenuDialog == old(openMenuDialog) && openItemDialog == old(openItemDialog)
      ensures selectedMenu == old(selectedMenu) && selectedItem == old(selectedItem)
    {
      call := NoCall;
      if confirmed {
        call := DeleteMenuItem(menuId, itemId);
        if callSucceeds {
          var _ := FetchMenus(api);
        }
      }
    }

    /** `onEditMenu`: select the menu and open the menu dialog. */
    method EditMenu(menu: Menu)
      modifies this
      ensures selectedMenu == Some(menu) && openMenuDialog
      ensures view == old(view) && currentDate == old(currentDate) && menus == old(menus) && error == old(error)
      ensures openItemDialog == old(openItemDialog) && selectedItem == old(selectedItem)
    {
      selectedMenu := Some(menu);
      openMenuDialog := true;
    }

    /** `onAddItem`: select the menu and open the item dialog. */
    method AddItem(menu: Menu)
      modifies this
      ensures selectedMenu == Some(menu) && openItemDialog
      ensures view == old(view) && currentDate == old(currentDate) && menus == old(menus) && error == old(error)
      ensures openMenuDialog == old(openMenuDialog) && selectedItem == old(selectedItem)
    {
      selectedMenu := Some(menu);
      openItemDialog := true;
    }

    /** `onEditItem`: select the menu and the item and open the item dialog. */
    method EditItem(menu: Menu, item: MenuItem)
      modifies this
      ensures selectedMenu == Some(menu) && selectedItem == Some(item) && openItemDialog
      ensures view == old(view) && currentDate == old(currentDate) && menus == old(menus) && error == old(error)
      ensures openMenuDialog == old(openMenuDialog)
    {
      selectedMenu := Some(menu);
      selectedItem := Some(item);
      openItemDialog := true;
    }

    /** The menu dialog's `onClose`: close it and drop the selected menu. */
    method CloseMenuDialog()
      modifies this
      ensures !openMenuDialog && selectedMenu == None
      ensures view == old(view) && currentDate == old(currentDate) && menus == old(menus) && error == old(error)
      ensures openItemDialog == old(openItemDialog) && selectedItem == old(selectedItem)
    {
      openMenuDialog := false;
      selectedMenu := None;
    }

    /** The item dialog's `onClose`: close it and drop the selected item;
        the selected menu stays. */
    method CloseItemDialog()
      modifies this
      ensures !openItemDialog && selectedItem == None
      ensures view == old(view) && currentDate == old(currentDate) && menus == old(menus) && error == old(error)
      ensures openMenuDialog == old(openMenuDialog) && selectedMenu == old(selectedMenu)
    {
      openItemDialog := false;
      selectedItem := None;
    }

    /** The rendered page, with the daily view guarded against a day
        without a menu. */
    function Render(): (s: Screen)
      reads this
      ensures view == Daily ==> s.body == DailyBody(DailyView(menus))
      ensures view == Weekly ==> s.body == WeeklyBody(Cards(menus)) && |s.body.cards| == |menus|
      ensures s.errorLine.Some? <==> error != ""
    {
      Screen(if view == Daily then DailyBody(DailyView(menus)) else WeeklyBody(Cards(menus)),
             if error != "" then Some(error) else None)
    }
  }
}
