/** The dialog that adds or edits a menu item (features/RunningRoom/Kitchen/MenuItemFormDialog.tsx):
    five fields, filled from the item being edited or reset, and a submit
    that requires a name, a meal type and a category. */
module MenuItemFormDialog {
  import opened Common
  import opened Menus

  /** `MEAL_TYPES`, the meal types the dialog offers. */
  const MealTypeOptions: seq<string> := ["BREAKFAST", "LUNCH", "DINNER"]

  /** `MEAL_CATEGORIES`, the categories the dialog offers. */
  const MealCategoryOptions: seq<string> := ["VEG", "NON_VEG", "DESSERT", "SNACK"]

  /** Every offered choice is non-empty, so picking one never blocks a
      submit; and the dialog offers no "SNACKS" meal type although the menu
      screens reserve a row for it. */
  lemma OfferedChoices()
    ensures forall i :: 0 <= i < |MealTypeOptions| ==> MealTypeOptions[i] != ""
    ensures forall i :: 0 <= i < |MealCategoryOptions| ==> MealCategoryOptions[i] != ""
    ensures "SNACKS" in MealOrder && "SNACKS" !in MealTypeOptions
    ensures forall i :: 0 <= i < |MealTypeOptions| ==> MealTypeOptions[i] in MealOrder
  {
    assert MealOrder[3] == "SNACKS";
    assert MealOrder[0] == "BREAKFAST" && MealOrder[1] == "LUNCH" && MealOrder[2] == "DINNER";
  }

  class MenuItemForm {
    var name: string
    var description: string
    var price: int
    var mealType: string
    var mealCategory: string

    constructor ()
      ensures name == "" && description == "" && price == 0 && mealType == "" && mealCategory == ""
    {
      name, description, price, mealType, mealCategory := "", "", 0, "", "";
    }

    /** The effect on `initialData`: copy the edited item's five fields, or
        reset them to "", "", 0, "", "". */
    method LoadInitial(initialData: Option<MenuItem>)
      modifies this
      ensures initialData.Some? ==>
        name == initialData.value.name && description == initialData.value.description
        && price == initialData.value.price && mealType == initialData.value.mealType
        && mealCategory == initialData.value.mealCategory
      ensures initialData.None? ==>
        name == "" && description == "" && price == 0 && mealType == "" && mealCategory == ""
    {
      if initialData.Some? {
        var item := initialData.value;
        name, description, price := item.name, item.description, item.price;
        mealType, mealCategory := item.mealType, item.mealCategory;
      } else {
        name, description, price, mealType, mealCategory := "", "", 0, "", "";
      }
    }

    /** `handleSubmit`: nothing is submitted while the name, the meal type or
        the category is empty; the description and the price never block.
        Otherwise the body is exactly the five fields. */
    method HandleSubmit() returns (submitted: Option<ItemDraft>)
      ensures submitted.None? <==> name == "" || mealType == "" || mealCategory == ""
      ensures submitted.Some? ==>
        submitted.value == ItemDraft(name, description, price, mealType, mealCategory)
    {
      if name == "" || mealType == "" || mealCategory == "" {
        return None;
      }
      submitted := Some(ItemDraft(name, description, price, mealType, mealCategory));
    }
  }

  /** Editing an item and submitting at once sends its own fields back
      whenever its name, meal type and category are set, whatever its
      description and price. */
  method EditAndSubmit(item: MenuItem) returns (submitted: Option<ItemDraft>)
    ensures item.name != "" && item.mealType != "" && item.mealCategory != "" ==>
      submitted == Some(ItemDraft(item.name, item.description, item.price, item.mealType, item.mealCategory))
    ensures item.name == "" || item.mealType == "" || item.mealCategory == "" ==> submitted == None
  {
    var form := new MenuItemForm();
    form.LoadInitial(Some(item));
    submitted := form.HandleSubmit();
  }
}
