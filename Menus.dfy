/** The kitchen's menu records as the `/menus` API returns them, and the
    fixed order in which the screens lay out the meals of a day. A menu's
    date is held as the normalised `YYYY-MM-DD` text the screens obtain
    from `dayjs(...).format("YYYY-MM-DD")`. */
module Menus {
  import opened Common
  import opened Seqs

  datatype MenuItem = MenuItem(
    id: Option<string>,
    name: string,
    description: string,
    price: int,
    mealType: string,
    mealCategory: string)

  datatype Menu = Menu(id: string, menuDate: string, items: seq<MenuItem>)

  /** The body the menu dialog submits: `{ menuDate }`. */
  datatype MenuDraft = MenuDraft(menuDate: string)

  /** The body the item dialog submits: an item without its id. */
  datatype ItemDraft = ItemDraft(
    name: string,
    description: string,
    price: int,
    mealType: string,
    mealCategory: string)

  /** `MEAL_ORDER`, shared by the daily card and the weekly table. */
  const MealOrder: seq<string> := ["BREAKFAST", "LUNCH", "DINNER", "SNACKS"]

  /** The test `item.mealType === meal`. */
  function OfMealType(meal: string): MenuItem -> bool
  {
    (item: MenuItem) => item.mealType == meal
  }

  /** The items of one meal, in the menu's order. */
  function ItemsOfMeal(items: seq<MenuItem>, meal: string): (r: seq<MenuItem>)
    ensures |r| <= |items|
    ensures forall i :: 0 <= i < |r| ==> r[i].mealType == meal
  {
    Filter(items, OfMealType(meal))
  }

  /** `menus.map(m => m.menuDate)`. */
  function Dates(menus: seq<Menu>): (r: seq<string>)
    ensures |r| == |menus|
    ensures forall i :: 0 <= i < |menus| ==> r[i] == menus[i].menuDate
  {
    seq(|menus|, i requires 0 <= i < |menus| => menus[i].menuDate)
  }

  /** The meal types that occur among the items. */
  function MealTypes(items: seq<MenuItem>): (r: seq<string>)
    ensures |r| == |items|
    ensures forall i :: 0 <= i < |items| ==> r[i] == items[i].mealType
  {
    seq(|items|, i requires 0 <= i < |items| => items[i].mealType)
  }
}
