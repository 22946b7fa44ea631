/** The week as a table (features/RunningRoom/Kitchen/WeeklyMenuCard.tsx): menus
    are indexed by date in a dictionary, the distinct dates are sorted into
    the columns, `MEAL_ORDER` gives the rows, and each cell lists the items
    of that meal in that day's menu, or "-". */
module WeeklyMenuCard {
  import opened Text
  import opened Seqs
  import opened Menus

  /** The dictionary `menusByDate` should become: each date that occurs
      maps to the last menu carrying it. */
  function MenusByDate(menus: seq<Menu>): (m: map<string, Menu>)
    ensures forall d :: d in m <==> d in Dates(menus)
    ensures forall d :: d in m ==> m[d] == menus[LastIndex(Dates(menus), d)]
  {
    map d | d in Dates(menus) :: menus[LastIndex(Dates(menus), d)]
  }

  lemma MenusByDateStep(menus: seq<Menu>, i: int)
    requires 0 <= i < |menus|
    ensures MenusByDate(menus[..i + 1]) == MenusByDate(menus[..i])[menus[i].menuDate := menus[i]]
  {
    var prefix := menus[..i];
    assert menus[..i + 1] == prefix + [menus[i]];
    assert Dates(menus[..i + 1]) == Dates(prefix) + [menus[i].menuDate];
    forall d | d in Dates(prefix)
      ensures LastIndex(Dates(menus[..i + 1]), d) == (if d == menus[i].menuDate then i else LastIndex(Dates(prefix), d))
    {
      LastIndexAppend(Dates(prefix), menus[i].menuDate, d);
    }
    LastIndexAppend(Dates(prefix), menus[i].menuDate, menus[i].menuDate);
  }

  /** `menus.forEach(menu => { menusByDate[date] = menu; })`: a later menu
      with the same date overwrites an earlier one. */
  method BuildMenusByDate(menus: seq<Menu>) returns (menusByDate: map<string, Menu>)
    ensures menusByDate == MenusByDate(menus)
  {
    menusByDate := map[];
    var i := 0;
    while i < |menus|
      invariant 0 <= i <= |menus|
      invariant menusByDate == MenusByDate(menus[..i])
    {
      MenusByDateStep(menus, i);
      menusByDate := menusByDate[menus[i].menuDate := menus[i]];
      i := i + 1;
    }
    assert menus[..|menus|] == menus;
  }

  /** `[...new Set(dates)].sort()`: the column dates. */
  function WeekDates(menus: seq<Menu>): (r: seq<string>)
    ensures multiset(r) == multiset(Distinct(Dates(menus)))
    ensures forall d :: d in r <==> d in Dates(menus)
  {
    var r := SortBy(Distinct(Dates(menus)), Identity);
    assert forall d :: d in r <==> d in multiset(r);
    r
  }

  /** Every menu's date is a column exactly once, the columns are strictly
      ascending, and every column has its menu in the dictionary. */
  lemma WeekDatesAreTheDistinctDatesAscending(menus: seq<Menu>)
    ensures forall d :: d in WeekDates(menus) <==> exists i :: 0 <= i < |menus| && menus[i].menuDate == d
    ensures NoDuplicates(WeekDates(menus))
    ensures forall i, j :: 0 <= i < j < |WeekDates(menus)| ==> Less(WeekDates(menus)[i], WeekDates(menus)[j])
    ensures forall j :: 0 <= j < |WeekDates(menus)| ==> WeekDates(menus)[j] in MenusByDate(menus)
  {
    var ds := Distinct(Dates(menus));
    var r := WeekDates(menus);
    forall d ensures d in r <==> exists i :: 0 <= i < |menus| && menus[i].menuDate == d {
      assert d in r <==> d in multiset(ds);
      if d in Dates(menus) {
        var i :| 0 <= i < |menus| && Dates(menus)[i] == d;
        assert menus[i].menuDate == d;
      }
      if exists i :: 0 <= i < |menus| && menus[i].menuDate == d {
        var i :| 0 <= i < |menus| && menus[i].menuDate == d;
        assert Dates(menus)[i] == d;
      }
    }
    assert NoDuplicates(r) by {
      assert multiset(r) == multiset(ds);
    }
    SortedDistinctAscending(ds);
    forall j | 0 <= j < |r| ensures r[j] in MenusByDate(menus) {
      assert r[j] in multiset(ds);
    }
  }

  /** What a cell shows: a list of items, or "-". */
  datatype Cell = Dash | ItemList(items: seq<MenuItem>)

  /** `menusByDate[date]?.items.filter(i => i.mealType === meal) || []`. */
  function CellItems(menusByDate: map<string, Menu>, date: string, meal: string): (r: seq<MenuItem>)
    ensures date !in menusByDate ==> r == []
    ensures date in menusByDate ==> r == ItemsOfMeal(menusByDate[date].items, meal)
  {
    if date in menusByDate then ItemsOfMeal(menusByDate[date].items, meal) else []
  }

  function CellOf(items: seq<MenuItem>): (c: Cell)
    ensures c.Dash? <==> items == []
  {
    if |items| > 0 then ItemList(items) else Dash
  }

  /** The body of the table: one row per meal of `MEAL_ORDER`, one cell per
      column date. */
  function Table(menus: seq<Menu>): (t: seq<seq<Cell>>)
    ensures |t| == |MealOrder|
    ensures forall r :: 0 <= r < |t| ==> |t[r]| == |WeekDates(menus)|
  {
    var byDate := MenusByDate(menus);
    var dates := WeekDates(menus);
    seq(|MealOrder|, r requires 0 <= r < |MealOrder| =>
      seq(|dates|, c requires 0 <= c < |dates| => CellOf(CellItems(byDate, dates[c], MealOrder[r]))))
  }

  /** The table has a row per meal and a column per distinct date; the cell
      of a meal and a date lists exactly the items of that meal in the last
      menu of that date, in its order, and shows "-" when there are none. */
  lemma TableCells(menus: seq<Menu>)
    ensures |Table(menus)| == |MealOrder|
    ensures forall r :: 0 <= r < |MealOrder| ==> |Table(menus)[r]| == |WeekDates(menus)|
    ensures forall r, c :: 0 <= r < |MealOrder| && 0 <= c < |WeekDates(menus)| ==>
      var menu := MenusByDate(menus)[WeekDates(menus)[c]];
      var cell := Table(menus)[r][c];
      (cell.Dash? <==> ItemsOfMeal(menu.items, MealOrder[r]) == [])
      && (cell.ItemList? ==>
            (cell.items == ItemsOfMeal(menu.items, MealOrder[r]) && IsSubsequence(cell.items, menu.items)))
  {
    WeekDatesAreTheDistinctDatesAscending(menus);
    var dates := WeekDates(menus);
    forall r, c | 0 <= r < |MealOrder| && 0 <= c < |dates|
      ensures IsSubsequence(ItemsOfMeal(MenusByDate(menus)[dates[c]].items, MealOrder[r]),
                            MenusByDate(menus)[dates[c]].items)
    {
      FilterIsSubsequence(MenusByDate(menus)[dates[c]].items, OfMealType(MealOrder[r]));
    }
  }
}
