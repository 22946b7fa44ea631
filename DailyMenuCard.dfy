/** The card that shows one day's menu (features/RunningRoom/Kitchen/DailyMenuCard.tsx):
    the items are grouped by meal type into a dictionary, one section is
    shown per meal of `MEAL_ORDER` that has a group, and every item's name is
    coloured by its category. */
module DailyMenuCard {
  import opened Seqs
  import opened Menus

  /** The dictionary the grouping should produce: one entry per meal type
      that occurs among the items, holding that meal's items in order. */
  function Grouping(items: seq<MenuItem>): (g: map<string, seq<MenuItem>>)
    ensures forall k :: k in g <==> k in MealTypes(items)
  {
    map k | k in MealTypes(items) :: ItemsOfMeal(items, k)
  }

  /** Appending one item extends exactly the group of its meal type. */
  lemma GroupingStep(items: seq<MenuItem>, i: int)
    requires 0 <= i < |items|
    ensures Grouping(items[..i + 1]) ==
      Grouping(items[..i])[items[i].mealType :=
        (if items[i].mealType in Grouping(items[..i]) then Grouping(items[..i])[items[i].mealType] else [])
        + [items[i]]]
  {
    var t := items[i].mealType;
    var before, after := Grouping(items[..i]), Grouping(items[..i + 1]);
    assert items[..i + 1] == items[..i] + [items[i]];
    assert MealTypes(items[..i + 1]) == MealTypes(items[..i]) + [t];
    forall k | k in after
      ensures after[k] == (if k == t then (if t in before then before[t] else []) + [items[i]] else before[k])
    {
      FilterAppend(items[..i], [items[i]], OfMealType(k));
      assert Filter([items[i]], OfMealType(k)) == (if k == t then [items[i]] else []);
      MealWithItemsOccurs(items[..i], t);
    }
  }

  /** A meal with at least one item is one of the items' meal types. */
  lemma MealWithItemsOccurs(items: seq<MenuItem>, meal: string)
    ensures ItemsOfMeal(items, meal) != [] ==> meal in MealTypes(items)
  {
    if ItemsOfMeal(items, meal) != [] {
      var x := ItemsOfMeal(items, meal)[0];
      FilterMembership(items, OfMealType(meal), x);
      var j :| 0 <= j < |items| && items[j] == x;
      assert MealTypes(items)[j] == meal;
    }
  }

  /** `menu.items.reduce(...)`: each item is pushed onto the array of its
      meal type, which is created on first use. */
  method GroupByMealType(items: seq<MenuItem>) returns (grouped: map<string, seq<MenuItem>>)
    ensures grouped == Grouping(items)
  {
    grouped := map[];
    var i := 0;
    while i < |items|
      invariant 0 <= i <= |items|
      invariant grouped == Grouping(items[..i])
    {
      var item := items[i];
      var acc := if item.mealType in grouped then grouped[item.mealType] else [];
      GroupingStep(items, i);
      grouped := grouped[item.mealType := acc + [item]];
      i := i + 1;
    }
    assert items[..|items|] == items;
  }

  /** Every item lands in the group of its own meal type and in no other,
      as often as it occurs, and each group keeps the menu's order. */
  lemma GroupingPartitionsItems(items: seq<MenuItem>)
    ensures forall k :: k in Grouping(items) ==> IsSubsequence(Grouping(items)[k], items)
    ensures forall k, x: MenuItem :: k in Grouping(items) ==>
      multiset(Grouping(items)[k])[x] == (if x.mealType == k then multiset(items)[x] else 0)
    ensures forall i :: 0 <= i < |items| ==>
      items[i].mealType in Grouping(items) && items[i] in Grouping(items)[items[i].mealType]
  {
    var g := Grouping(items);
    forall k | k in g
      ensures IsSubsequence(g[k], items)
      ensures forall x: MenuItem :: multiset(g[k])[x] == (if x.mealType == k then multiset(items)[x] else 0)
    {
      FilterIsSubsequence(items, OfMealType(k));
      FilterMultiplicity(items, OfMealType(k));
    }
    forall i | 0 <= i < |items|
      ensures items[i].mealType in g && items[i] in g[items[i].mealType]
    {
      assert MealTypes(items)[i] == items[i].mealType;
      FilterMembership(items, OfMealType(items[i].mealType), items[i]);
    }
  }

  /** The sum of the sizes of the groups named by keys. */
  function SizeSum(keys: seq<string>, g: map<string, seq<MenuItem>>): nat
  {
    if keys == [] then 0 else (if keys[0] in g then |g[keys[0]]| else 0) + SizeSum(keys[1..], g)
  }

  /** The sum of the sizes of the per-meal filters named by keys. */
  function FilterSizeSum(keys: seq<string>, items: seq<MenuItem>): nat
  {
    if keys == [] then 0 else |ItemsOfMeal(items, keys[0])| + FilterSizeSum(keys[1..], items)
  }

  lemma {:induction false} FilterSizeSumCons(keys: seq<string>, x: MenuItem, rest: seq<MenuItem>)
    ensures FilterSizeSum(keys, [x] + rest) == FilterSizeSum(keys, rest) + multiset(keys)[x.mealType]
  {
    if keys != [] {
      FilterSizeSumCons(keys[1..], x, rest);
      assert ([x] + rest)[1..] == rest;
      assert keys == [keys[0]] + keys[1..];
    }
  }

  lemma {:induction false} FilterSizeSumCovers(keys: seq<string>, items: seq<MenuItem>)
    requires NoDuplicates(keys)
    requires forall i :: 0 <= i < |items| ==> items[i].mealType in keys
    ensures FilterSizeSum(keys, items) == |items|
  {
    if items == [] {
      FilterSizeSumEmpty(keys);
    } else {
      assert items == [items[0]] + items[1..];
      FilterSizeSumCovers(keys, items[1..]);
      FilterSizeSumCons(keys, items[0], items[1..]);
      assert items[0].mealType in multiset(keys);
    }
  }

  lemma {:induction false} FilterSizeSumEmpty(keys: seq<string>)
    ensures FilterSizeSum(keys, []) == 0
  {
    if keys != [] {
      FilterSizeSumEmpty(keys[1..]);
    }
  }

  lemma {:induction false} SizeSumOfGrouping(keys: seq<string>, items: seq<MenuItem>)
    requires forall i :: 0 <= i < |keys| ==> keys[i] in MealTypes(items)
    ensures SizeSum(keys, Grouping(items)) == FilterSizeSum(keys, items)
  {
    if keys != [] {
      SizeSumOfGrouping(keys[1..], items);
    }
  }

  /** Summed over the dictionary's keys, in their insertion order (the first
      appearance of each meal type), the group sizes add up to the number of
      items. */
  lemma GroupSizesSumToItemCount(items: seq<MenuItem>)
    ensures forall k :: k in Distinct(MealTypes(items)) <==> k in Grouping(items)
    ensures SizeSum(Distinct(MealTypes(items)), Grouping(items)) == |items|
  {
    var keys := Distinct(MealTypes(items));
    SizeSumOfGrouping(keys, items);
    forall i | 0 <= i < |items| ensures items[i].mealType in keys {
      assert MealTypes(items)[i] == items[i].mealType;
    }
    FilterSizeSumCovers(keys, items);
  }

  /** One section of the card: a meal and its items. */
  datatype Section = Section(meal: string, items: seq<MenuItem>)

  /** The test `grouped[meal]`: an array, and so truthy, exactly when the
      meal has a group. */
  function HasGroup(g: map<string, seq<MenuItem>>): string -> bool
  {
    (meal: string) => meal in g
  }

  /** `MEAL_ORDER.map(meal => grouped[meal] && <section>)`. */
  function CardSections(g: map<string, seq<MenuItem>>): (r: seq<Section>)
    ensures |r| <= |MealOrder|
  {
    var meals := Filter(MealOrder, HasGroup(g));
    seq(|meals|, i requires 0 <= i < |meals| => Section(meals[i], g[meals[i]]))
  }

  /** The meals of the sections, in order. */
  function SectionMeals(r: seq<Section>): seq<string>
  {
    seq(|r|, i requires 0 <= i < |r| => r[i].meal)
  }

  /** The sections of a card follow `MEAL_ORDER`, there is one for exactly
      the meals of that order that have items, and each holds all of its
      meal's items, in the menu's order, and at least one of them. */
  lemma SectionsFollowMealOrder(items: seq<MenuItem>)
    ensures IsSubsequence(SectionMeals(CardSections(Grouping(items))), MealOrder)
    ensures forall m :: m in SectionMeals(CardSections(Grouping(items))) <==>
      m in MealOrder && m in MealTypes(items)
    ensures forall j :: 0 <= j < |CardSections(Grouping(items))| ==>
      CardSections(Grouping(items))[j].items == ItemsOfMeal(items, CardSections(Grouping(items))[j].meal)
      && CardSections(Grouping(items))[j].items != []
  {
    var g := Grouping(items);
    var r := CardSections(g);
    var meals := Filter(MealOrder, HasGroup(g));
    assert SectionMeals(r) == meals;
    FilterIsSubsequence(MealOrder, HasGroup(g));
    forall m ensures m in meals <==> m in MealOrder && m in MealTypes(items) {
      FilterMembership(MealOrder, HasGroup(g), m);
    }
    forall j | 0 <= j < |r| ensures r[j].items != [] {
      var m := r[j].meal;
      assert m in MealTypes(items);
      var i :| 0 <= i < |items| && MealTypes(items)[i] == m;
      FilterMembership(items, OfMealType(m), items[i]);
    }
  }

  /** An item is shown on the card exactly when its meal type is one of
      `MEAL_ORDER`: the items of any other meal type are never displayed. */
  lemma ShownExactlyTheOrderedMeals(items: seq<MenuItem>, x: MenuItem)
    ensures (exists j :: 0 <= j < |CardSections(Grouping(items))| && x in CardSections(Grouping(items))[j].items)
      <==> x in items && x.mealType in MealOrder
  {
    var g := Grouping(items);
    var r := CardSections(g);
    SectionsFollowMealOrder(items);
    if x in items && x.mealType in MealOrder {
      var i :| 0 <= i < |items| && items[i] == x;
      assert MealTypes(items)[i] == x.mealType;
      assert x.mealType in SectionMeals(r);
      var j :| 0 <= j < |r| && SectionMeals(r)[j] == x.mealType;
      FilterMembership(items, OfMealType(x.mealType), x);
      assert x in r[j].items;
    }
    if exists j :: 0 <= j < |r| && x in r[j].items {
      var j :| 0 <= j < |r| && x in r[j].items;
      FilterMembership(items, OfMealType(r[j].meal), x);
      assert SectionMeals(r)[j] == r[j].meal;
    }
  }

  /** The colour of an item's name: green by default, lighter green for
      VEGAN, red for NON_VEG, assigned in that order. */
  method CategoryColor(mealCategory: string) returns (colorClass: string)
    ensures mealCategory == "NON_VEG" ==> colorClass == "text-red-600"
    ensures mealCategory == "VEGAN" ==> colorClass == "text-green-400"
    ensures mealCategory != "NON_VEG" && mealCategory != "VEGAN" ==> colorClass == "text-green-700"
  {
    colorClass := "text-green-700";
    if mealCategory == "VEGAN" {
      colorClass := "text-green-400";
    }
    if mealCategory == "NON_VEG" {
      colorClass := "text-red-600";
    }
  }

  /** What a card shows: its date and its sections. */
  datatype Card = Card(menuDate: string, sections: seq<Section>)

  function CardOf(menu: Menu): (c: Card)
    ensures c.menuDate == menu.menuDate
  {
    Card(menu.menuDate, CardSections(Grouping(menu.items)))
  }
}
