/** The second week grid (features/RunningRoom/Kitchen/WeeklyMenuTable.tsx): the same
    copy-and-sort and colour cycling as the first grid, over a palette of
    the same seven colours in another order. */
module WeeklyMenuTable {
  import opened Menus
  import opened DailyMenuCard
  import opened WeeklyMenu

  /** `CARD_COLORS` of this grid. */
  const TableColors: seq<string> :=
    ["bg-teal-50", "bg-blue-50", "bg-green-50", "bg-pink-50", "bg-yellow-50", "bg-orange-50", "bg-purple-50"]

  /** The cards of this grid. */
  function TableCards(menus: seq<Menu>): (r: seq<ColouredCard>)
    ensures |r| == |menus|
  {
    ColourCards(SortedMenus(menus), TableColors)
  }

  /** One card per menu, in date order, card i coloured `TableColors[i % 7]`;
      the two grids show the same cards and differ only in colour. */
  lemma TableCardsFollowSortedMenus(menus: seq<Menu>)
    ensures forall i :: 0 <= i < |menus| ==>
      TableCards(menus)[i].card == CardOf(SortedMenus(menus)[i])
      && TableCards(menus)[i].colour == TableColors[i % 7]
      && TableCards(menus)[i].card == Cards(menus)[i].card
  {
    CardsFollowSortedMenus(menus);
    var r := TableCards(menus);
    forall i | 0 <= i < |menus| ensures r[i].colour == TableColors[i % 7] {
      assert |TableColors| == 7;
    }
  }
}
