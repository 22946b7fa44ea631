/** The week as a grid of day cards (features/RunningRoom/Kitchen/WeeklyMenu.tsx):
    a copy of the menus is sorted by date and each menu becomes a
    `DailyMenuCard` whose background cycles through a palette of seven. */
module WeeklyMenu {
  import opened Text
  import opened Seqs
  import opened Menus
  import opened DailyMenuCard

  /** `CARD_COLORS` of this grid. */
  const CardColors: seq<string> :=
    ["bg-blue-50", "bg-green-50", "bg-yellow-50", "bg-pink-50", "bg-purple-50", "bg-orange-50", "bg-teal-50"]

  function MenuDateKey(m: Menu): string
  {
    m.menuDate
  }

  /** `[...menus].sort((a, b) => a before b ? -1 : 1)`: the same menus, by
      date. On normalised `YYYY-MM-DD` text, "before" is the string order. */
  function SortedMenus(menus: seq<Menu>): (r: seq<Menu>)
    ensures multiset(r) == multiset(menus)
    ensures |r| == |menus|
    ensures forall i, j :: 0 <= i < j < |r| ==> !Less(r[j].menuDate, r[i].menuDate)
  {
    var r := SortBy(menus, MenuDateKey);
    assert |multiset(r)| == |multiset(menus)|;
    r
  }

  /** A day card on the grid and the palette entry that colours it. */
  datatype ColouredCard = ColouredCard(card: Card, colour: string)

  /** `sortedMenus.map((menu, idx) => <DailyMenuCard ... CARD_COLORS[idx % CARD_COLORS.length]>)`. */
  function ColourCards(sorted: seq<Menu>, palette: seq<string>): (r: seq<ColouredCard>)
    requires |palette| > 0
    ensures |r| == |sorted|
  {
    seq(|sorted|, i requires 0 <= i < |sorted| => ColouredCard(CardOf(sorted[i]), palette[i % |palette|]))
  }

  /** The cards of this grid. */
  function Cards(menus: seq<Menu>): (r: seq<ColouredCard>)
    ensures |r| == |menus|
  {
    ColourCards(SortedMenus(menus), CardColors)
  }

  /** Exactly one card per menu, in date order; card i has palette entry
      i mod 7, which is always in range. */
  lemma CardsFollowSortedMenus(menus: seq<Menu>)
    ensures |Cards(menus)| == |menus|
    ensures forall i :: 0 <= i < |menus| ==>
      Cards(menus)[i].card == CardOf(SortedMenus(menus)[i]) && Cards(menus)[i].colour == CardColors[i % 7]
  {
    var r := Cards(menus);
    assert r == ColourCards(SortedMenus(menus), CardColors);
    forall i | 0 <= i < |menus| ensures r[i].colour == CardColors[i % 7] {
      assert |CardColors| == 7;
    }
  }

  /** The colours repeat every seven cards, and no two of seven consecutive
      cards share one. */
  lemma {:induction false} CardColoursCycle(menus: seq<Menu>)
    ensures forall i :: 0 <= i && i + 7 < |menus| ==> Cards(menus)[i].colour == Cards(menus)[i + 7].colour
    ensures forall i, j :: 0 <= i < j < |menus| && j < i + 7 ==> Cards(menus)[i].colour != Cards(menus)[j].colour
  {
    CardsFollowSortedMenus(menus);
    var r := Cards(menus);
    forall i | 0 <= i && i + 7 < |menus| ensures r[i].colour == r[i + 7].colour {
      assert (i + 7) % 7 == i % 7;
    }
    forall i, j | 0 <= i < j < |menus| && j < i + 7 ensures r[i].colour != r[j].colour {
      ModuloDiffers(i, j);
      PaletteDistinct(i % 7, j % 7);
    }
  }

  lemma ModuloDiffers(i: int, j: int)
    requires 0 <= i < j < i + 7
    ensures i % 7 != j % 7
  {
    var a, b := i / 7, j / 7;
    assert i == 7 * a + i % 7;
    assert j == 7 * b + j % 7;
    assert j - i == 7 * (b - a) + (j % 7 - i % 7);
  }

  lemma PaletteDistinct(p: int, q: int)
    requires 0 <= p < 7 && 0 <= q < 7 && p != q
    ensures CardColors[p] != CardColors[q]
  {
  }
}
