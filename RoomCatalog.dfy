/** The room record the REST API returns and the room-number search that
    both room lists apply to their master list `allRooms`. */
module RoomCatalog {
  import opened Common
  import opened Text
  import opened Seqs

  datatype Room = Room(
    id: string,
    roomNumber: string,
    roomType: string,
    ac: bool,
    capacity: int,
    floor: int,
    buildingId: string,
    buildingName: Option<string>,
    description: Option<string>,
    crewType: string,
    roomCategory: string,
    beds: int,
    attachment: string,
    status: string,
    tenantId: Option<string>)

  /** The search test: the lower-cased room number includes the lower-cased
      search text. */
  function MatchesSearch(text: string): Room -> bool
  {
    (r: Room) => Contains(ToLower(r.roomNumber), ToLower(text))
  }

  /** `allRooms.filter(r => r.roomNumber.toLowerCase().includes(text.toLowerCase()))`. */
  function SearchRooms(all: seq<Room>, text: string): (r: seq<Room>)
    ensures |r| <= |all|
  {
    Filter(all, MatchesSearch(text))
  }

  /** The search keeps, in their order, exactly the rooms whose number
      matches case-insensitively, each as often as it occurs in the list. */
  lemma SearchRoomsSelects(all: seq<Room>, text: string)
    ensures IsSubsequence(SearchRooms(all, text), all)
    ensures forall x :: (multiset(SearchRooms(all, text))[x] ==
      if Contains(ToLower(x.roomNumber), ToLower(text)) then multiset(all)[x] else 0)
  {
    FilterIsSubsequence(all, MatchesSearch(text));
    FilterMultiplicity(all, MatchesSearch(text));
  }

  /** Searching for the empty text shows every room. */
  lemma SearchEmptyKeepsAll(all: seq<Room>)
    ensures SearchRooms(all, "") == all
  {
    forall i | 0 <= i < |all| ensures MatchesSearch("")(all[i]) {
      ContainsEmpty(ToLower(all[i].roomNumber));
    }
    FilterKeepsAll(all, MatchesSearch(""));
  }
}
