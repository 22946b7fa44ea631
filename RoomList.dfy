/** The typed room list screen (features/RunningRoom/Room/RoomList.tsx): it
    loads the buildings once, then the rooms, joins every room to its
    building's name, and filters the list by room number as the user types. */
module RoomList {
  import opened Common
  import opened RoomCatalog

  datatype Building = Building(id: string, buildingName: string)

  /** `buildings.find(b => b.id === id)`, as the index of the first match. */
  function FindBuilding(buildings: seq<Building>, id: string): (r: Option<nat>)
    ensures r.Some? ==> r.value < |buildings| && buildings[r.value].id == id
    ensures r.Some? ==> forall k :: 0 <= k < r.value ==> buildings[k].id != id
    ensures r.None? ==> forall k :: 0 <= k < |buildings| ==> buildings[k].id != id
  {
    if buildings == [] then None
    else if buildings[0].id == id then Some(0)
    else match FindBuilding(buildings[1..], id)
      case None => None
      case Some(k) => Some(k + 1)
  }

  /** `building?.buildingName || "-"`. */
  function BuildingNameOf(buildings: seq<Building>, id: string): string
  {
    match FindBuilding(buildings, id)
    case None => "-"
    case Some(k) => if buildings[k].buildingName != "" then buildings[k].buildingName else "-"
  }

  /** `res.data.map(r => ({ ...r, buildingName: building?.buildingName || "-" }))`. */
  function WithBuildingNames(rooms: seq<Room>, buildings: seq<Building>): (r: seq<Room>)
    ensures |r| == |rooms|
  {
    seq(|rooms|, i requires 0 <= i < |rooms| =>
      rooms[i].(buildingName := Some(BuildingNameOf(buildings, rooms[i].buildingId))))
  }

  /** Room i keeps its position and every field but `buildingName`, which is
      the name of the first building with the room's `buildingId`, or "-"
      when there is no such building or its name is empty. */
  lemma WithBuildingNamesJoin(rooms: seq<Room>, buildings: seq<Building>, i: int)
    requires 0 <= i < |rooms|
    ensures WithBuildingNames(rooms, buildings)[i].(buildingName := rooms[i].buildingName) == rooms[i]
    ensures (forall k :: 0 <= k < |buildings| ==> buildings[k].id != rooms[i].buildingId) ==>
      WithBuildingNames(rooms, buildings)[i].buildingName == Some("-")
    ensures forall k ::
      (0 <= k < |buildings| && buildings[k].id == rooms[i].buildingId
       && (forall j :: 0 <= j < k ==> buildings[j].id != rooms[i].buildingId)) ==>
      WithBuildingNames(rooms, buildings)[i].buildingName
        == Some(if buildings[k].buildingName != "" then buildings[k].buildingName else "-")
  {
    var r := WithBuildingNames(rooms, buildings)[i];
    forall k | (0 <= k < |buildings| && buildings[k].id == rooms[i].buildingId
               && (forall j :: 0 <= j < k ==> buildings[j].id != rooms[i].buildingId))
      ensures r.buildingName == Some(if buildings[k].buildingName != "" then buildings[k].buildingName else "-")
    {
      var found := FindBuilding(buildings, rooms[i].buildingId);
      assert found.Some?;
      assert found.value == k;
    }
  }

  class RoomListPage {
    var allRooms: seq<Room>
    var rooms: seq<Room>
    var buildings: seq<Building>
    var searchText: string
    var loading: bool
    var error: Option<string>

    constructor ()
      ensures allRooms == [] && rooms == [] && buildings == []
      ensures searchText == "" && !loading && error == None
    {
      allRooms, rooms, buildings := [], [], [];
      searchText, loading, error := "", false, None;
    }

    /** The mount effect loading `/buildings`; a failure is only logged. */
    method LoadBuildings(reply: ApiOutcome<seq<Building>>)
      modifies this
      ensures buildings == if reply.Ok? then reply.value else old(buildings)
      ensures allRooms == old(allRooms) && rooms == old(rooms) && searchText == old(searchText)
      ensures loading == old(loading) && error == old(error)
    {
      if reply.Ok? {
        buildings := reply.value;
      }
    }

    /** The effect run whenever `buildings` changes: no request while the
        building list is empty; otherwise the rooms are fetched and joined to
        their buildings, or the error is recorded, and loading ends. */
    method FetchRooms(reply: ApiOutcome<seq<Room>>) returns (requested: bool)
      modifies this
      ensures requested <==> old(buildings) != []
      ensures buildings == old(buildings) && searchText == old(searchText)
      ensures !requested ==>
        (allRooms == old(allRooms) && rooms == old(rooms) && loading == old(loading) && error == old(error))
      ensures requested ==> !loading
      ensures requested && reply.Ok? ==>
        (rooms == allRooms == WithBuildingNames(reply.value, buildings) && error == old(error))
      ensures requested && reply.Failed? ==>
        (rooms == old(rooms) && allRooms == old(allRooms)
         && error == Some(ErrorText(reply.message, "Failed to fetch rooms")))
    {
      if buildings == [] {
        return false;
      }
      requested := true;
      loading := true;
      match reply {
        case Ok(data) =>
          var roomData := WithBuildingNames(data, buildings);
          rooms := roomData;
          allRooms := roomData;
        case Failed(message) =>
          error := Some(ErrorText(message, "Failed to fetch rooms"));
      }
      loading := false;
    }

    /** `handleSearch(text)`: shows the rooms of the master list that match. */
    method HandleSearch(text: string)
      modifies this
      ensures searchText == text && rooms == SearchRooms(allRooms, text)
      ensures allRooms == old(allRooms) && buildings == old(buildings)
      ensures loading == old(loading) && error == old(error)
    {
      searchText := text;
      rooms := SearchRooms(allRooms, text);
    }

    /** The refresh button, `handleSearch("")`: the whole master list again. */
    method Refresh()
      modifies this
      ensures searchText == "" && rooms == allRooms
      ensures allRooms == old(allRooms) && buildings == old(buildings)
      ensures loading == old(loading) && error == old(error)
    {
      HandleSearch("");
      SearchEmptyKeepsAll(allRooms);
    }
  }
}
