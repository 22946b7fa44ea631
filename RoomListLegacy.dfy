/** The untyped room list screen (components/RunningRoom/Room/RoomList.js):
    it fetches the rooms once, projects them onto the grid's rows and filters
    them by room number, with a button that resets the search. */
module RoomListLegacy {
  import opened Common
  import opened RoomCatalog

  /** The body of the `/rooms` reply, which the screen does not trust to be
      an array. */
  datatype RoomsPayload = RoomArray(rooms: seq<Room>) | NotAnArray

  /** `Array.isArray(data) ? data : []`. */
  function RoomsOf(payload: RoomsPayload): (r: seq<Room>)
    ensures payload.NotAnArray? ==> r == []
    ensures payload.RoomArray? ==> r == payload.rooms
  {
    if payload.RoomArray? then payload.rooms else []
  }

  /** One row of the data grid. */
  datatype Row = Row(
    id: string,
    roomNumber: string,
    roomType: string,
    capacity: int,
    status: string,
    tenantId: Option<string>)

  function RowOf(room: Room): Row
  {
    Row(room.id, room.roomNumber, room.roomType, room.capacity, room.status, room.tenantId)
  }

  /** `rooms.map(room => ({ id, roomNumber, roomType, capacity, status, tenantId }))`. */
  function Rows(rooms: seq<Room>): (r: seq<Row>)
    ensures |r| == |rooms|
  {
    seq(|rooms|, i requires 0 <= i < |rooms| => RowOf(rooms[i]))
  }

  /** Two room lists give the same rows exactly when they have the same
      length and agree, room by room, on the six displayed fields. */
  lemma RowsCarryExactlyDisplayedFields(a: seq<Room>, b: seq<Room>)
    ensures Rows(a) == Rows(b) <==>
      |a| == |b| && forall i :: 0 <= i < |a| ==>
        a[i].id == b[i].id && a[i].roomNumber == b[i].roomNumber && a[i].roomType == b[i].roomType
        && a[i].capacity == b[i].capacity && a[i].status == b[i].status && a[i].tenantId == b[i].tenantId
  {
    if Rows(a) == Rows(b) {
      forall i | 0 <= i < |a| ensures RowOf(a[i]) == RowOf(b[i]) {
        assert Rows(a)[i] == Rows(b)[i];
      }
    }
  }

  class RoomListLegacyPage {
    var allRooms: seq<Room>
    var rooms: seq<Room>
    var searchText: string
    var loading: bool
    var error: Option<string>

    constructor ()
      ensures allRooms == [] && rooms == [] && searchText == "" && !loading && error == None
    {
      allRooms, rooms, searchText := [], [], "";
      loading, error := false, None;
    }

    /** The mount effect: both lists become the reply's rooms, or the error
        is recorded; loading ends either way. */
    method FetchRooms(reply: ApiOutcome<RoomsPayload>)
      modifies this
      ensures !loading && searchText == old(searchText)
      ensures reply.Ok? ==> rooms == allRooms == RoomsOf(reply.value) && error == old(error)
      ensures reply.Failed? ==>
        (rooms == old(rooms) && allRooms == old(allRooms)
         && error == Some(ErrorText(reply.message, "Failed to fetch rooms")))
    {
      loading := true;
      match reply {
        case Ok(payload) =>
          var roomsData := RoomsOf(payload);
          rooms := roomsData;
          allRooms := roomsData;
        case Failed(message) =>
          error := Some(ErrorText(message, "Failed to fetch rooms"));
      }
      loading := false;
    }

    /** The search box's `onChange`. */
    method SearchInput(value: string)
      modifies this
      ensures searchText == value && rooms == SearchRooms(allRooms, value)
      ensures allRooms == old(allRooms) && loading == old(loading) && error == old(error)
    {
      searchText := value;
      rooms := SearchRooms(allRooms, value);
    }

    /** The reset button: clears the search and restores the master list. */
    method Reset()
      modifies this
      ensures searchText == "" && rooms == allRooms
      ensures allRooms == old(allRooms) && loading == old(loading) && error == old(error)
    {
      searchText := "";
      rooms := allRooms;
    }

    /** The grid's `rows`. */
    function DisplayedRows(): (r: seq<Row>)
      reads this
      ensures |r| == |rooms|
    {
      Rows(rooms)
    }
  }
}
