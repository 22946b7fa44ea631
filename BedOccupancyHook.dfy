/** The data hook of the bed occupancy dashboard
    (features/RunningRoom/Bookings/hooks/useBedOccupancyDashboard.ts): it loads the
    beds of every room and normalises each bed so that a falsy optional
    field becomes absent. */
module BedOccupancyHook {
  import opened Common

  /** A bed as the dashboard reply describes it; every field but the first
      two may be absent. */
  datatype Bed = Bed(
    bedNumber: string,
    occupancyStatus: string,
    crewId: Option<string>,
    crewName: Option<string>,
    crewDesignation: Option<string>,
    crewType: Option<string>,
    mealType: Option<string>,
    vegNonVeg: Option<string>,
    checkInTime: Option<string>,
    restHours: Option<int>,
    wakeUpTime: Option<string>)

  /** The beds of each room, keyed by room number. */
  type RoomOccupancy = map<string, seq<Bed>>

  /** `n || undefined` on a number: 0 becomes absent. */
  function NumberOrAbsent(n: Option<int>): (r: Option<int>)
    ensures r.None? <==> (n.None? || n == Some(0))
    ensures r.Some? ==> r == n
  {
    if n.Some? && n.value != 0 then n else None
  }

  /** The mapping of one bed in the `for...in` loop. */
  function NormalizeBed(b: Bed): (r: Bed)
    ensures r.bedNumber == b.bedNumber && r.occupancyStatus == b.occupancyStatus
  {
    Bed(b.bedNumber, b.occupancyStatus,
        TruthyOrAbsent(b.crewId), TruthyOrAbsent(b.crewName), TruthyOrAbsent(b.crewDesignation),
        TruthyOrAbsent(b.crewType), TruthyOrAbsent(b.mealType), TruthyOrAbsent(b.vegNonVeg),
        TruthyOrAbsent(b.checkInTime), NumberOrAbsent(b.restHours), TruthyOrAbsent(b.wakeUpTime))
  }

  /** No optional field holds a falsy value. */
  predicate IsClean(b: Bed)
  {
    b.crewId != Some("") && b.crewName != Some("") && b.crewDesignation != Some("")
    && b.crewType != Some("") && b.mealType != Some("") && b.vegNonVeg != Some("")
    && b.checkInTime != Some("") && b.restHours != Some(0) && b.wakeUpTime != Some("")
  }

  /** A normalised bed is clean; normalising is the identity exactly on
      clean beds, so normalising twice changes nothing more; a rest-hours
      value of 0 is dropped. */
  lemma NormalizeBedCleans(b: Bed)
    ensures IsClean(NormalizeBed(b))
    ensures NormalizeBed(b) == b <==> IsClean(b)
    ensures NormalizeBed(NormalizeBed(b)) == NormalizeBed(b)
    ensures b.restHours == Some(0) ==> NormalizeBed(b).restHours.None?
  {
  }

  /** Every truthy optional field, and every non-zero rest-hours value, is
      kept as it is. */
  lemma NormalizeBedKeepsTruthy(b: Bed)
    ensures IsTruthy(b.crewId) ==> NormalizeBed(b).crewId == b.crewId
    ensures IsTruthy(b.crewName) ==> NormalizeBed(b).crewName == b.crewName
    ensures IsTruthy(b.crewDesignation) ==> NormalizeBed(b).crewDesignation == b.crewDesignation
    ensures IsTruthy(b.crewType) ==> NormalizeBed(b).crewType == b.crewType
    ensures IsTruthy(b.mealType) ==> NormalizeBed(b).mealType == b.mealType
    ensures IsTruthy(b.vegNonVeg) ==> NormalizeBed(b).vegNonVeg == b.vegNonVeg
    ensures IsTruthy(b.checkInTime) ==> NormalizeBed(b).checkInTime == b.checkInTime
    ensures IsTruthy(b.wakeUpTime) ==> NormalizeBed(b).wakeUpTime == b.wakeUpTime
    ensures b.restHours.Some? && b.restHours.value != 0 ==> NormalizeBed(b).restHours == b.restHours
  {
  }

  /** `roomsFromApi[roomNumber].map(...)`. */
  function NormalizeBeds(beds: seq<Bed>): (r: seq<Bed>)
    ensures |r| == |beds|
    ensures forall i :: 0 <= i < |beds| ==> r[i] == NormalizeBed(beds[i])
  {
    seq(|beds|, i requires 0 <= i < |beds| => NormalizeBed(beds[i]))
  }

  /** The record the loop should build: the same rooms, each with its beds
      normalised. */
  function NormalizedRooms(reply: RoomOccupancy): (r: RoomOccupancy)
    ensures r.Keys == reply.Keys
  {
    map room | room in reply :: NormalizeBeds(reply[room])
  }

  /** The same room numbers; each room's beds in the same number and order,
      with bed number and status copied and every bed clean. */
  lemma NormalizedRoomsShape(reply: RoomOccupancy)
    ensures NormalizedRooms(reply).Keys == reply.Keys
    ensures forall room :: room in reply ==>
      |NormalizedRooms(reply)[room]| == |reply[room]|
      && forall i :: 0 <= i < |reply[room]| ==>
        NormalizedRooms(reply)[room][i].bedNumber == reply[room][i].bedNumber
        && NormalizedRooms(reply)[room][i].occupancyStatus == reply[room][i].occupancyStatus
        && IsClean(NormalizedRooms(reply)[room][i])
  {
    forall room, i | room in reply && 0 <= i < |reply[room]|
      ensures IsClean(NormalizedRooms(reply)[room][i])
    {
      NormalizeBedCleans(reply[room][i]);
    }
  }

  /** `for (const roomNumber in roomsFromApi) rooms[roomNumber] = ...`. */
  method NormalizeRooms(reply: RoomOccupancy) returns (rooms: RoomOccupancy)
    ensures rooms == NormalizedRooms(reply)
  {
    rooms := map[];
    var pending := reply.Keys;
    while pending != {}
      invariant pending <= reply.Keys
      invariant rooms.Keys == reply.Keys - pending
      invariant forall room :: room in rooms ==> rooms[room] == NormalizeBeds(reply[room])
      decreases pending
    {
      var room :| room in pending;
      rooms := rooms[room := NormalizeBeds(reply[room])];
      pending := pending - {room};
    }
  }

  class OccupancyDashboard {
    var data: RoomOccupancy
    var loading: bool
    var error: string

    /** The first render and the mount effect's `fetchOccupancy`, answered by
        `reply`. */
    constructor (reply: ApiOutcome<RoomOccupancy>)
      ensures !loading
      ensures reply.Ok? ==> data == NormalizedRooms(reply.value) && error == ""
      ensures reply.Failed? ==>
        data == map[] && error == ErrorText(reply.message, "Failed to load occupancy")
    {
      data, loading, error := map[], false, "";
      new;
      FetchOccupancy(reply);
    }

    /** `fetchOccupancy`: the error is cleared, then either the normalised
        reply replaces the data or the data is kept and the error set to the
        server's message or "Failed to load occupancy"; loading ends. */
    method FetchOccupancy(reply: ApiOutcome<RoomOccupancy>)
      modifies this
      ensures !loading
      ensures reply.Ok? ==> data == NormalizedRooms(reply.value) && error == ""
      ensures reply.Failed? ==>
        data == old(data) && error == ErrorText(reply.message, "Failed to load occupancy") && error != ""
    {
      loading := true;
      error := "";
      match reply {
        case Ok(roomsFromApi) =>
          var rooms := NormalizeRooms(roomsFromApi);
          data := rooms;
        case Failed(message) =>
          error := ErrorText(message, "Failed to load occupancy");
      }
      loading := false;
    }
  }
}
