/** The untyped create-room form (components/RunningRoom/Room/CreateRoom.js): a
    name and a capacity, a submit that refuses a blank name or an empty
    capacity, posts the room, and on success clears the form and hands the
    new room to the caller's `onRoomCreated`. */
module CreateRoom {
  import opened Common
  import opened Text
  import opened RoomCatalog

  /** The body posted to `/api/rooms`: `{ name, capacity: Number(capacity) }`;
      the capacity is kept as the text that `Number` converts. */
  datatype NewRoomRequest = NewRoomRequest(name: string, capacityText: string)

  /** How the POST ends: a created room, a reply that is not `ok`, or a
      rejected promise (a network failure or an unreadable body) with its
      error's `message`. */
  datatype CreateReply = Created(room: Room) | NotOk | Rejected(message: string)

  class CreateRoomForm {
    var roomName: string
    var capacity: string
    var loading: bool
    var error: Option<string>

    constructor ()
      ensures roomName == "" && capacity == "" && !loading && error == None
    {
      roomName, capacity, loading, error := "", "", false, None;
    }

    /** `handleSubmit`. `sent` is the request made, if any; `notified` is the
        room passed to `onRoomCreated`, which is only called when the caller
        gave one. */
    method HandleSubmit(reply: CreateReply, hasCallback: bool) returns (sent: Option<NewRoomRequest>, notified: Option<Room>)
      modifies this
      ensures sent.None? <==> IsBlank(old(roomName)) || old(capacity) == ""
      ensures sent.None? ==>
        error == Some("Please fill in all fields.") && notified == None
        && roomName == old(roomName) && capacity == old(capacity) && loading == old(loading)
      ensures sent.Some? ==> sent.value == NewRoomRequest(old(roomName), old(capacity)) && !loading
      ensures sent.Some? && reply.Created? ==>
        roomName == "" && capacity == "" && error == None
        && notified == (if hasCallback then Some(reply.room) else None)
      ensures sent.Some? && reply.NotOk? ==>
        error == Some("Failed to create room") && notified == None
        && roomName == old(roomName) && capacity == old(capacity)
      ensures sent.Some? && reply.Rejected? ==>
        error == Some(reply.message) && notified == None
        && roomName == old(roomName) && capacity == old(capacity)
    {
      error := None;
      notified := None;
      if IsBlank(roomName) || capacity == "" {
        error := Some("Please fill in all fields.");
        return None, None;
      }
      loading := true;
      sent := Some(NewRoomRequest(roomName, capacity));
      match reply {
        case Created(room) =>
          roomName := "";
          capacity := "";
          if hasCallback {
            notified := Some(room);
          }
        case NotOk =>
          error := Some("Failed to create room");
        case Rejected(message) =>
          error := Some(message);
      }
      loading := false;
    }
  }
}
