/** A tournament room as stored in the database (src/models/room.model.ts): the
    members are user ids in joining order, and the state is one of four. The room
    service and the room controller both work on these records as values. */
module RoomRecords {
  import opened Common

  datatype RoomState = Waiting | Playing | Completed | Cancelled

  /** The state's name as it is stored and as clients send it. */
  function StateName(s: RoomState): string
  {
    match s
    case Waiting => "waiting"
    case Playing => "playing"
    case Completed => "completed"
    case Cancelled => "cancelled"
  }

  /** The state a client's string names, if any. */
  function ParseState(name: string): (r: Option<RoomState>)
    ensures r.Some? ==> StateName(r.value) == name
    ensures (exists s :: StateName(s) == name) ==> r.Some?
  {
    if name == "waiting" then Some(Waiting)
    else if name == "playing" then Some(Playing)
    else if name == "completed" then Some(Completed)
    else if name == "cancelled" then Some(Cancelled)
    else None
  }

  datatype Room = Room(
    id: int,
    tournamentId: int,
    members: seq<int>,
    password: string,
    state: RoomState,
    createdBy: int,
    maxMembers: int,
    minMembers: int)

  /** No user twice in the room, and no more members than the room allows. */
  ghost predicate WellFormed(r: Room)
  {
    NoRepeats(r.members) && |r.members| <= r.maxMembers
  }
}
