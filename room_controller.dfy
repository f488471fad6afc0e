/** The room endpoints (src/controllers/room.controller.ts): joining and leaving a
    room, the creator's state changes and deletion, and leaving a whole tournament.
    Each endpoint is decided from the authenticated user id (`None` when there is none)
    and the room the database returns (`None` when there is none); the result is the
    HTTP status and message of a rejection, or the room as it is written back. */
module RoomController {
  import opened Common
  import opened RoomRecords
  import RoomManagement

  datatype Response = Response(status: int, message: string)

  const NotAuthenticated: Response := Response(401, "User not authenticated")
  const RoomNotFound: Response := Response(404, "Room not found")
  const WrongRoomPassword: Response := Response(401, "Incorrect room password")
  const AlreadyInRoom: Response := Response(400, "User already in room")
  const RoomFull: Response := Response(400, "Room is full")
  const NotAccepting: Response := Response(400, "Room is not accepting new members")
  const NotInRoom: Response := Response(400, "User not in room")
  const NotCreatorState: Response := Response(403, "Only room creator can change room state")
  const NotCreatorDelete: Response := Response(403, "Only room creator can delete room")

  function InvalidTransition(from: RoomState, to: string): Response
  {
    Response(400, "Invalid state transition from " + StateName(from) + " to " + to)
  }

  /** The request counts as authenticated when its user id passes `if (!userId)`:
      the id is present and, being a JavaScript number, not 0. */
  predicate SignedIn(userId: Option<int>)
  {
    userId.Some? && userId.value != 0
  }

  // ---------------------------------------------------------------------------
  // Joining

  /** Everything `joinRoom` checks of an existing room for a signed-in user. */
  ghost predicate CanJoin(room: Room, userId: int, password: string)
  {
    room.password == password && userId !in room.members &&
    |room.members| < room.maxMembers && room.state == Waiting
  }

  datatype JoinResult = JoinRejected(why: Response) | Joined(room: Room)

  /** `joinRoom`: the user is appended to the members when every check passes; the
      first check that fails, in the source's order, gives the response. */
  function JoinRoom(userId: Option<int>, found: Option<Room>, password: string): (r: JoinResult)
    ensures r.Joined? <==> SignedIn(userId) && found.Some? && CanJoin(found.value, userId.value, password)
    ensures r.Joined? ==> r.room == found.value.(members := found.value.members + [userId.value])
    ensures !SignedIn(userId) ==> r == JoinRejected(NotAuthenticated)
    ensures SignedIn(userId) && found.None? ==> r == JoinRejected(RoomNotFound)
    ensures SignedIn(userId) && found.Some? && found.value.password != password ==>
      r == JoinRejected(WrongRoomPassword)
    ensures (SignedIn(userId) && found.Some? && found.value.password == password &&
             userId.value in found.value.members) ==>
      r == JoinRejected(AlreadyInRoom)
    ensures (SignedIn(userId) && found.Some? && found.value.password == password &&
             userId.value !in found.value.members && |found.value.members| >= found.value.maxMembers) ==>
      r == JoinRejected(RoomFull)
    ensures (SignedIn(userId) && found.Some? && found.value.password == password &&
             userId.value !in found.value.members && |found.value.members| < found.value.maxMembers &&
             found.value.state != Waiting) ==>
      r == JoinRejected(NotAccepting)
  {
    if !SignedIn(userId) then JoinRejected(NotAuthenticated)
    else if found.None? then JoinRejected(RoomNotFound)
    else
      var room := found.value;
      var u := userId.value;
      if room.password != password then JoinRejected(WrongRoomPassword)
      else if u in room.members then JoinRejected(AlreadyInRoom)
      else if |room.members| >= room.maxMembers then JoinRejected(RoomFull)
      else if room.state != Waiting then JoinRejected(NotAccepting)
      else Joined(room.(members := room.members + [u]))
  }

  /** A join keeps a room well formed: the user appears once, and the room is at
      most full. */
  lemma JoinKeepsWellFormed(u: int, room: Room, password: string)
    requires WellFormed(room) && JoinRoom(Some(u), Some(room), password).Joined?
    ensures var after := JoinRoom(Some(u), Some(room), password).room;
      WellFormed(after) && multiset(after.members)[u] == 1
  {
    var after := JoinRoom(Some(u), Some(room), password).room;
    assert after.members == room.members + [u];
    assert multiset(room.members)[u] == 0;
  }

  /** Joining the same room again is refused as a repeat. */
  lemma JoinTwiceRejected(u: int, room: Room, password: string)
    requires JoinRoom(Some(u), Some(room), password).Joined?
    ensures JoinRoom(Some(u), Some(JoinRoom(Some(u), Some(room), password).room), password)
      == JoinRejected(AlreadyInRoom)
  {
    var after := JoinRoom(Some(u), Some(room), password).room;
    assert u in after.members by {
      assert after.members[|after.members| - 1] == u;
    }
  }

  // ---------------------------------------------------------------------------
  // Leaving

  /** `members.filter(id => id !== u)`. */
  function Without(s: seq<int>, u: int): (r: seq<int>)
    ensures forall y :: y in r <==> y in s && y != u
    ensures |r| <= |s|
  {
    if s == [] then []
    else Without(s[..|s| - 1], u) + (if s[|s| - 1] == u then [] else [s[|s| - 1]])
  }

  /** The filter keeps the others in their order: it distributes over concatenation,
      and a user who is not there changes nothing. */
  lemma {:induction false} WithoutAppend(a: seq<int>, b: seq<int>, u: int)
    ensures Without(a + b, u) == Without(a, u) + Without(b, u)
  {
    if b == [] {
      assert a + b == a;
    } else {
      assert (a + b)[..|a + b| - 1] == a + b[..|b| - 1];
      WithoutAppend(a, b[..|b| - 1], u);
    }
  }

  lemma {:induction false} WithoutAbsent(s: seq<int>, u: int)
    requires u !in s
    ensures Without(s, u) == s
  {
    if s != [] {
      WithoutAbsent(s[..|s| - 1], u);
      assert s[..|s| - 1] + [s[|s| - 1]] == s;
    }
  }

  /** Filtering keeps a list free of repeats. */
  lemma {:induction false} WithoutNoRepeats(s: seq<int>, u: int)
    requires NoRepeats(s)
    ensures NoRepeats(Without(s, u))
  {
    if s != [] {
      var front := s[..|s| - 1];
      assert NoRepeats(front);
      WithoutNoRepeats(front, u);
      assert s[|s| - 1] !in front;
    }
  }

  /** One room after `u` leaves it, as `leaveRoom` and `leaveTournament` both
      compute it: gone when nobody is left; otherwise the others in their order, and
      the first of them as creator when `u` created the room. */
  function Departure(room: Room, u: int): (r: Option<Room>)
    ensures r.None? <==> Without(room.members, u) == []
    ensures r.Some? ==> r.value.members == Without(room.members, u) && u !in r.value.members
    ensures r.Some? && room.createdBy == u ==> r.value.createdBy == r.value.members[0]
    ensures r.Some? && room.createdBy != u ==> r.value.createdBy == room.createdBy
    ensures r.Some? ==> r.value.createdBy != u
    ensures r.Some? ==> r.value.(members := room.members, createdBy := room.createdBy) == room
  {
    var updated := Without(room.members, u);
    if updated == [] then None
    else
      var newCreator := if room.createdBy == u then updated[0] else room.createdBy;
      Some(room.(members := updated, createdBy := newCreator))
  }

  /** Leaving keeps a room well formed, and a creator who was a member stays one. */
  lemma DepartureKeepsWellFormed(room: Room, u: int)
    requires WellFormed(room) && Departure(room, u).Some?
    ensures WellFormed(Departure(room, u).value)
    ensures room.createdBy in room.members ==> Departure(room, u).value.createdBy in Departure(room, u).value.members
  {
    WithoutNoRepeats(room.members, u);
  }

  datatype LeaveResult = LeaveRejected(why: Response) | RoomDeleted | Left(room: Room)

  /** `leaveRoom`: a member leaves, deleting the room if it was the last. */
  function LeaveRoom(userId: Option<int>, found: Option<Room>): (r: LeaveResult)
    ensures !SignedIn(userId) ==> r == LeaveRejected(NotAuthenticated)
    ensures SignedIn(userId) && found.None? ==> r == LeaveRejected(RoomNotFound)
    ensures SignedIn(userId) && found.Some? ==>
      (r == LeaveRejected(NotInRoom) <==> userId.value !in found.value.members)
    ensures r.RoomDeleted? <==>
      (SignedIn(userId) && found.Some? && userId.value in found.value.members &&
       Departure(found.value, userId.value).None?)
    ensures r.Left? ==> Some(r.room) == Departure(found.value, userId.value)
  {
    if !SignedIn(userId) then LeaveRejected(NotAuthenticated)
    else if found.None? then LeaveRejected(RoomNotFound)
    else if userId.value !in found.value.members then LeaveRejected(NotInRoom)
    else match Departure(found.value, userId.value)
      case None => RoomDeleted
      case Some(room) => Left(room)
  }

  /** Joining and then leaving restores the members, and the creator unless the user
      was recorded as creator of a room whose others are all gone. */
  lemma LeaveAfterJoin(u: int, room: Room, password: string)
    requires JoinRoom(Some(u), Some(room), password).Joined? && room.createdBy != u
    ensures room.members == [] ==> LeaveRoom(Some(u), Some(JoinRoom(Some(u), Some(room), password).room)) == RoomDeleted
    ensures room.members != [] ==> LeaveRoom(Some(u), Some(JoinRoom(Some(u), Some(room), password).room)) == Left(room)
  {
    var joined := JoinRoom(Some(u), Some(room), password).room;
    assert joined.members == room.members + [u];
    assert u in joined.members by {
      assert joined.members[|room.members|] == u;
    }
    WithoutAppend(room.members, [u], u);
    assert Without([u], u) == [] by {
      assert [u][..0] == [];
    }
    WithoutAbsent(room.members, u);
  }

  // ---------------------------------------------------------------------------
  // State changes by the creator

  /** The `validTransitions` table. */
  function AllowedNext(from: RoomState): (r: seq<string>)
    ensures StateName(from) !in r
    ensures "waiting" !in r
  {
    match from
    case Waiting => ["playing", "cancelled"]
    case Playing => ["completed", "cancelled"]
    case Completed => []
    case Cancelled => []
  }

  datatype StateResult = StateRejected(why: Response) | StateChanged(room: Room)

  /** `updateRoomState`: only the creator, and only along the table. */
  function UpdateRoomState(userId: Option<int>, found: Option<Room>, requested: string): (r: StateResult)
    ensures r.StateChanged? <==>
      (SignedIn(userId) && found.Some? && found.value.createdBy == userId.value &&
       requested in AllowedNext(found.value.state))
    ensures r.StateChanged? ==> StateName(r.room.state) == requested && r.room == found.value.(state := r.room.state)
    ensures SignedIn(userId) && found.Some? && found.value.createdBy != userId.value ==>
      r == StateRejected(NotCreatorState)
    ensures (SignedIn(userId) && found.Some? && found.value.createdBy == userId.value &&
             requested !in AllowedNext(found.value.state)) ==>
      r == StateRejected(InvalidTransition(found.value.state, requested))
  {
    if !SignedIn(userId) then StateRejected(NotAuthenticated)
    else if found.None? then StateRejected(RoomNotFound)
    else
      var room := found.value;
      if room.createdBy != userId.value then StateRejected(NotCreatorState)
      else if requested !in AllowedNext(room.state) then StateRejected(InvalidTransition(room.state, requested))
      else match ParseState(requested)
        case Some(s) => StateChanged(room.(state := s))
        case None => StateRejected(InvalidTransition(room.state, requested))
  }

  /** completed and cancelled are final, no state goes to itself, and no room goes
      back to waiting. */
  lemma TransitionsOnlyMoveForward(userId: Option<int>, room: Room, requested: string)
    requires UpdateRoomState(userId, Some(room), requested).StateChanged?
    ensures var after := UpdateRoomState(userId, Some(room), requested).room.state;
      room.state in {Waiting, Playing} && after != room.state && after != Waiting
  {
  }

  /** The lobby service's own state changes (start a full room, disband a thin one)
      are transitions the table allows. */
  lemma AutomaticUpdatesAreAllowed(room: Room)
    requires RoomManagement.UpdateRoomState(room).state != room.state
    ensures StateName(RoomManagement.UpdateRoomState(room).state) in AllowedNext(room.state)
  {
  }

  // ---------------------------------------------------------------------------
  // Deleting

  datatype DeleteResult = DeleteRejected(why: Response) | Deleted

  /** `deleteRoom`: only the creator may delete. */
  function DeleteRoom(userId: Option<int>, found: Option<Room>): (r: DeleteResult)
    ensures r == Deleted <==> SignedIn(userId) && found.Some? && found.value.createdBy == userId.value
    ensures SignedIn(userId) && found.Some? && found.value.createdBy != userId.value ==>
      r == DeleteRejected(NotCreatorDelete)
  {
    if !SignedIn(userId) then DeleteRejected(NotAuthenticated)
    else if found.None? then DeleteRejected(RoomNotFound)
    else if found.value.createdBy != userId.value then DeleteRejected(NotCreatorDelete)
    else Deleted
  }

  // ---------------------------------------------------------------------------
  // Leaving a tournament

  /** Each room of the tournament that held the user, after the loop: `None` for a
      room deleted because it became empty. */
  datatype TournamentExit = ExitRejected(why: Response) | Exited(after: seq<Option<Room>>)

  /** `leaveTournament`: the departure rule applied to every room the query found. */
  method LeaveTournament(userId: Option<int>, rooms: seq<Room>) returns (r: TournamentExit)
    ensures r.ExitRejected? <==> !SignedIn(userId)
    ensures r.ExitRejected? ==> r.why == NotAuthenticated
    ensures r.Exited? ==>
      |r.after| == |rooms| &&
      forall i :: 0 <= i < |rooms| ==> r.after[i] == Departure(rooms[i], userId.value)
    ensures r.Exited? ==> forall i :: 0 <= i < |rooms| && r.after[i].Some? ==>
      userId.value !in r.after[i].value.members && r.after[i].value.createdBy != userId.value
  {
    if !SignedIn(userId) {
      return ExitRejected(NotAuthenticated);
    }
    var u := userId.value;
    var after: seq<Option<Room>> := [];
    for i := 0 to |rooms|
      invariant |after| == i
      invariant forall k :: 0 <= k < i ==> after[k] == Departure(rooms[k], u)
    {
      var room := rooms[i];
      var updatedMembers := Without(room.members, u);
      if updatedMembers == [] {
        after := after + [None];
      } else {
        var newCreator := room.createdBy;
        if room.createdBy == u {
          newCreator := updatedMembers[0];
        }
        after := after + [Some(room.(members := updatedMembers, createdBy := newCreator))];
      }
    }
    return Exited(after);
  }
}
