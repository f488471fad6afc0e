/** The tournament lobby service (src/services/room-management.service.ts): how many
    rooms the players waiting in the lobby need, how many are created, how waiting
    players are spread over the open rooms, and when a room starts or is disbanded.
    The database is not modelled: rooms are values, and the member lists the service
    writes back are the map its distribution loop builds. */
module RoomManagement {
  import opened Common
  import opened RoomRecords

  /** The service's defaults: the table size, the minimum to start and the cap on
      the rooms of one tournament. */
  const PlayersPerRoom: nat := 8
  const MinPlayersToStart: nat := 2
  const MaxRoomsPerTournament: nat := 50

  /** Rooms the service creates are owned by the system user. */
  const SystemUser: int := 1

  /** A playing room with fewer members than this is disbanded. */
  const DisbandBelow: nat := 4

  const PasswordLength: nat := 8
  const PasswordChars: string := "ABCDEFGHIJKLMNOPQRSTUVWXYZabcdefghijklmnopqrstuvwxyz0123456789"

  // ---------------------------------------------------------------------------
  // How many rooms

  /** The rooms `total` lobby players need: the fewest rooms r such that at most four
      players are left over once r tables of eight are filled. A remainder of four is
      handled like a remainder below four. */
  function RoomsNeeded(total: nat): (r: nat)
    ensures total <= PlayersPerRoom * r + 4
    ensures r == 0 || PlayersPerRoom * (r - 1) + 4 < total
    ensures total / PlayersPerRoom <= r <= total / PlayersPerRoom + 1
    ensures total <= 4 ==> r == 0
  {
    if total == 0 then 0
    else
      var remainder := total % PlayersPerRoom;
      if remainder > 4 then total / PlayersPerRoom + 1
      else if remainder < 4 then total / PlayersPerRoom
      else total / PlayersPerRoom
  }

  /** More players never need fewer rooms. */
  lemma RoomsNeededMonotone(a: nat, b: nat)
    requires a <= b
    ensures RoomsNeeded(a) <= RoomsNeeded(b)
  {
  }

  /** The rooms created on top of the `open` ones: the shortfall, when there is one
      and the need stays within the tournament's cap; none otherwise. */
  function RoomsToCreate(needed: nat, open: nat): (r: nat)
    ensures r != 0 <==> open < needed <= MaxRoomsPerTournament
    ensures r != 0 ==> open + r == needed
  {
    if needed > open && needed <= MaxRoomsPerTournament then needed - open else 0
  }

  /** What one pass of the registration monitor decides. */
  datatype MonitorStep = StillInLateRegistration | Proceed(create: nat)

  /** One pass of the monitor, from the clock, the tournament's start (ms), its late
      registration period (minutes), whether it is running, the players in the lobby
      and the open (waiting or playing) rooms. */
  function MonitorPlan(now: int, startsAt: int, lateRegMin: int, running: bool,
                       inLobby: nat, open: nat): (p: MonitorStep)
    ensures p.StillInLateRegistration? <==> now < startsAt + lateRegMin * 60 * 1000 && !running
    ensures p.Proceed? ==> p.create == RoomsToCreate(RoomsNeeded(inLobby), open)
  {
    if now < startsAt + lateRegMin * 60 * 1000 && !running then StillInLateRegistration
    else Proceed(RoomsToCreate(RoomsNeeded(inLobby), open))
  }

  /** After a pass has created its rooms, a second pass with the same lobby creates
      none, and the open rooms then cover the need whenever it is within the cap. */
  lemma {:induction false} MonitorSettles(now: int, startsAt: int, lateRegMin: int, running: bool,
                                          inLobby: nat, open: nat)
    requires MonitorPlan(now, startsAt, lateRegMin, running, inLobby, open).Proceed?
    ensures var c := MonitorPlan(now, startsAt, lateRegMin, running, inLobby, open).create;
      MonitorPlan(now, startsAt, lateRegMin, running, inLobby, open + c) == Proceed(0) &&
      (RoomsNeeded(inLobby) <= MaxRoomsPerTournament ==> RoomsNeeded(inLobby) <= open + c)
  {
    var c := MonitorPlan(now, startsAt, lateRegMin, running, inLobby, open).create;
    assert c == RoomsToCreate(RoomsNeeded(inLobby), open);
    assert MonitorPlan(now, startsAt, lateRegMin, running, inLobby, open + c).create
      == RoomsToCreate(RoomsNeeded(inLobby), open + c);
  }

  // ---------------------------------------------------------------------------
  // Creating rooms

  /** A password of eight characters from the 62 letters and digits. */
  ghost predicate PasswordShape(p: string)
  {
    |p| == PasswordLength && forall i :: 0 <= i < |p| ==> p[i] in PasswordChars
  }

  /** `generateRoomPassword`: eight draws from the alphabet. The random draw is a
      nondeterministic choice of a position in it. */
  method GenerateRoomPassword() returns (password: string)
    ensures PasswordShape(password)
  {
    password := "";
    for i := 0 to PasswordLength
      invariant |password| == i
      invariant forall k :: 0 <= k < i ==> password[k] in PasswordChars
    {
      var pick :| 0 <= pick < |PasswordChars|;
      password := password + [PasswordChars[pick]];
    }
  }

  /** The room `createRoomForTournament` stores, for the id the database gives it. */
  ghost predicate FreshRoom(r: Room, tournamentId: int, id: int)
  {
    r.id == id && r.tournamentId == tournamentId && r.members == [] &&
    PasswordShape(r.password) && r.state == Waiting && r.createdBy == SystemUser &&
    r.maxMembers == PlayersPerRoom && r.minMembers == MinPlayersToStart
  }

  method CreateRoomForTournament(tournamentId: int, id: int) returns (room: Room)
    ensures FreshRoom(room, tournamentId, id)
    ensures WellFormed(room)
  {
    var password := GenerateRoomPassword();
    room := Room(id, tournamentId, [], password, Waiting, SystemUser, PlayersPerRoom, MinPlayersToStart);
  }

  /** The monitor's creation loop: one fresh room per id, in order. */
  method CreateRooms(tournamentId: int, ids: seq<int>) returns (created: seq<Room>)
    ensures |created| == |ids|
    ensures forall i :: 0 <= i < |ids| ==> FreshRoom(created[i], tournamentId, ids[i])
  {
    created := [];
    for i := 0 to |ids|
      invariant |created| == i
      invariant forall k :: 0 <= k < i ==> FreshRoom(created[k], tournamentId, ids[k])
    {
      var room := CreateRoomForTournament(tournamentId, ids[i]);
      created := created + [room];
    }
  }

  // ---------------------------------------------------------------------------
  // Spreading lobby players over the rooms

  /** The loop state of `distributePlayersToRooms`: each room id's member list and
      the round-robin counter. */
  datatype Distribution = Distribution(lists: map<int, seq<int>>, roomIndex: nat)

  /** The map the loop starts from: each room id with its current members, a later
      room with the same id replacing an earlier one. */
  function InitialAssignments(rooms: seq<Room>): (m: map<int, seq<int>>)
    ensures forall i :: 0 <= i < |rooms| ==> rooms[i].id in m
  {
    if rooms == [] then map[]
    else
      var last := rooms[|rooms| - 1];
      InitialAssignments(rooms[..|rooms| - 1])[last.id := last.members]
  }

  /** With distinct ids, each room's list is its own members. */
  lemma {:induction false} InitialAssignmentsOfDistinct(rooms: seq<Room>, i: nat)
    requires i < |rooms| && forall a, b :: 0 <= a < b < |rooms| ==> rooms[a].id != rooms[b].id
    ensures InitialAssignments(rooms)[rooms[i].id] == rooms[i].members
  {
    if i < |rooms| - 1 {
      InitialAssignmentsOfDistinct(rooms[..|rooms| - 1], i);
    }
  }

  /** `p` is already in some room's list. */
  ghost predicate AlreadyAssigned(m: map<int, seq<int>>, p: int)
  {
    exists k :: k in m && p in m[k]
  }

  /** One player of the loop: skipped when already in a room; otherwise offered the
      room the counter points at, appended when that room has space, and the counter
      advances whether or not it had. */
  ghost function Place(rooms: seq<Room>, d: Distribution, p: int): Distribution
    requires |rooms| > 0
  {
    if AlreadyAssigned(d.lists, p) then d
    else
      var room := rooms[d.roomIndex % |rooms|];
      var current := if room.id in d.lists then d.lists[room.id] else [];
      if |current| < room.maxMembers then Distribution(d.lists[room.id := current + [p]], d.roomIndex + 1)
      else Distribution(d.lists, d.roomIndex + 1)
  }

  /** The loop state after the given players, starting from `init`. */
  ghost function DistributeFrom(rooms: seq<Room>, init: map<int, seq<int>>, players: seq<int>): (d: Distribution)
    requires |rooms| > 0 && forall i :: 0 <= i < |rooms| ==> rooms[i].id in init
    ensures d.lists.Keys == init.Keys
  {
    if players == [] then Distribution(init, 0)
    else Place(rooms, DistributeFrom(rooms, init, players[..|players| - 1]), players[|players| - 1])
  }

  /** The member lists after `distributePlayersToRooms`: nothing is touched when
      there are no rooms or no players. */
  ghost function Distribute(rooms: seq<Room>, players: seq<int>): (m: map<int, seq<int>>)
    ensures m.Keys == InitialAssignments(rooms).Keys
  {
    if |rooms| == 0 || |players| == 0 then InitialAssignments(rooms)
    else DistributeFrom(rooms, InitialAssignments(rooms), players).lists
  }

  /** The inner search of the loop: is `p` in any room's list? */
  method IsAssigned(lists: map<int, seq<int>>, p: int) returns (found: bool)
    ensures found == AlreadyAssigned(lists, p)
  {
    var keys := lists.Keys;
    while |keys| > 0
      invariant keys <= lists.Keys
      invariant forall k :: k in lists && k !in keys ==> p !in lists[k]
      decreases keys
    {
      ghost var some := PickElement(keys);
      var k :| k in keys;
      if p in lists[k] {
        return true;
      }
      keys := keys - {k};
    }
    return false;
  }

  /** `distributePlayersToRooms`: the member list of every room id afterwards. */
  method DistributePlayersToRooms(playerIds: seq<int>, rooms: seq<Room>)
    returns (lists: map<int, seq<int>>)
    ensures lists == Distribute(rooms, playerIds)
  {
    if |rooms| == 0 || |playerIds| == 0 {
      return InitialAssignments(rooms);
    }
    lists := map[];
    for r := 0 to |rooms|
      invariant lists == InitialAssignments(rooms[..r])
    {
      assert rooms[..r + 1][..r] == rooms[..r];
      lists := lists[rooms[r].id := rooms[r].members];
    }
    assert rooms[..|rooms|] == rooms;
    ghost var init := lists;
    var roomIndex := 0;
    for i := 0 to |playerIds|
      invariant Distribution(lists, roomIndex) == DistributeFrom(rooms, init, playerIds[..i])
    {
      assert playerIds[..i + 1][..i] == playerIds[..i];
      lists, roomIndex := PlaceOne(rooms, lists, roomIndex, playerIds[i]);
    }
    assert playerIds[..|playerIds|] == playerIds;
  }

  /** The body of the distribution loop for one player. */
  method PlaceOne(rooms: seq<Room>, lists: map<int, seq<int>>, roomIndex: nat, playerId: int)
    returns (lists': map<int, seq<int>>, roomIndex': nat)
    requires |rooms| > 0
    ensures Distribution(lists', roomIndex') == Place(rooms, Distribution(lists, roomIndex), playerId)
  {
    lists', roomIndex' := lists, roomIndex;
    var alreadyAssigned := IsAssigned(lists, playerId);
    if !alreadyAssigned {
      var room := rooms[roomIndex % |rooms|];
      var currentPlayers := if room.id in lists then lists[room.id] else [];
      if |currentPlayers| < room.maxMembers {
        currentPlayers := currentPlayers + [playerId];
        lists' := lists[room.id := currentPlayers];
      }
      roomIndex' := roomIndex + 1;
    }
  }

  /** What the distribution keeps: the same room ids, each starting list a prefix of
      the final one; everything appended is a player of the input that was in no
      room at the start; and nobody is appended twice, to one room or to two. */
  ghost predicate Extends(init: map<int, seq<int>>, m: map<int, seq<int>>, seen: seq<int>)
  {
    KeepsPrefixes(init, m) && AddsNewcomers(init, m, seen) && AddsOnce(init, m)
  }

  ghost predicate KeepsPrefixes(init: map<int, seq<int>>, m: map<int, seq<int>>)
  {
    m.Keys == init.Keys && forall k :: k in init ==> init[k] <= m[k]
  }

  ghost predicate AddsNewcomers(init: map<int, seq<int>>, m: map<int, seq<int>>, seen: seq<int>)
  {
    forall k, j :: k in m && k in init && |init[k]| <= j < |m[k]| ==>
      m[k][j] in seen && !AlreadyAssigned(init, m[k][j])
  }

  ghost predicate AddsOnce(init: map<int, seq<int>>, m: map<int, seq<int>>)
  {
    forall k1, j1, k2, j2 ::
      (k1 in m && k1 in init && k2 in m && k2 in init &&
       |init[k1]| <= j1 < |m[k1]| && |init[k2]| <= j2 < |m[k2]| && m[k1][j1] == m[k2][j2]) ==>
      k1 == k2 && j1 == j2
  }

  /** A skipped player keeps the facts. */
  lemma SkipExtends(init: map<int, seq<int>>, m: map<int, seq<int>>, seen: seq<int>, p: int)
    requires Extends(init, m, seen)
    ensures Extends(init, m, seen + [p])
  {
    forall k, j | k in m && k in init && |init[k]| <= j < |m[k]|
      ensures m[k][j] in seen + [p]
    {
      assert m[k][j] in seen;
    }
  }

  /** Appending a player found in no list keeps the facts. */
  lemma AppendExtends(init: map<int, seq<int>>, m: map<int, seq<int>>, seen: seq<int>, k0: int, p: int)
    requires Extends(init, m, seen) && k0 in m && !AlreadyAssigned(m, p)
    ensures Extends(init, m[k0 := m[k0] + [p]], seen + [p])
  {
    var m' := m[k0 := m[k0] + [p]];
    forall k, j | k in m && 0 <= j < |m[k]|
      ensures m[k][j] != p
    {
      assert m[k][j] in m[k];
    }
    assert !AlreadyAssigned(init, p) by {
      forall k | k in init
        ensures p !in init[k]
      {
        assert init[k] <= m[k];
        forall j | 0 <= j < |init[k]|
          ensures init[k][j] != p
        {
          assert init[k][j] == m[k][j];
        }
      }
    }
    assert KeepsPrefixes(init, m') by {
      assert init[k0] <= m[k0] <= m'[k0];
    }
    forall k, j | k in m' && k in init && |init[k]| <= j < |m'[k]|
      ensures m'[k][j] in seen + [p] && !AlreadyAssigned(init, m'[k][j])
    {
      if k != k0 || j != |m[k0]| {
        assert m'[k][j] == m[k][j];
      }
    }
    forall k1, j1, k2, j2 |
      k1 in m' && k1 in init && k2 in m' && k2 in init &&
      |init[k1]| <= j1 < |m'[k1]| && |init[k2]| <= j2 < |m'[k2]| && m'[k1][j1] == m'[k2][j2]
      ensures k1 == k2 && j1 == j2
    {
      var new1 := k1 == k0 && j1 == |m[k0]|;
      var new2 := k2 == k0 && j2 == |m[k0]|;
      if !new1 && !new2 {
        assert m'[k1][j1] == m[k1][j1] && m'[k2][j2] == m[k2][j2];
      }
    }
  }

  lemma PlaceExtends(rooms: seq<Room>, init: map<int, seq<int>>, d: Distribution, seen: seq<int>, p: int)
    requires |rooms| > 0 && d.lists.Keys == init.Keys && forall i :: 0 <= i < |rooms| ==> rooms[i].id in init
    requires Extends(init, d.lists, seen)
    ensures Extends(init, Place(rooms, d, p).lists, seen + [p])
  {
    var room := rooms[d.roomIndex % |rooms|];
    if AlreadyAssigned(d.lists, p) || |d.lists[room.id]| >= room.maxMembers {
      SkipExtends(init, d.lists, seen, p);
    } else {
      AppendExtends(init, d.lists, seen, room.id, p);
    }
  }

  lemma {:induction false} DistributeFromExtends(rooms: seq<Room>, init: map<int, seq<int>>, players: seq<int>)
    requires |rooms| > 0 && forall i :: 0 <= i < |rooms| ==> rooms[i].id in init
    ensures Extends(init, DistributeFrom(rooms, init, players).lists, players)
  {
    if players != [] {
      var front := players[..|players| - 1];
      DistributeFromExtends(rooms, init, front);
      PlaceExtends(rooms, init, DistributeFrom(rooms, init, front), front, players[|players| - 1]);
      assert front + [players[|players| - 1]] == players;
    }
  }

  /** The distribution adds to no room that has reached its capacity: with distinct
      ids, every list ends no longer than its start or the room's `maxMembers`. */
  ghost predicate WithinCapacity(rooms: seq<Room>, init: map<int, seq<int>>, m: map<int, seq<int>>)
  {
    forall i :: 0 <= i < |rooms| ==>
      rooms[i].id in init && rooms[i].id in m &&
      (|m[rooms[i].id]| <= |init[rooms[i].id]| || |m[rooms[i].id]| <= rooms[i].maxMembers)
  }

  lemma {:induction false} DistributeFromWithinCapacity(rooms: seq<Room>, init: map<int, seq<int>>, players: seq<int>)
    requires |rooms| > 0 && forall i :: 0 <= i < |rooms| ==> rooms[i].id in init
    requires forall a, b :: 0 <= a < b < |rooms| ==> rooms[a].id != rooms[b].id
    ensures WithinCapacity(rooms, init, DistributeFrom(rooms, init, players).lists)
  {
    if players == [] {
    } else {
      var front := players[..|players| - 1];
      DistributeFromWithinCapacity(rooms, init, front);
      DistributeFromExtends(rooms, init, front);
      var d := DistributeFrom(rooms, init, front);
      var p := players[|players| - 1];
      if !AlreadyAssigned(d.lists, p) {
        var t := d.roomIndex % |rooms|;
        forall i | 0 <= i < |rooms| && i != t
          ensures rooms[i].id != rooms[t].id
        {
        }
      }
    }
  }

  /** Round robin: when the players are distinct and none is in a room yet, the
      counter advances once per player, so the i-th player is offered room i modulo
      the number of rooms, whether or not the rooms before it had space. */
  lemma {:induction false} DistributeFromRoundRobin(rooms: seq<Room>, init: map<int, seq<int>>, players: seq<int>)
    requires |rooms| > 0 && forall i :: 0 <= i < |rooms| ==> rooms[i].id in init
    requires NoRepeats(players) && forall i :: 0 <= i < |players| ==> !AlreadyAssigned(init, players[i])
    ensures DistributeFrom(rooms, init, players).roomIndex == |players|
  {
    if players != [] {
      var front := players[..|players| - 1];
      var p := players[|players| - 1];
      DistributeFromRoundRobin(rooms, init, front);
      DistributeFromExtends(rooms, init, front);
      var m := DistributeFrom(rooms, init, front).lists;
      assert !AlreadyAssigned(m, p) by {
        forall k | k in m
          ensures p !in m[k]
        {
          forall j | 0 <= j < |m[k]|
            ensures m[k][j] != p
          {
            if j < |init[k]| {
              assert init[k] <= m[k];
              assert m[k][j] == init[k][j] && init[k][j] in init[k];
            } else {
              assert m[k][j] in front;
            }
          }
        }
      }
    }
  }

  /** The facts above for the service's own starting map. */
  lemma DistributeProperties(rooms: seq<Room>, players: seq<int>)
    ensures Extends(InitialAssignments(rooms), Distribute(rooms, players), players)
    ensures (forall a, b :: 0 <= a < b < |rooms| ==> rooms[a].id != rooms[b].id) ==>
      WithinCapacity(rooms, InitialAssignments(rooms), Distribute(rooms, players))
  {
    var init := InitialAssignments(rooms);
    if |rooms| == 0 || |players| == 0 {
      assert Extends(init, init, players);
    } else {
      DistributeFromExtends(rooms, init, players);
      if forall a, b :: 0 <= a < b < |rooms| ==> rooms[a].id != rooms[b].id {
        DistributeFromWithinCapacity(rooms, init, players);
      }
    }
  }

  /** Rooms that were well formed stay so: with distinct ids, no final list repeats a
      user or exceeds its room's `maxMembers`. */
  lemma DistributeKeepsRoomsWellFormed(rooms: seq<Room>, players: seq<int>, i: nat)
    requires i < |rooms| && forall a, b :: 0 <= a < b < |rooms| ==> rooms[a].id != rooms[b].id
    requires WellFormed(rooms[i])
    ensures WellFormed(rooms[i].(members := Distribute(rooms, players)[rooms[i].id]))
  {
    var init := InitialAssignments(rooms);
    var m := Distribute(rooms, players);
    DistributeProperties(rooms, players);
    InitialAssignmentsOfDistinct(rooms, i);
    var k := rooms[i].id;
    var s := m[k];
    assert init[k] <= s;
    forall a, b | 0 <= a < b < |s|
      ensures s[a] != s[b]
    {
      if b < |init[k]| {
        assert s[a] == init[k][a] && s[b] == init[k][b];
      } else if a < |init[k]| {
        assert s[a] in init[k];
        assert AlreadyAssigned(init, s[a]);
      }
    }
  }

  // ---------------------------------------------------------------------------
  // Starting and disbanding rooms

  /** What `updateRoomStates` does to one open room: start it, disband it, or leave
      it. Starting moves its members' registrations to `playing`, disbanding moves
      them back to `in_lobby`. */
  datatype RoomUpdate = StartPlaying | Disband | NoChange

  function RoomStateDecision(room: Room): (u: RoomUpdate)
    ensures u == StartPlaying <==> room.state == Waiting && |room.members| >= room.maxMembers
    ensures u == Disband <==> room.state == Playing && |room.members| < DisbandBelow
  {
    if |room.members| >= room.maxMembers && room.state == Waiting then StartPlaying
    else if |room.members| < DisbandBelow && room.state == Playing then Disband
    else NoChange
  }

  /** The room after the decision: only the state changes. */
  function UpdateRoomState(room: Room): (r: Room)
    ensures r == room.(state := r.state)
    ensures r.state != room.state <==> RoomStateDecision(room) != NoChange
    ensures r.state == Cancelled ==> room.state in {Playing, Cancelled}
    ensures r.state == Playing ==> room.state in {Waiting, Playing}
    ensures room.state == Waiting && |room.members| >= room.maxMembers ==> r.state == Playing
    ensures room.state == Playing && |room.members| < DisbandBelow ==> r.state == Cancelled
  {
    match RoomStateDecision(room)
    case StartPlaying => room.(state := Playing)
    case Disband => room.(state := Cancelled)
    case NoChange => room
  }

  /** `updateRoomStates` over the open rooms of a tournament. */
  function UpdateRoomStates(rooms: seq<Room>): (r: seq<Room>)
    ensures |r| == |rooms|
    ensures forall i :: 0 <= i < |rooms| ==> r[i] == UpdateRoomState(rooms[i])
  {
    if rooms == [] then []
    else UpdateRoomStates(rooms[..|rooms| - 1]) + [UpdateRoomState(rooms[|rooms| - 1])]
  }

  /** A second pass changes nothing when rooms hold at least `DisbandBelow` members
      once full, which the service's own rooms (eight seats) do. */
  lemma UpdateRoomStateSettles(room: Room)
    requires room.maxMembers >= DisbandBelow
    ensures UpdateRoomState(UpdateRoomState(room)) == UpdateRoomState(room)
  {
  }

  /** With fewer seats than that, a full waiting room starts on one pass and is
      disbanded on the next. */
  lemma UpdateRoomStateSmallRoom()
    ensures var room := Room(1, 1, [7, 8], "", Waiting, 7, 2, 2);
      UpdateRoomState(room).state == Playing &&
      UpdateRoomState(UpdateRoomState(room)).state == Cancelled
  {
  }
}
