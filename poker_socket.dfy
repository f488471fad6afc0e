/** The socket layer of the table server (src/game/pokerSocket.ts) without its messages:
    the registry of open games, the checks a join or create attempt runs before the
    client commits, and the effects of creating a game, joining one, leaving and
    starting. Each reply the source emits is returned as a `Reply`. */
module PokerSocket {
  import opened Common
  import opened Players
  import opened Seats
  import opened PokerTable

  /** What an attempt emits: `goodJoin`/`goodCreate`, or `badJoin`/`badCreate` with a
      reason. */
  datatype Reply = Good | Bad(reason: string)

  const NameTaken: string := "Someone already is using this name"
  const StackTooSmall: string := "Stack is less than 0, please try again"
  const BadDefaultStack: string := "Invalid Default stack size, please try again"
  const BadBlinds: string := "Invalid small/big blind set up"

  function WrongPassword(lobby: string): string
  {
    "Incorrect password for the lobby: " + lobby
  }

  function LobbyNotFound(lobby: string): string
  {
    "Lobby with name: " + lobby + " not found. :("
  }

  function LobbyExists(lobby: string): string
  {
    "The lobby: " + lobby + " has already been created"
  }

  /** The ids of the games, in registry order. */
  function GameIDs(rooms: seq<PokerGame>): (r: seq<string>)
    ensures |r| == |rooms| && forall i :: 0 <= i < |rooms| ==> r[i] == rooms[i].gameID
  {
    if rooms == [] then [] else GameIDs(rooms[..|rooms| - 1]) + [rooms[|rooms| - 1].gameID]
  }

  /** Which games have a seat with that socket, in registry order. */
  function HoldsSocket(rooms: seq<PokerGame>, id: string): (r: seq<bool>)
    reads (set g | g in rooms)`players
    ensures |r| == |rooms| && forall i :: 0 <= i < |rooms| ==> r[i] == (id in SockIDs(rooms[i].players))
  {
    if rooms == [] then []
    else HoldsSocket(rooms[..|rooms| - 1], id) + [id in SockIDs(rooms[|rooms| - 1].players)]
  }

  /** What `joinAttempt` looks at in a game: its id, the names seated and the password. */
  datatype Lobby = Lobby(id: string, names: seq<string>, password: string)

  /** The lobby view of every game, in registry order. */
  function Lobbies(rooms: seq<PokerGame>): (r: seq<Lobby>)
    reads (set g | g in rooms)`players, (set g | g in rooms)`password
    ensures |r| == |rooms|
    ensures forall i :: 0 <= i < |rooms| ==> r[i] == Lobby(rooms[i].gameID, Names(rooms[i].players), rooms[i].password)
  {
    if rooms == [] then []
    else
      var g := rooms[|rooms| - 1];
      Lobbies(rooms[..|rooms| - 1]) + [Lobby(g.gameID, Names(g.players), g.password)]
  }

  /** The reply of `joinAttempt` for one game with the requested id: the name must be
      free, then the password must match, then the stack must be positive. */
  function JoinReply(l: Lobby, username: string, stacksize: int, password: string): (r: Reply)
    ensures r == Good <==> username !in l.names && l.password == password && stacksize > 0
    ensures username in l.names ==> r == Bad(NameTaken)
    ensures username !in l.names && l.password != password ==> r == Bad(WrongPassword(l.id))
    ensures username !in l.names && l.password == password && stacksize <= 0 ==> r == Bad(StackTooSmall)
  {
    if username in l.names then Bad(NameTaken)
    else if l.password != password then Bad(WrongPassword(l.id))
    else if stacksize <= 0 then Bad(StackTooSmall)
    else Good
  }

  /** One `JoinReply` per lobby whose id is the requested one, in registry order. */
  function JoinReplies(ls: seq<Lobby>, username: string, stacksize: int, lobby: string, password: string)
    : (r: seq<Reply>)
    ensures |r| <= |ls|
    ensures r == [] <==> forall i :: 0 <= i < |ls| ==> ls[i].id != lobby
  {
    if ls == [] then []
    else
      var l := ls[|ls| - 1];
      JoinReplies(ls[..|ls| - 1], username, stacksize, lobby, password) +
      (if l.id == lobby then [JoinReply(l, username, stacksize, password)] else [])
  }

  /** Adding a lobby at the end adds its reply, if it has the requested id. */
  lemma JoinRepliesSnoc(ls: seq<Lobby>, l: Lobby, username: string, stacksize: int, lobby: string, password: string)
    ensures JoinReplies(ls + [l], username, stacksize, lobby, password) ==
            JoinReplies(ls, username, stacksize, lobby, password) +
            (if l.id == lobby then [JoinReply(l, username, stacksize, password)] else [])
  {
    assert (ls + [l])[..|ls|] == ls;
  }

  /** When no two lobbies share an id, a join attempt gets exactly one reply: the one of
      the lobby it names. */
  lemma {:induction false} JoinRepliesOfUniqueLobby(ls: seq<Lobby>, k: nat, username: string, stacksize: int,
                                                    lobby: string, password: string)
    requires forall i, j :: 0 <= i < j < |ls| ==> ls[i].id != ls[j].id
    requires k < |ls| && ls[k].id == lobby
    ensures JoinReplies(ls, username, stacksize, lobby, password) == [JoinReply(ls[k], username, stacksize, password)]
  {
    var init := ls[..|ls| - 1];
    if k == |ls| - 1 {
      assert forall i :: 0 <= i < |init| ==> init[i].id != lobby;
    } else {
      JoinRepliesOfUniqueLobby(init, k, username, stacksize, lobby, password);
      assert ls[|ls| - 1].id != lobby;
    }
  }

  /** The reply of `createAttempt`: the id must be new, then the default stack positive,
      then the small blind at most the big blind (equal blinds pass). */
  function CreateReply(taken: bool, lobby: string, stacksize: int, smallBlind: int, bigBlind: int): (r: Reply)
    ensures r == Good <==> !taken && stacksize > 0 && smallBlind <= bigBlind
    ensures taken ==> r == Bad(LobbyExists(lobby))
    ensures !taken && stacksize <= 0 ==> r == Bad(BadDefaultStack)
    ensures !taken && stacksize > 0 && smallBlind > bigBlind ==> r == Bad(BadBlinds)
  {
    if taken then Bad(LobbyExists(lobby))
    else if stacksize <= 0 then Bad(BadDefaultStack)
    else if smallBlind > bigBlind then Bad(BadBlinds)
    else Good
  }

  /** `listOfPokerRooms`, the module-level list of open games. */
  class PokerRooms {
    var rooms: seq<PokerGame>

    /** Every game is listed once and its roster is consistent. */
    ghost predicate Valid()
      reads this, (set g | g in rooms)`players, (set g | g in rooms)`totalPlayers, (set g | g in rooms)`gameHost
    {
      (forall i, j :: 0 <= i < j < |rooms| ==> rooms[i] != rooms[j]) &&
      forall g :: g in rooms ==> g.RosterValid()
    }

    constructor ()
      ensures Valid() && rooms == []
    {
      rooms := [];
    }

    /** `joinAttempt`: a reply for every game with the requested id, then "not found" if
        there was none. Nothing changes. */
    method JoinAttempt(username: string, stacksize: int, lobbyname: string, password: string) returns (r: seq<Reply>)
      ensures r == JoinReplies(old(Lobbies(rooms)), username, stacksize, lobbyname, password) +
                   (if lobbyname in GameIDs(rooms) then [] else [Bad(LobbyNotFound(lobbyname))])
    {
      ghost var ls := Lobbies(rooms);
      var found := false;
      r := [];
      var i := 0;
      while i < |rooms|
        invariant 0 <= i <= |rooms|
        invariant r == JoinReplies(ls[..i], username, stacksize, lobbyname, password)
        invariant found <==> r != []
      {
        var g := rooms[i];
        assert ls[..i + 1] == ls[..i] + [ls[i]];
        JoinRepliesSnoc(ls[..i], ls[i], username, stacksize, lobbyname, password);
        if g.gameID == lobbyname {
          found := true;
          var reply := ReplyTo(g, username, stacksize, lobbyname, password);
          r := r + [reply];
        }
        i := i + 1;
      }
      assert ls[..i] == ls;
      assert found <==> lobbyname in GameIDs(rooms);
      if !found {
        r := r + [Bad(LobbyNotFound(lobbyname))];
      }
    }

    /** The checks `joinAttempt` runs on a game with the requested id. */
    method ReplyTo(g: PokerGame, username: string, stacksize: int, lobbyname: string, password: string)
      returns (reply: Reply)
      requires g.gameID == lobbyname
      ensures reply == JoinReply(Lobby(g.gameID, Names(g.players), g.password), username, stacksize, password)
    {
      var taken := g.CheckIfNameIsInGame(username);
      if taken {
        reply := Bad(NameTaken);
      } else if g.password != password {
        reply := Bad(WrongPassword(lobbyname));
      } else if stacksize <= 0 {
        reply := Bad(StackTooSmall);
      } else {
        reply := Good;
      }
    }

    /** `createAttempt`: whether the id is taken decides the first check. Nothing
        changes. */
    method CreateAttempt(username: string, stacksize: int, lobbyname: string, smallBlind: int, bigBlind: int,
                         password: string) returns (r: Reply)
      ensures r == CreateReply(lobbyname in GameIDs(rooms), lobbyname, stacksize, smallBlind, bigBlind)
    {
      var created := false;
      var i := 0;
      while i < |rooms|
        invariant 0 <= i <= |rooms|
        invariant created <==> lobbyname in GameIDs(rooms)[..i]
      {
        if rooms[i].gameID == lobbyname {
          created := true;
        }
        i := i + 1;
      }
      assert GameIDs(rooms)[..i] == GameIDs(rooms);
      if created {
        r := Bad(LobbyExists(lobbyname));
      } else if stacksize <= 0 {
        r := Bad(BadDefaultStack);
      } else if smallBlind > bigBlind {
        r := Bad(BadBlinds);
      } else {
        r := Good;
      }
    }

    /** `createRoom`: a new empty game with the given blinds, password and default stack
        goes last; the id is not checked again. */
    method CreateRoom(lobbyname: string, smallBlind: int, bigBlind: int, password: string, stacksize: int)
      requires Valid()
      modifies this`rooms
      ensures Valid() && |rooms| == |old(rooms)| + 1 && rooms[..|old(rooms)|] == old(rooms)
      ensures var g := rooms[|rooms| - 1];
        fresh(g) && g.gameID == lobbyname && g.smallBlind == smallBlind && g.bigBlind == bigBlind &&
        g.password == password && g.defaultStackSize == stacksize && g.players == [] && !g.begun
    {
      var g := new PokerGame(lobbyname);
      g.SetSmallBlind(smallBlind);
      g.SetBigBlind(bigBlind);
      g.SetPassword(password);
      g.SetDefaultStackSize(stacksize);
      rooms := rooms + [g];
    }

    /** `joinRoom`: a new seat with the given name, stack and socket joins the LAST game
        with that id (the search loop keeps overwriting its match); with no such game
        nothing changes. */
    method JoinRoom(lobbyname: string, username: string, stacksize: int, sockID: string) returns (user: Player)
      requires Valid()
      modifies set g | g in rooms
      ensures Valid()
      ensures LastIndex(GameIDs(rooms), lobbyname).None? ==> unchanged(set g | g in rooms)
      ensures LastIndex(GameIDs(rooms), lobbyname).Some? ==>
        var k := LastIndex(GameIDs(rooms), lobbyname).value;
        fresh(user) && user.name == username && user.stackSize == stacksize && user.sockID == sockID &&
        user.room == lobbyname && rooms[k].players == old(rooms[k].players) + [user] &&
        (forall j :: 0 <= j < |rooms| && j != k ==> unchanged(rooms[j]))
    {
      ghost var k := LastIndex(GameIDs(rooms), lobbyname);
      var theGame := FindGame(lobbyname);
      user := new Player(username, stacksize, sockID, lobbyname);
      SeatIn(theGame, user);
      if k.Some? {
        assert forall j :: 0 <= j < |rooms| && j != k.value ==> rooms[j] != theGame;
      }
    }

    /** The search of `joinRoom`: the last game with that id, or `null`. */
    method FindGame(lobbyname: string) returns (r: PokerGame?)
      ensures LastIndex(GameIDs(rooms), lobbyname).None? ==> r == null
      ensures LastIndex(GameIDs(rooms), lobbyname).Some? ==> r == rooms[LastIndex(GameIDs(rooms), lobbyname).value]
    {
      ghost var ids := GameIDs(rooms);
      ghost var at: Option<nat> := None;
      r := null;
      var i := 0;
      while i < |rooms|
        invariant 0 <= i <= |rooms|
        invariant at == LastIndex(ids[..i], lobbyname)
        invariant at.None? ==> r == null
        invariant at.Some? ==> at.value < |rooms| && r == rooms[at.value]
      {
        assert ids[..i + 1][..i] == ids[..i];
        assert ids[..i + 1][i] == rooms[i].gameID;
        if rooms[i].gameID == lobbyname {
          r := rooms[i];
          at := Some(i);
        }
        i := i + 1;
      }
      assert ids[..i] == ids;
    }

    /** The `playerJoin` step of `joinRoom`, when a game was found. */
    method SeatIn(game: PokerGame?, user: Player)
      requires Valid() && (game != null ==> game in rooms && user !in game.players)
      modifies set g | g in rooms
      ensures Valid()
      ensures game == null ==> unchanged(set g | g in rooms)
      ensures game != null ==>
        game.players == old(game.players) + [user] &&
        forall j :: 0 <= j < |rooms| && rooms[j] != game ==> unchanged(rooms[j])
    {
      if game != null {
        game.PlayerJoin(user);
      }
    }

    /** `getGameFromSockID`: the first game with a seat on that socket, or `null`. */
    method GetGameFromSockID(id: string) returns (r: PokerGame?)
      requires Valid()
      ensures old(FirstIndex(HoldsSocket(rooms, id), true)).None? ==> r == null
      ensures old(FirstIndex(HoldsSocket(rooms, id), true)).Some? ==>
        r == rooms[old(FirstIndex(HoldsSocket(rooms, id), true)).value]
    {
      ghost var holds := HoldsSocket(rooms, id);
      var i := 0;
      while i < |rooms|
        invariant 0 <= i <= |rooms|
        invariant forall j :: 0 <= j < i ==> !holds[j]
      {
        ghost var seated := SockIDs(rooms[i].players);
        assert holds[i] == (id in seated);
        var inGame := rooms[i].CheckIfSockIDisInGame(id);
        assert inGame == holds[i];
        if inGame {
          FirstIndexOfUnique(holds, i);
          return rooms[i];
        }
        i := i + 1;
      }
      return null;
    }

    /** `disconnect`: the seat with that socket leaves the first game that has it; every
        other game is unchanged, and with no such game nothing changes. */
    method Disconnect(sockID: string)
      requires Valid()
      modifies set g | g in rooms
      ensures Valid()
      ensures old(FirstIndex(HoldsSocket(rooms, sockID), true)).None? ==> unchanged(set g | g in rooms)
      ensures old(FirstIndex(HoldsSocket(rooms, sockID), true)).Some? ==>
        var k := old(FirstIndex(HoldsSocket(rooms, sockID), true)).value;
        var i := FirstIndex(old(SockIDs(rooms[k].players)), sockID).value;
        rooms[k].players == old(rooms[k].players)[..i] + old(rooms[k].players)[i + 1..] &&
        (forall j :: 0 <= j < |rooms| && j != k ==> unchanged(rooms[j]))
    {
      var theGame := GetGameFromSockID(sockID);
      Unseat(theGame, sockID);
    }

    /** The `getCurrentUser`/`playerLeave` step of `disconnect`, when a game was found. */
    method Unseat(game: PokerGame?, sockID: string)
      requires Valid() && (game != null ==> game in rooms)
      modifies set g | g in rooms
      ensures Valid()
      ensures game == null ==> unchanged(set g | g in rooms)
      ensures game != null ==>
        (sockID !in old(SockIDs(game.players)) ==> game.players == old(game.players)) &&
        (sockID in old(SockIDs(game.players)) ==>
          var i := FirstIndex(old(SockIDs(game.players)), sockID).value;
          game.players == old(game.players)[..i] + old(game.players)[i + 1..]) &&
        forall j :: 0 <= j < |rooms| && rooms[j] != game ==> unchanged(rooms[j])
    {
      if game != null {
        var user := game.GetCurrentUser(sockID);
        if user != null {
          var _ := game.PlayerLeave(sockID);
        }
      }
    }

    /** `startGame`: the first game with a seat on that socket is marked begun; nothing
        else changes. */
    method StartGame(sockID: string)
      requires Valid()
      modifies (set g | g in rooms)`begun
      ensures Valid()
      ensures old(FirstIndex(HoldsSocket(rooms, sockID), true)).None? ==> unchanged(set g | g in rooms)
      ensures old(FirstIndex(HoldsSocket(rooms, sockID), true)).Some? ==>
        var k := old(FirstIndex(HoldsSocket(rooms, sockID), true)).value;
        rooms[k].begun && (forall j :: 0 <= j < |rooms| && j != k ==> unchanged(rooms[j]))
    {
      var theGame := GetGameFromSockID(sockID);
      MarkBegun(theGame);
    }

    /** The `setBegun(true)` step of `startGame`, when a game was found. */
    method MarkBegun(game: PokerGame?)
      requires Valid() && (game != null ==> game in rooms)
      modifies (set g | g in rooms)`begun
      ensures Valid()
      ensures game == null ==> unchanged(set g | g in rooms)
      ensures game != null ==>
        game.begun && forall j :: 0 <= j < |rooms| && rooms[j] != game ==> unchanged(rooms[j])
    {
      if game != null {
        game.SetBegun(true);
      }
    }
  }

  /** A client of the registry: once a game is created its id is taken, and once a
      name has joined it a second join under that name is refused. */
  method CreateJoinAndRetry(lobby: string, name: string, password: string)
    returns (create: Reply, rejoin: seq<Reply>)
    ensures create == Bad(LobbyExists(lobby))
    ensures rejoin == [Bad(NameTaken)]
  {
    var reg := new PokerRooms();
    reg.CreateRoom(lobby, 1, 2, password, 100);
    create := reg.CreateAttempt(name, 100, lobby, 1, 2, password);
    var _ := reg.JoinRoom(lobby, name, 100, "socket");
    assert GameIDs(reg.rooms) == [lobby];
    JoinRepliesOfUniqueLobby(Lobbies(reg.rooms), 0, name, 100, lobby, password);
    assert name in Names(reg.rooms[0].players);
    rejoin := reg.JoinAttempt(name, 100, lobby, password);
  }
}
