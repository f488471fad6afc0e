/** The table (src/game/pokerGame.ts) and the hand being played at it
    (src/game/pokerHand.ts). The two source files refer to each other, so both
    classes live in this one module. */
module PokerTable {
  import opened Common
  import opened Cards
  import opened Hands
  import opened Deck
  import opened Players
  import opened Seats

  /** The image shown for a card that is face down. */
  const CardBack: string := "blue_back.png"

  // ---------------------------------------------------------------------------
  // Views of a roster: the value of one field of every seat, in seat order.
  // ---------------------------------------------------------------------------

  function Names(ps: seq<Player>): (r: seq<string>)
    ensures |r| == |ps| && forall i :: 0 <= i < |ps| ==> r[i] == ps[i].name
  {
    if ps == [] then [] else Names(ps[..|ps| - 1]) + [ps[|ps| - 1].name]
  }

  function SockIDs(ps: seq<Player>): (r: seq<string>)
    ensures |r| == |ps| && forall i :: 0 <= i < |ps| ==> r[i] == ps[i].sockID
  {
    if ps == [] then [] else SockIDs(ps[..|ps| - 1]) + [ps[|ps| - 1].sockID]
  }

  function Stacks(ps: seq<Player>): (r: seq<int>)
    reads (set p | p in ps)`stackSize
    ensures |r| == |ps| && forall i :: 0 <= i < |ps| ==> r[i] == ps[i].stackSize
  {
    if ps == [] then [] else Stacks(ps[..|ps| - 1]) + [ps[|ps| - 1].stackSize]
  }

  function ValTurns(ps: seq<Player>): (r: seq<string>)
    reads (set p | p in ps)`valTurn
    ensures |r| == |ps| && forall i :: 0 <= i < |ps| ==> r[i] == ps[i].valTurn
  {
    if ps == [] then [] else ValTurns(ps[..|ps| - 1]) + [ps[|ps| - 1].valTurn]
  }

  function AllIns(ps: seq<Player>): (r: seq<bool>)
    reads (set p | p in ps)`allIn
    ensures |r| == |ps| && forall i :: 0 <= i < |ps| ==> r[i] == ps[i].allIn
  {
    if ps == [] then [] else AllIns(ps[..|ps| - 1]) + [ps[|ps| - 1].allIn]
  }

  function Rounds(ps: seq<Player>): (r: seq<int>)
    reads (set p | p in ps)`currMoneyInBettingRound
    ensures |r| == |ps| && forall i :: 0 <= i < |ps| ==> r[i] == ps[i].currMoneyInBettingRound
  {
    if ps == [] then [] else Rounds(ps[..|ps| - 1]) + [ps[|ps| - 1].currMoneyInBettingRound]
  }

  /** The chips in front of the seats. */
  ghost function StackTotal(ps: seq<Player>): int
    reads (set p | p in ps)`stackSize
  {
    if ps == [] then 0 else StackTotal(ps[..|ps| - 1]) + ps[|ps| - 1].stackSize
  }

  /** The chips in front of the seats are the sum of the stack view. */
  lemma {:induction false} StackTotalIsSum(ps: seq<Player>)
    ensures StackTotal(ps) == Sum(Stacks(ps))
  {
    if ps != [] {
      StackTotalIsSum(ps[..|ps| - 1]);
    }
  }

  /** The all-in view is determined by the seats' flags. */
  lemma AllInsAgree(ps: seq<Player>, flags: seq<bool>)
    requires |flags| == |ps| && forall k :: 0 <= k < |ps| ==> ps[k].allIn == flags[k]
    ensures AllIns(ps) == flags
  {
  }

  /** Changing one seat's stack changes one entry of the stack view. */
  lemma StacksAfterUpdate(ps: seq<Player>, k: nat, st: seq<int>)
    requires k < |ps| == |st|
    requires forall j :: 0 <= j < |ps| && j != k ==> ps[j].stackSize == st[j]
    ensures Stacks(ps) == st[k := ps[k].stackSize]
  {
  }

  /** r lists the seats of ps that have chips, in seat order. */
  ghost predicate IsEligible(ps: seq<Player>, r: seq<Player>)
    reads (set p | p in ps)`stackSize
    decreases |ps|
  {
    if ps == [] then r == []
    else if ps[|ps| - 1].stackSize > 0 then
      r != [] && r[|r| - 1] == ps[|ps| - 1] && IsEligible(ps[..|ps| - 1], r[..|r| - 1])
    else IsEligible(ps[..|ps| - 1], r)
  }

  /** One more seat adds itself to the eligible seats when it has chips. */
  lemma EligibleSnoc(ps: seq<Player>, r: seq<Player>, p: Player)
    requires IsEligible(ps, r)
    ensures IsEligible(ps + [p], if p.stackSize > 0 then r + [p] else r)
  {
    assert (ps + [p])[..|ps|] == ps;
    assert (r + [p])[..|r|] == r;
  }

  /** The eligible seats are exactly the seats with a positive stack, no more of them
      than seats, and distinct when the seats are. */
  lemma {:induction false} EligibleFilter(ps: seq<Player>, r: seq<Player>)
    requires IsEligible(ps, r)
    ensures forall p :: p in r <==> p in ps && p.stackSize > 0
    ensures |r| <= |ps|
    ensures DistinctSeats(ps) ==> DistinctSeats(r)
  {
    if ps != [] {
      var init := ps[..|ps| - 1];
      assert ps == init + [ps[|ps| - 1]];
      if ps[|ps| - 1].stackSize > 0 {
        var rinit := r[..|r| - 1];
        assert r == rinit + [r[|r| - 1]];
        EligibleFilter(init, rinit);
        if DistinctSeats(ps) {
          assert DistinctSeats(init);
          assert ps[|ps| - 1] !in init;
        }
      } else {
        EligibleFilter(init, r);
        assert DistinctSeats(ps) ==> DistinctSeats(init);
      }
    }
  }

  /** The seats of a hand are distinct when the table's are. */
  lemma EligibleDistinct(ps: seq<Player>, r: seq<Player>)
    requires IsEligible(ps, r) && DistinctSeats(ps)
    ensures DistinctSeats(r)
  {
    EligibleFilter(ps, r);
  }

  /** How many of the stacks are not zero. */
  function CountNonZero(s: seq<int>): (n: nat)
    ensures n <= |s|
  {
    if s == [] then 0 else CountNonZero(s[..|s| - 1]) + (if s[|s| - 1] != 0 then 1 else 0)
  }

  /** Counting a longer prefix never gives less. */
  lemma {:induction false} CountNonZeroPrefix(s: seq<int>, i: nat, j: nat)
    requires i <= j <= |s|
    ensures CountNonZero(s[..i]) <= CountNonZero(s[..j])
  {
    if i < j {
      assert s[..j][..j - 1] == s[..j - 1];
      CountNonZeroPrefix(s, i, j - 1);
    }
  }

  /** What `returnDisplayHands` reports for a seat. */
  datatype PlayerDisplayInfo = PlayerDisplayInfo(name: string, hand: Option<string>)

  /** What `emitPlayers` reports for a seat. */
  datatype PlayerEmitInfo = PlayerEmitInfo(
    name: string, stack: int, moneyIn: int, card1: string, card2: string,
    valTurn: string, isShown1: bool, isShown2: bool, isStraddled: bool, isTurn: bool)

  /** An entry of `emitPlayers`: the dealer position first (`None` for the `NaN` that
      `dealerIdx % 0` gives at an empty table), then one record per seat. */
  datatype EmitEntry = DealerPosition(idx: Option<nat>) | Seat(info: PlayerEmitInfo)

  function DisplayInfo(p: Player): PlayerDisplayInfo
    reads p
  {
    PlayerDisplayInfo(p.name, if p.hand.Some? then Some(GetPNGHand(p.hand.value)) else None)
  }

  function EmitInfo(p: Player): PlayerEmitInfo
    reads p
  {
    var (c1, c2) :=
      if p.hand.None? then (CardBack, CardBack)
      else (CardToPNG(p.hand.value.holeCard1), CardToPNG(p.hand.value.holeCard2));
    PlayerEmitInfo(p.name, p.stackSize, p.currMoneyInBettingRound, c1, c2,
                   p.valTurn, false, false, false, p.isTurn)
  }

  /** The deck slot of the first card `dealHands` gives each seat, counted from the
      cursor c0: two slots for every earlier seat with a non-zero stack. The last entry
      is where the cursor ends. */
  function DealSlots(st: seq<int>, c0: int): (r: seq<int>)
    ensures |r| == |st| + 1 && r[0] == c0
    ensures r[|st|] == c0 + 2 * CountNonZero(st)
  {
    if st == [] then [c0]
    else
      var r' := DealSlots(st[..|st| - 1], c0);
      r' + [r'[|st| - 1] + (if st[|st| - 1] != 0 then 2 else 0)]
  }

  /** The slots of a prefix of the seats are a prefix of the slots. */
  lemma {:induction false} DealSlotsTake(st: seq<int>, c0: int, j: nat)
    requires j <= |st|
    ensures DealSlots(st[..j], c0) == DealSlots(st, c0)[..j + 1]
  {
    if j < |st| {
      var init := st[..|st| - 1];
      DealSlotsTake(init, c0, j);
      assert init[..j] == st[..j];
    } else {
      assert st[..j] == st;
    }
  }

  /** Seat i starts two slots after every earlier seat with chips. */
  lemma DealSlotsCount(st: seq<int>, c0: int, i: nat)
    requires i <= |st|
    ensures DealSlots(st, c0)[i] == c0 + 2 * CountNonZero(st[..i])
  {
    DealSlotsTake(st, c0, i);
  }

  /** A seat with chips takes two slots, a seat without none. */
  lemma DealSlotsStep(st: seq<int>, c0: int, i: nat)
    requires i < |st|
    ensures DealSlots(st, c0)[i + 1] == DealSlots(st, c0)[i] + (if st[i] != 0 then 2 else 0)
  {
    DealSlotsTake(st, c0, i + 1);
    DealSlotsTake(st, c0, i);
    assert st[..i + 1][..i] == st[..i];
  }

  /** The seat holds the two cards at slots c and c + 1 of the deck. */
  ghost predicate HoleCardsDealt(p: Player, cards: seq<Card>, c: int)
    reads p`hand
  {
    0 <= c && c + 1 < |cards| && p.hand == Some(PlayerHand(cards[c], cards[c + 1]))
  }

  /** Every seat with chips holds the two cards at its slot of `DealSlots`, counted
      from the cursor c0 the dealing started at. */
  ghost predicate SeatsDealt(ps: seq<Player>, cards: seq<Card>, c0: int)
    reads (set p | p in ps)`hand, (set p | p in ps)`stackSize
  {
    forall i :: 0 <= i < |ps| && ps[i].stackSize != 0 ==> HoleCardsDealt(ps[i], cards, DealSlots(Stacks(ps), c0)[i])
  }

  /** A seat after `resetInfo`. */
  ghost predicate IsReset(p: Player)
    reads p
  {
    p.currMoneyInPot == 0 && p.currMoneyInBettingRound == 0 && p.valTurn == Undecided && !p.allIn
  }

  class PokerGame {
    var gameHost: Player?
    var password: string
    var defaultStackSize: int
    var totalPlayers: int
    var players: seq<Player>
    const gameID: string
    var begun: bool
    var deck: DeckOfCards
    var turnTime: int
    var dealerIdx: nat
    var smallBlind: int
    var bigBlind: int
    var hand: PokerHand?
    var handNumber: int

    /** The roster has no seat twice, `totalPlayers` counts it, the host is the first
        seat (none at an empty table), and the deck holds the 52 cards. */
    ghost predicate Valid()
      reads this, deck, deck.deck
    {
      deck.Valid() && RosterValid()
    }

    /** The roster part of `Valid`, all that joining, leaving and the seat lookups use. */
    ghost predicate RosterValid()
      reads this`players, this`totalPlayers, this`gameHost
    {
      totalPlayers == |players| && DistinctSeats(players) &&
      gameHost == (if players == [] then null else players[0])
    }

    constructor (gameID: string)
      ensures Valid() && fresh(deck) && fresh(deck.deck)
      ensures gameHost == null && password == "" && defaultStackSize == 0 && players == []
      ensures this.gameID == gameID && !begun && turnTime == 10000
      ensures deck.deck[..] == CanonicalDeck() && deck.deckCounter == 0
      ensures dealerIdx == 0 && smallBlind == 0 && bigBlind == 0 && hand == null && handNumber == 0
    {
      gameHost := null;
      password := "";
      defaultStackSize := 0;
      totalPlayers := 0;
      players := [];
      this.gameID := gameID;
      begun := false;
      deck := new DeckOfCards();
      turnTime := 10000;
      dealerIdx := 0;
      smallBlind := 0;
      bigBlind := 0;
      hand := null;
      handNumber := 0;
    }

    method SetSmallBlind(amount: int)
      modifies this`smallBlind
      ensures smallBlind == amount
    {
      smallBlind := amount;
    }

    method SetBigBlind(amount: int)
      modifies this`bigBlind
      ensures bigBlind == amount
    {
      bigBlind := amount;
    }

    method SetPassword(password: string)
      modifies this`password
      ensures this.password == password
    {
      this.password := password;
    }

    method SetDefaultStackSize(size: int)
      modifies this`defaultStackSize
      ensures defaultStackSize == size
    {
      defaultStackSize := size;
    }

    /** `newHand`: a hand over the seats with chips, which runs as soon as it is made,
        becomes the game's current hand. The model requires the deck to have room for
        the hole cards and the flop. */
    method NewHand()
      requires Valid() && deck.deckCounter + 2 * |players| + 3 <= 52
      modifies this`hand, this`deck, this`handNumber, this`dealerIdx, deck`deckCounter, deck.deck,
               (set p | p in players)`hand, (set p | p in players)`stackSize,
               (set p | p in players)`currMoneyInPot, (set p | p in players)`valTurn,
               (set p | p in players)`currMoneyInBettingRound, (set p | p in players)`allIn,
               (set p | p in players)`isTurn
      ensures Valid() && hand != null && fresh(hand) && hand.theGame == this
      ensures players == old(players) && |hand.playersInHand| <= |players|
      ensures forall p :: p in hand.playersInHand <==> p in players && old(p.stackSize) > 0
      ensures hand.playersInHand != [] ==> hand.dealerIdx == Some(old(dealerIdx) % |hand.playersInHand|)
    {
      var h := new PokerHand(this);
      EligibleFilter(players, h.playersInHand);
      h.RunHand();
      hand := h;
    }

    method SetBegun(hasIt: bool)
      modifies this`begun
      ensures begun == hasIt
    {
      begun := hasIt;
    }

    /** `shuffle`: shuffles the game's deck; the cursor stays. */
    method Shuffle()
      requires Valid()
      modifies deck.deck
      ensures Valid() && multiset(deck.deck[..]) == old(multiset(deck.deck[..]))
      ensures unchanged(this, deck)
    {
      deck.Shuffle();
    }

    /** `playerJoin`: the seat goes last; it becomes host only at an empty table. The
        model requires the seat object not to be seated already (callers pass a new
        one). */
    method PlayerJoin(player: Player)
      requires RosterValid() && player !in players
      modifies this`gameHost, this`players, this`totalPlayers
      ensures RosterValid() && players == old(players) + [player]
      ensures gameHost == if old(gameHost) == null then player else old(gameHost)
    {
      if gameHost == null {
        gameHost := player;
      }
      players := players + [player];
      totalPlayers := totalPlayers + 1;
    }

    /** `playerLeave`: removes the first seat with that socket and returns it, the host
        becoming the new first seat; an unknown socket changes nothing. */
    method PlayerLeave(id: string) returns (r: Player?)
      requires RosterValid()
      modifies this`gameHost, this`players, this`totalPlayers
      ensures RosterValid()
      ensures id !in old(SockIDs(players)) ==> r == null && players == old(players) && gameHost == old(gameHost)
      ensures id in old(SockIDs(players)) ==>
        var k := FirstIndex(old(SockIDs(players)), id).value;
        r == old(players)[k] && players == old(players)[..k] + old(players)[k + 1..]
    {
      var i := 0;
      while i < totalPlayers
        invariant 0 <= i <= totalPlayers
        invariant forall k :: 0 <= k < i ==> players[k].sockID != id
      {
        if players[i].sockID == id {
          FirstIndexOfUnique(SockIDs(players), i);
          r := RemoveSeat(i);
          return;
        }
        i := i + 1;
      }
      r := null;
    }

    /** The splice of `playerLeave`: seat i goes, the host becomes the new first seat. */
    method RemoveSeat(i: int) returns (r: Player)
      requires RosterValid() && 0 <= i < |players|
      modifies this`gameHost, this`players, this`totalPlayers
      ensures RosterValid()
      ensures r == old(players)[i] && players == old(players)[..i] + old(players)[i + 1..]
    {
      r := players[i];
      var before := players;
      players := before[..i] + before[i + 1..];
      assert forall k :: 0 <= k < |players| ==> players[k] == before[if k < i then k else k + 1];
      totalPlayers := totalPlayers - 1;
      if |players| > 0 {
        gameHost := players[0];
      } else {
        gameHost := null;
      }
    }

    /** `getCurrentUser` (and `getPlayerFromSockID`, whose body is the same): the first
        seat with that socket, or `null`. */
    method GetCurrentUser(id: string) returns (r: Player?)
      requires RosterValid()
      ensures id !in SockIDs(players) ==> r == null
      ensures id in SockIDs(players) ==> r == players[FirstIndex(SockIDs(players), id).value]
    {
      var i := 0;
      while i < totalPlayers
        invariant 0 <= i <= totalPlayers
        invariant forall k :: 0 <= k < i ==> players[k].sockID != id
      {
        if players[i].sockID == id {
          FirstIndexOfUnique(SockIDs(players), i);
          return players[i];
        }
        i := i + 1;
      }
      return null;
    }

    method CheckIfSockIDisInGame(sockID: string) returns (b: bool)
      requires RosterValid()
      ensures b <==> sockID in SockIDs(players)
    {
      var i := 0;
      while i < totalPlayers
        invariant 0 <= i <= totalPlayers
        invariant forall k :: 0 <= k < i ==> players[k].sockID != sockID
      {
        if players[i].sockID == sockID {
          return true;
        }
        i := i + 1;
      }
      return false;
    }

    method CheckIfNameIsInGame(name: string) returns (b: bool)
      ensures b <==> name in Names(players)
    {
      var i := 0;
      while i < |players|
        invariant 0 <= i <= |players|
        invariant forall k :: 0 <= k < i ==> players[k].name != name
      {
        if players[i].name == name {
          return true;
        }
        i := i + 1;
      }
      return false;
    }

    /** `getEligiblePlayers`: the seats with chips, in seat order. */
    method GetEligiblePlayers() returns (r: seq<Player>)
      ensures IsEligible(players, r)
    {
      r := [];
      var i := 0;
      while i < |players|
        invariant 0 <= i <= |players|
        invariant IsEligible(players[..i], r)
      {
        EligibleSnoc(players[..i], r, players[i]);
        assert players[..i + 1] == players[..i] + [players[i]];
        if players[i].stackSize > 0 {
          r := r + [players[i]];
        }
        i := i + 1;
      }
      assert players[..i] == players;
    }

    method GetAllNames() returns (r: seq<string>)
      requires Valid()
      ensures r == Names(players)
    {
      r := [];
      var i := 0;
      while i < totalPlayers
        invariant 0 <= i <= totalPlayers
        invariant r == Names(players[..i])
      {
        r := r + [players[i].name];
        i := i + 1;
      }
      assert players[..i] == players;
    }

    method GetAllStackSizes() returns (r: seq<int>)
      requires Valid()
      ensures r == Stacks(players)
    {
      r := [];
      var i := 0;
      while i < totalPlayers
        invariant 0 <= i <= totalPlayers
        invariant r == Stacks(players[..i])
      {
        r := r + [players[i].stackSize];
        i := i + 1;
      }
      assert players[..i] == players;
    }

    /** `dealHands`: every seat with a non-zero stack, in seat order, gets the next two
        cards of the deck; the others keep what they had. */
    method DealHands()
      requires Valid() && deck.deckCounter + 2 * CountNonZero(Stacks(players)) <= 52
      modifies deck`deckCounter, (set p | p in players)`hand
      ensures Valid()
      ensures deck.deckCounter == old(deck.deckCounter) + 2 * CountNonZero(old(Stacks(players)))
      ensures forall i :: 0 <= i < |players| && players[i].stackSize != 0 ==>
        HoleCardsDealt(players[i], deck.deck[..], DealSlots(old(Stacks(players)), old(deck.deckCounter))[i])
      ensures forall i :: 0 <= i < |players| && players[i].stackSize == 0 ==>
        players[i].hand == old(players[i].hand)
      ensures unchanged(this, deck.deck)
    {
      ghost var st := Stacks(players);
      ghost var slots := DealSlots(st, deck.deckCounter);
      ghost var cards := deck.deck[..];
      var i := 0;
      while i < |players|
        invariant DealtUpTo(i, st, old(deck.deckCounter), slots, cards)
        invariant unchanged(this, deck.deck) && RosterValid()
        invariant forall k :: 0 <= k < |players| && (k >= i || st[k] == 0) ==>
          players[k].hand == old(players[k].hand)
      {
        DealNextSeat(i, st, old(deck.deckCounter), slots, cards);
        i := i + 1;
      }
    }

    /** The loop state of `dealHands` after the first i seats: the deck is untouched
        but for its cursor, and each of those seats with chips holds its two cards. */
    ghost predicate DealtUpTo(i: int, st: seq<int>, c0: int, slots: seq<int>, cards: seq<Card>)
      reads this, deck, deck.deck, (set p | p in players)`hand, (set p | p in players)`stackSize
    {
      0 <= i <= |players| && deck.Valid() && DistinctSeats(players) &&
      |st| == |players| && slots == DealSlots(st, c0) && slots[|st|] <= 52 &&
      (forall k :: 0 <= k < |players| ==> st[k] == players[k].stackSize) &&
      deck.deck[..] == cards && deck.deckCounter == slots[i] &&
      forall k :: 0 <= k < i && st[k] != 0 ==> HoleCardsDealt(players[k], cards, slots[k])
    }

    /** One step of `dealHands`: seat i gets two cards when its stack is not zero. */
    method DealNextSeat(i: int, ghost st: seq<int>, ghost c0: int, ghost slots: seq<int>, ghost cards: seq<Card>)
      requires DealtUpTo(i, st, c0, slots, cards) && i < |players|
      modifies deck`deckCounter, {players[i]}`hand
      ensures DealtUpTo(i + 1, st, c0, slots, cards)
      ensures players[i].stackSize == 0 ==> players[i].hand == old(players[i].hand)
      ensures unchanged(this, deck.deck)
      ensures forall k :: 0 <= k < |players| && k != i ==> players[k].hand == old(players[k].hand)
    {
      DealSlotsStep(st, c0, i);
      DealSlotsCount(st, c0, i + 1);
      CountNonZeroPrefix(st, i + 1, |st|);
      assert st[..|st|] == st;
      if players[i].stackSize != 0 {
        DealToSeat(players[i]);
      }
    }

    /** One seat of `dealHands`: the two cards under the cursor, in dealing order. */
    method DealToSeat(p: Player)
      requires deck.Valid() && deck.deckCounter + 2 <= 52
      modifies deck`deckCounter, p`hand
      ensures deck.Valid() && deck.deckCounter == old(deck.deckCounter) + 2
      ensures deck.deck[..] == old(deck.deck[..])
      ensures HoleCardsDealt(p, deck.deck[..], old(deck.deckCounter))
    {
      var c1 := deck.Deal();
      var c2 := deck.Deal();
      p.SetHand(c1, c2);
    }

    method DealCard() returns (c: Card)
      requires Valid() && deck.deckCounter < 52
      modifies deck`deckCounter
      ensures Valid()
      ensures c == deck.deck[old(deck.deckCounter)] && deck.deckCounter == old(deck.deckCounter) + 1
    {
      c := deck.Deal();
    }

    /** `returnDisplayHands`: each seat's name with its hand's image string, or `null`
        when it holds no hand. */
    method ReturnDisplayHands() returns (r: seq<PlayerDisplayInfo>)
      requires Valid()
      ensures |r| == |players|
      ensures forall i :: 0 <= i < |players| ==> r[i].name == players[i].name
      ensures forall i :: 0 <= i < |players| ==>
        r[i].hand == if players[i].hand.None? then None else Some(GetPNGHand(players[i].hand.value))
    {
      r := [];
      var i := 0;
      while i < totalPlayers
        invariant 0 <= i <= totalPlayers && |r| == i
        invariant forall k :: 0 <= k < i ==> r[k] == DisplayInfo(players[k])
      {
        if players[i].hand.Some? {
          r := r + [PlayerDisplayInfo(players[i].name, Some(GetPNGHand(players[i].hand.value)))];
        } else {
          r := r + [PlayerDisplayInfo(players[i].name, None)];
        }
        i := i + 1;
      }
    }

    method IncreaseDealerPosition()
      modifies this`dealerIdx
      ensures dealerIdx == old(dealerIdx) + 1
    {
      dealerIdx := dealerIdx + 1;
    }

    /** `clearPlayersInfo`: every seat's per-hand fields are reset. */
    method ClearPlayersInfo()
      requires Valid()
      modifies (set p | p in players)`currMoneyInPot, (set p | p in players)`valTurn,
               (set p | p in players)`currMoneyInBettingRound, (set p | p in players)`allIn
      ensures forall i :: 0 <= i < |players| ==> IsReset(players[i])
    {
      var i := 0;
      while i < |players|
        invariant 0 <= i <= |players|
        invariant forall k :: 0 <= k < i ==> IsReset(players[k])
      {
        players[i].ResetInfo();
        i := i + 1;
      }
    }

    /** `emitPlayers`: the dealer position, then one record per seat, with face-down
        cards for a seat without a hand. */
    method EmitPlayers() returns (r: seq<EmitEntry>)
      requires Valid()
      ensures |r| == totalPlayers + 1
      ensures r[0] == DealerPosition(if totalPlayers > 0 then Some(dealerIdx % totalPlayers) else None)
      ensures forall i :: 0 <= i < totalPlayers ==> r[i + 1] == Seat(EmitInfo(players[i]))
      ensures forall i :: 0 <= i < totalPlayers ==>
        (EmitInfo(players[i]).card1 == CardBack <==> players[i].hand.None?)
    {
      var dealerIndex := if totalPlayers > 0 then Some(dealerIdx % totalPlayers) else None;
      r := [DealerPosition(dealerIndex)];
      var i := 0;
      while i < totalPlayers
        invariant 0 <= i <= totalPlayers && |r| == i + 1
        invariant r[0] == DealerPosition(dealerIndex)
        invariant forall k :: 0 <= k < i ==> r[k + 1] == Seat(EmitInfo(players[k]))
      {
        var currPerson := players[i];
        var holeCard1, holeCard2;
        if currPerson.hand.None? {
          holeCard1 := CardBack;
          holeCard2 := CardBack;
        } else {
          holeCard1 := CardToPNG(currPerson.hand.value.holeCard1);
          holeCard2 := CardToPNG(currPerson.hand.value.holeCard2);
        }
        var info := PlayerEmitInfo(currPerson.name, currPerson.stackSize,
          currPerson.currMoneyInBettingRound, holeCard1, holeCard2, currPerson.valTurn,
          false, false, false, currPerson.isTurn);
        r := r + [Seat(info)];
        i := i + 1;
      }
      forall i | 0 <= i < totalPlayers
        ensures EmitInfo(players[i]).card1 == CardBack <==> players[i].hand.None?
      {
        if players[i].hand.Some? {
          CardPNGIsNotBack(players[i].hand.value.holeCard1);
        }
      }
    }

    /** What `clearGame` leaves, given the dealer counter and the hand count before it:
        every seat reset, the dealer one seat on, a full deck not yet dealt from, no
        hand, one more hand counted. */
    ghost predicate ClearedFrom(dealerBefore: int, handsBefore: int)
      reads this, deck, deck.deck, set p | p in players
    {
      Valid() && deck.deckCounter == 0 && hand == null &&
      dealerIdx == dealerBefore + 1 && handNumber == handsBefore + 1 &&
      forall i :: 0 <= i < |players| ==> IsReset(players[i])
    }

    /** `clearGame` without its timer: every seat is reset, the dealer moves on, a new
        deck is made and shuffled four times, the hand is dropped and counted. */
    method ClearGame()
      requires Valid()
      modifies this`deck, this`hand, this`handNumber, this`dealerIdx
      modifies (set p | p in players)`currMoneyInPot, (set p | p in players)`valTurn,
               (set p | p in players)`currMoneyInBettingRound, (set p | p in players)`allIn
      ensures fresh(deck) && fresh(deck.deck) && ClearedFrom(old(dealerIdx), old(handNumber))
    {
      ClearPlayersInfo();
      IncreaseDealerPosition();
      NewShuffledDeck();
      hand := null;
      handNumber := handNumber + 1;
    }

    /** The deck step of `clearGame`: a fresh deck, shuffled four times, cursor at 0. */
    method NewShuffledDeck()
      requires Valid()
      modifies this`deck
      ensures Valid() && fresh(deck) && fresh(deck.deck) && deck.deckCounter == 0
    {
      var d := new DeckOfCards();
      d.Shuffle();
      d.Shuffle();
      d.Shuffle();
      d.Shuffle();
      deck := d;
    }
  }

  /** No card's image is the face-down image. */
  lemma CardPNGIsNotBack(c: Card)
    ensures CardToPNG(c) != CardBack
  {
    var r := CardToPNG(c);
    assert r[0] == NatToString(c.number)[0];
    assert r[0] != CardBack[0];
  }

  // ---------------------------------------------------------------------------
  // Turn order and per-round bookkeeping of a hand.
  // ---------------------------------------------------------------------------

  /** Action tags a seat can carry besides `Undecided`. */
  const Fold: string := "fold"
  const AutoFold: string := "autoFold"
  const Check: string := "check"
  const PlayerIsAllIn: string := "playerIsAllIn"

  /** The seat `getNextPlayer` picks after a seat named `name`: the one after the first
      seat of that name, the last seat wrapping round to the first. A name no seat has
      gives the first seat. */
  function NextSeat(names: seq<string>, name: string): (k: nat)
    requires |names| > 0
    ensures k < |names|
    ensures name !in names ==> k == 0
  {
    match FirstIndex(names, name)
    case None => 0
    case Some(i) => if i == |names| - 1 then 0 else i + 1
  }

  /** For a name that is seated, `NextSeat` is the seat after its first seat, modulo
      the number of seats. */
  lemma NextSeatWraps(names: seq<string>, name: string)
    requires name in names
    ensures NextSeat(names, name) == (FirstIndex(names, name).value + 1) % |names|
  {
    var i := FirstIndex(names, name).value;
    ModInRange(i + 1, |names|, if i == |names| - 1 then 1 else 0);
  }

  /** When no two seats share a name, the seat after seat i is seat i + 1, cyclically. */
  lemma NextSeatCyclic(names: seq<string>, i: nat)
    requires NoRepeats(names) && i < |names|
    ensures NextSeat(names, names[i]) == (i + 1) % |names|
  {
    FirstIndexOfUnique(names, i);
    NextSeatWraps(names, names[i]);
  }

  /** Counting from the dealer's seat d: the small blind sits one seat on, the big blind
      two and the first to act three, all modulo the number of seats. */
  lemma SeatsAfterDealer(names: seq<string>, d: nat)
    requires NoRepeats(names) && d < |names|
    ensures NextSeat(names, names[d]) == (d + 1) % |names|
    ensures NextSeat(names, names[NextSeat(names, names[d])]) == (d + 2) % |names|
    ensures NextSeat(names, names[NextSeat(names, names[NextSeat(names, names[d])])]) == (d + 3) % |names|
  {
    var n := |names|;
    NextSeatCyclic(names, d);
    NextSeatCyclic(names, (d + 1) % n);
    NextSeatCyclic(names, (d + 2) % n);
    ModStep(d + 1, n);
    ModStep(d + 2, n);
    ModInRange(d + 1, n, if d + 1 < n then 0 else 1);
  }

  /** Among two or more seats, the seats one and two after seat d are different. */
  lemma NeighbourSeatsDiffer(d: nat, n: nat)
    requires 2 <= n && d < n
    ensures (d + 1) % n != (d + 2) % n
  {
    if d + 2 < n {
      ModInRange(d + 1, n, 0);
      ModInRange(d + 2, n, 0);
    } else if d + 2 == n {
      ModInRange(d + 1, n, 0);
      ModInRange(d + 2, n, 1);
    } else {
      ModInRange(d + 1, n, 1);
      ModInRange(d + 2, n, 1);
    }
  }

  /** The remainder of a below four times n, by its quotient q. */
  lemma ModInRange(a: int, n: int, q: int)
    requires n > 0 && 0 <= q <= 3 && q * n <= a < (q + 1) * n
    ensures a % n == a - q * n
  {
    if q == 2 {
      assert q * n == 2 * n;
    } else if q == 3 {
      assert q * n == 3 * n;
    }
  }

  /** Taking the remainder before adding one does not change the result. */
  lemma ModStep(a: int, n: int)
    requires n > 0 && 0 <= a < 3 * n
    ensures (a % n + 1) % n == (a + 1) % n
  {
    var q := if a < n then 0 else if a < 2 * n then 1 else 2;
    ModInRange(a, n, q);
    if a - q * n + 1 < n {
      ModInRange(a - q * n + 1, n, 0);
      ModInRange(a + 1, n, q);
    } else {
      ModInRange(a - q * n + 1, n, 1);
      ModInRange(a + 1, n, q + 1);
    }
  }

  /** How many seats are not all-in, that is, can still bet. */
  ghost function CanAct(ps: seq<Player>): nat
    reads (set p | p in ps)`allIn
  {
    if ps == [] then 0 else CanAct(ps[..|ps| - 1]) + (if ps[|ps| - 1].allIn then 0 else 1)
  }

  /** The seats that can bet are the `false` entries of the all-in view. */
  lemma {:induction false} CanActIsCountFalse(ps: seq<Player>)
    ensures CanAct(ps) == CountFalse(AllIns(ps))
  {
    if ps != [] {
      CanActIsCountFalse(ps[..|ps| - 1]);
      assert AllIns(ps)[..|ps| - 1] == AllIns(ps[..|ps| - 1]);
    }
  }

  /** How many entries are `false`: for the all-in flags, the seats still able to bet. */
  function CountFalse(s: seq<bool>): (n: nat)
    ensures n <= |s|
  {
    if s == [] then 0 else CountFalse(s[..|s| - 1]) + (if s[|s| - 1] then 0 else 1)
  }

  /** At least one entry is `false` exactly when the count is positive. */
  lemma {:induction false} CountFalsePositive(s: seq<bool>)
    ensures CountFalse(s) >= 1 <==> false in s
  {
    if s != [] {
      var init := s[..|s| - 1];
      assert s == init + [s[|s| - 1]];
      CountFalsePositive(init);
    }
  }

  /** At least two entries are `false` exactly when two different positions hold one. */
  lemma {:induction false} CountFalseTwo(s: seq<bool>)
    ensures CountFalse(s) >= 2 <==> exists i, j :: 0 <= i < j < |s| && !s[i] && !s[j]
  {
    if s != [] {
      var init := s[..|s| - 1];
      var last := |s| - 1;
      assert s == init + [s[last]];
      CountFalseTwo(init);
      CountFalsePositive(init);
      if CountFalse(s) >= 2 {
        if s[last] {
          var i, j :| 0 <= i < j < |init| && !init[i] && !init[j];
          assert !s[i] && !s[j];
        } else if CountFalse(init) >= 2 {
          var i, j :| 0 <= i < j < |init| && !init[i] && !init[j];
          assert !s[i] && !s[j];
        } else {
          var i :| 0 <= i < |init| && init[i] == false;
          assert !s[i] && !s[last];
        }
      }
      if exists i, j :: 0 <= i < j < |s| && !s[i] && !s[j] {
        var i, j :| 0 <= i < j < |s| && !s[i] && !s[j];
        if j < last {
          assert !init[i] && !init[j];
        } else {
          assert init[i] == false;
        }
      }
    }
  }

  /** A seat that has neither folded nor been folded by the clock. */
  predicate StaysIn(valTurn: string)
  {
    valTurn != Fold && valTurn != AutoFold
  }

  /** `updatePlayersLeftInHand`: the seats that stay in, in seat order. */
  function StillIn(ps: seq<Player>): (r: seq<Player>)
    reads (set p | p in ps)`valTurn
    ensures |r| <= |ps|
  {
    if ps == [] then []
    else StillIn(ps[..|ps| - 1]) + (if StaysIn(ps[|ps| - 1].valTurn) then [ps[|ps| - 1]] else [])
  }

  /** The filter keeps exactly the seats that stay in. */
  lemma {:induction false} StillInMembers(ps: seq<Player>)
    ensures forall p :: p in StillIn(ps) <==> p in ps && StaysIn(p.valTurn)
  {
    if ps != [] {
      var init := ps[..|ps| - 1];
      assert ps == init + [ps[|ps| - 1]];
      StillInMembers(init);
    }
  }

  /** The filter works piecewise, so it keeps the seat order. */
  lemma {:induction false} StillInAppend(a: seq<Player>, b: seq<Player>)
    ensures StillIn(a + b) == StillIn(a) + StillIn(b)
  {
    if b == [] {
      assert a + b == a;
    } else {
      var init := b[..|b| - 1];
      assert (a + b)[..|a + b| - 1] == a + init;
      StillInAppend(a, init);
    }
  }

  /** A seat's action and round contribution after `clearMoves`, given its round
      contribution before and whether fewer than two seats could still bet. */
  ghost predicate MovesCleared(p: Player, oldRound: int, fewActive: bool)
    reads p`allIn, p`valTurn, p`currMoneyInBettingRound
  {
    if p.allIn then p.valTurn == PlayerIsAllIn && p.currMoneyInBettingRound == oldRound
    else if fewActive then p.valTurn == Check && p.currMoneyInBettingRound == oldRound
    else p.valTurn == Undecided && p.currMoneyInBettingRound == 0
  }

  /** The loop state of `clearMoves` after the first i seats, given every seat's round
      contribution and all-in flag before the loop. */
  ghost predicate ClearedUpTo(ps: seq<Player>, i: int, rounds: seq<int>, allIns: seq<bool>, few: bool)
    reads set p | p in ps
  {
    0 <= i <= |ps| && |rounds| == |ps| && DistinctSeats(ps) &&
    |allIns| == |ps| && (forall k :: 0 <= k < |ps| ==> ps[k].allIn == allIns[k]) &&
    (forall k :: 0 <= k < i ==> MovesCleared(ps[k], rounds[k], few)) &&
    (forall k :: i <= k < |ps| ==> ps[k].currMoneyInBettingRound == rounds[k])
  }

  /** The seats' round contributions and all-in flags are `rounds` and `allIns`. */
  ghost predicate RoundState(ps: seq<Player>, rounds: seq<int>, allIns: seq<bool>)
    reads (set p | p in ps)`currMoneyInBettingRound, (set p | p in ps)`allIn
  {
    |rounds| == |ps| && |allIns| == |ps| &&
    forall k :: 0 <= k < |ps| ==> ps[k].currMoneyInBettingRound == rounds[k] && ps[k].allIn == allIns[k]
  }

  /** Every seat's move is cleared as `clearMoves` leaves it, given the round
      contributions before and whether fewer than two seats could still bet. */
  ghost predicate AllMovesCleared(ps: seq<Player>, rounds: seq<int>, few: bool)
    reads set p | p in ps
  {
    |rounds| == |ps| && forall i :: 0 <= i < |ps| ==> MovesCleared(ps[i], rounds[i], few)
  }

  /** What a blind costs a seat: the blind, or the whole stack when that is smaller; a
      seat without chips is not eligible and posts nothing. */
  function BlindAmount(blind: int, stack: int): (r: int)
    ensures stack <= 0 ==> r == 0
    ensures stack > 0 ==> r <= stack && r <= blind && (r == blind || r == stack)
  {
    if stack > 0 then (if blind < stack then blind else stack) else 0
  }

  /** What the two blinds of a hand add to the pot. The small blind is posted first;
      when both blinds fall on one seat (two seats sharing a name make `getNextPlayer`
      land on the same seat twice), the big blind is taken from what is left of it. */
  function BlindsPosted(small: int, big: int, smallStack: int, bigStack: int, sameSeat: bool): (r: int)
    ensures sameSeat && smallStack > 0 ==> r <= smallStack
    ensures !sameSeat && smallStack > 0 && bigStack > 0 ==>
      r <= smallStack + bigStack && r <= small + big
  {
    var first := BlindAmount(small, smallStack);
    first + BlindAmount(big, if sameSeat then smallStack - first else bigStack)
  }

  class PokerHand {
    const theGame: PokerGame
    var communityCards: seq<Card>
    const playersInHand: seq<Player>
    const dealerIdx: Option<nat>
    const dealer: Player?
    const bigBlind: Player?
    var initialRaiser: Player?
    var currPlayer: Player?
    var moneyInPot: int
    var currBet: int
    var preflop: bool
    var handComplete: bool
    var flopDealt: bool
    var turnDealt: bool
    var riverDealt: bool
    /** The seats' names as the hand was dealt; seat lookups go by name. */
    ghost const seatNames: seq<string>

    /** The seats named by the hand's fields sit in the hand, the dealer at `dealerIdx`;
        with nobody in the hand there are no such seats (`dealerIdx` is the `NaN` of
        `% 0`). */
    ghost predicate ValidSeats()
      reads this`currPlayer, this`initialRaiser
    {
      SeatsValid(playersInHand, dealerIdx, dealer, bigBlind, currPlayer, initialRaiser)
    }

    /** `seatNames` lists the names of the seats, in seat order. */
    ghost predicate NamesKnown()
    {
      |seatNames| == |playersInHand| &&
      forall i :: 0 <= i < |playersInHand| ==> playersInHand[i].name == seatNames[i]
    }

    /** Streets come in order, each one adding its cards to the board: 0, 3, 4, 5. */
    ghost predicate StreetsInOrder()
      reads this`communityCards, this`preflop, this`flopDealt, this`turnDealt, this`riverDealt
    {
      (turnDealt ==> flopDealt) && (riverDealt ==> turnDealt) && (preflop <==> !flopDealt) &&
      |communityCards| == (if riverDealt then 5 else if turnDealt then 4 else if flopDealt then 3 else 0)
    }

    ghost predicate Valid()
      reads this`currPlayer,
            this`initialRaiser, this`communityCards, this`preflop, this`flopDealt, this`turnDealt, this`riverDealt,
            theGame, theGame.deck, theGame.deck.deck
    {
      theGame.Valid() && ValidSeats() && StreetsInOrder()
    }

    /** A new hand over the seats of `game` that have chips: the dealer is the game's
        dealer counter modulo their number, the big blind two seats on and the first
        to act three seats on; no board, no pot, no bet, before the flop. With no seat
        eligible there is no dealer (`% 0` is `NaN`). The source's constructor then
        runs the hand; here `PokerGame.NewHand` calls `RunHand` straight after. */
    constructor (game: PokerGame)
      requires game.Valid()
      ensures theGame == game && Valid() && NamesKnown()
      ensures IsEligible(game.players, playersInHand)
      ensures playersInHand == [] ==> dealerIdx == None
      ensures playersInHand != [] ==> dealerIdx == Some(game.dealerIdx % |playersInHand|)
      ensures bigBlind == BigBlindSeat() && currPlayer == SeatAfter(BigBlindSeat())
      ensures communityCards == [] && initialRaiser == null && moneyInPot == 0 && currBet == 0
      ensures preflop && !handComplete && !flopDealt && !turnDealt && !riverDealt
    {
      theGame := game;
      communityCards := [];
      var ps := game.GetEligiblePlayers();
      EligibleDistinct(game.players, ps);
      var names := Names(ps);
      playersInHand := ps;
      seatNames := names;
      if ps == [] {
        dealerIdx := None;
        dealer := null;
        bigBlind := null;
        currPlayer := null;
      } else {
        var d := game.dealerIdx % |ps|;
        var small := NextSeat(names, names[d]);
        var big := NextSeat(names, names[small]);
        dealerIdx := Some(d);
        dealer := ps[d];
        bigBlind := ps[big];
        currPlayer := ps[NextSeat(names, names[big])];
      }
      initialRaiser := null;
      moneyInPot := 0;
      currBet := 0;
      preflop := true;
      handComplete := false;
      flopDealt := false;
      turnDealt := false;
      riverDealt := false;
    }

    /** The chips of the hand: the seats' stacks plus the pot. */
    ghost function TotalChips(): int
      reads this`moneyInPot, (set p | p in playersInHand)`stackSize
    {
      StackTotal(playersInHand) + moneyInPot
    }

    /** The seat after p in turn order; no seat at all in an empty hand. */
    ghost function SeatAfter(p: Player?): (r: Player?)
      ensures playersInHand != [] && p != null && |seatNames| == |playersInHand| ==> r != null && r in playersInHand
    {
      if playersInHand == [] || p == null || |seatNames| != |playersInHand| then null
      else playersInHand[NextSeat(seatNames, p.name)]
    }

    /** The seat after the dealer, which posts the small blind. */
    ghost function SmallBlindSeat(): Player?
    {
      SeatAfter(dealer)
    }

    /** The second seat after the dealer, which posts the big blind. */
    ghost function BigBlindSeat(): Player?
    {
      SeatAfter(SeatAfter(dealer))
    }

    /** With no two seats sharing a name, the small blind sits one seat after the dealer
        and the big blind two, cyclically; with two or more seats they are different
        seats, so both blinds are posted. */
    lemma BlindSeatPositions()
      requires ValidSeats() && NamesKnown() && NoRepeats(seatNames) && playersInHand != []
      ensures SmallBlindSeat() == playersInHand[(dealerIdx.value + 1) % |playersInHand|]
      ensures BigBlindSeat() == playersInHand[(dealerIdx.value + 2) % |playersInHand|]
      ensures |playersInHand| >= 2 ==> SmallBlindSeat() != BigBlindSeat()
    {
      var n, d := |playersInHand|, dealerIdx.value;
      SeatsAfterDealer(seatNames, d);
      var small := NextSeat(seatNames, seatNames[d]);
      assert dealer.name == seatNames[d];
      assert SmallBlindSeat() == playersInHand[small];
      assert playersInHand[small].name == seatNames[small];
      if n >= 2 {
        NeighbourSeatsDiffer(d, n);
      }
    }

    /** With no two seats sharing a name and two or more seats, each blind comes out of
        its own seat's stack, in full or as much of it as there is. */
    lemma DistinctNamesPostBothBlinds()
      requires ValidSeats() && NamesKnown() && NoRepeats(seatNames) && |playersInHand| >= 2
      ensures BlindsPosted(theGame.smallBlind, theGame.bigBlind, SmallBlindSeat().stackSize,
                           BigBlindSeat().stackSize, SmallBlindSeat() == BigBlindSeat()) ==
              BlindAmount(theGame.smallBlind, SmallBlindSeat().stackSize) +
              BlindAmount(theGame.bigBlind, BigBlindSeat().stackSize)
    {
      BlindSeatPositions();
    }

    /** The hand has moved one street on from `street0`: the board is `board0` followed by
        the `size` cards under the deck cursor `c0`, and a betting round has started with
        `first` to act, given the round contributions and all-in flags before. */
    ghost predicate DealtNext(street0: nat, c0: int, board0: seq<Card>, size: nat,
                              rounds: seq<int>, allIns: seq<bool>, first: Player?)
      reads this`currPlayer,
            this`initialRaiser, this`communityCards, this`preflop, this`flopDealt, this`turnDealt, this`riverDealt,
            this`currBet, theGame, theGame.deck, theGame.deck.deck, set p | p in playersInHand
    {
      Valid() && Street() == street0 + 1 && 0 <= c0 && c0 + size <= 52 && theGame.deck.deckCounter == c0 + size &&
      communityCards == board0 + theGame.deck.deck[c0..theGame.deck.deckCounter] &&
      currBet == 0 && currPlayer == first && initialRaiser == null &&
      AllMovesCleared(playersInHand, rounds, CountFalse(allIns) < 2)
    }

    /** `checkIfPlayersLeftToAct` before its side effect: someone has not acted yet, or
        the action has not come back round to the last raiser. */
    ghost predicate LeftToAct()
      reads this`currPlayer, this`initialRaiser, (set p | p in playersInHand)`valTurn
    {
      Undecided in ValTurns(playersInHand) || currPlayer != initialRaiser
    }

    /** How many cards the next street puts on the board. */
    function StreetSize(): nat
      reads this`flopDealt, this`riverDealt
    {
      if !flopDealt then 3 else if !riverDealt then 1 else 0
    }

    /** `getNextPlayer`: the seat after the first seat with that player's name, the last
        seat wrapping to the first; an unknown name gives the first seat. With nobody in
        the hand the result is `undefined`, here `null`. */
    method GetNextPlayer(player: Player?) returns (r: Player?)
      requires NamesKnown() && (playersInHand != [] ==> player != null)
      ensures r == SeatAfter(player)
    {
      var i := 0;
      while i < |playersInHand|
        invariant 0 <= i <= |playersInHand|
        invariant forall k :: 0 <= k < i ==> playersInHand[k].name != player.name
      {
        if playersInHand[i].name == player.name {
          FirstIndexOfUnique(seatNames, i);
          if i == |playersInHand| - 1 {
            return playersInHand[0];
          } else {
            return playersInHand[i + 1];
          }
        }
        i := i + 1;
      }
      if playersInHand == [] {
        return null;
      }
      return playersInHand[0];
    }

    /** `getIndexOfPlayer`: the first seat with that player's name, or -1. */
    method GetIndexOfPlayer(player: Player) returns (r: int)
      ensures player.name !in Names(playersInHand) ==> r == -1
      ensures player.name in Names(playersInHand) ==> r == FirstIndex(Names(playersInHand), player.name).value
    {
      var i := 0;
      while i < |playersInHand|
        invariant 0 <= i <= |playersInHand|
        invariant forall k :: 0 <= k < i ==> playersInHand[k].name != player.name
      {
        if player.name == playersInHand[i].name {
          FirstIndexOfUnique(Names(playersInHand), i);
          return i;
        }
        i := i + 1;
      }
      return -1;
    }

    /** `lessThanTwoCanPlay`: fewer than two seats in the hand are not all-in. */
    method LessThanTwoCanPlay() returns (b: bool)
      ensures b <==> CanAct(playersInHand) < 2
    {
      var ps := playersInHand;
      var numPlayersNotAllIn := 0;
      var i := 0;
      while i < |ps|
        invariant 0 <= i <= |ps|
        invariant numPlayersNotAllIn == CanAct(ps[..i])
      {
        assert ps[..i + 1][..i] == ps[..i];
        if !ps[i].allIn {
          numPlayersNotAllIn := numPlayersNotAllIn + 1;
        }
        i := i + 1;
      }
      assert ps[..i] == ps;
      b := numPlayersNotAllIn < 2;
    }

    /** `checkIfPlayersLeftToAct`: true while a seat has not acted or the action has not
        come back to the last raiser; when it has, the seat to act loses the turn flag.
        The source dereferences `currPlayer`, so the hand must not be empty. */
    method CheckIfPlayersLeftToAct() returns (b: bool)
      requires ValidSeats() && playersInHand != []
      modifies currPlayer`isTurn
      ensures b <==> old(LeftToAct())
      ensures !b ==> !currPlayer.isTurn
      ensures b ==> currPlayer.isTurn == old(currPlayer.isTurn)
      ensures unchanged(this, theGame, theGame.deck, theGame.deck.deck)
    {
      var i := 0;
      while i < |playersInHand|
        invariant 0 <= i <= |playersInHand|
        invariant forall k :: 0 <= k < i ==> playersInHand[k].valTurn != Undecided
      {
        if playersInHand[i].valTurn == Undecided {
          return true;
        }
        i := i + 1;
      }
      if currPlayer == initialRaiser {
        currPlayer.SetTurn(false);
        return false;
      }
      return true;
    }

    /** `updatePlayersLeftInHand`: the seats that have not folded, in seat order; the
        hand itself is not changed. */
    method UpdatePlayersLeftInHand() returns (r: seq<Player>)
      ensures r == StillIn(playersInHand)
    {
      r := [];
      var i := 0;
      while i < |playersInHand|
        invariant 0 <= i <= |playersInHand|
        invariant r == StillIn(playersInHand[..i])
      {
        assert playersInHand[..i + 1][..i] == playersInHand[..i];
        if playersInHand[i].valTurn != Fold && playersInHand[i].valTurn != AutoFold {
          r := r + [playersInHand[i]];
        }
        i := i + 1;
      }
      assert playersInHand[..i] == playersInHand;
    }

    /** `clearMoves`: all-in seats are marked so; the others check when fewer than two
        seats can still bet, and otherwise start the round undecided with nothing in it.
        Stacks, contributions to the pot and the pot itself stay. */
    method ClearMoves(ghost rounds: seq<int>, ghost allIns: seq<bool>)
      requires DistinctSeats(playersInHand) && RoundState(playersInHand, rounds, allIns)
      modifies (set p | p in playersInHand)`valTurn, (set p | p in playersInHand)`currMoneyInBettingRound
      ensures AllMovesCleared(playersInHand, rounds, CountFalse(allIns) < 2)
      ensures unchanged(this, theGame, theGame.deck, theGame.deck.deck)
    {
      var ps := playersInHand;
      ghost var few := CountFalse(allIns) < 2;
      var i := 0;
      while i < |ps|
        invariant ClearedUpTo(ps, i, rounds, allIns, few)
      {
        ClearNextMove(ps, i, rounds, allIns, few);
        i := i + 1;
      }
    }

    /** `lessThanTwoCanPlay` asked with the all-in flags known to be `allIns`. */
    method FewCanPlay(ghost allIns: seq<bool>) returns (b: bool)
      requires |allIns| == |playersInHand|
      requires forall k :: 0 <= k < |playersInHand| ==> playersInHand[k].allIn == allIns[k]
      ensures b <==> CountFalse(allIns) < 2
    {
      b := LessThanTwoCanPlay();
      CanActIsCountFalse(playersInHand);
      AllInsAgree(playersInHand, allIns);
    }

    /** One seat of `clearMoves`; a seat that is not all-in asks `lessThanTwoCanPlay`. */
    method ClearNextMove(ps: seq<Player>, i: int, ghost rounds: seq<int>, ghost allIns: seq<bool>, ghost few: bool)
      requires ps == playersInHand && ClearedUpTo(ps, i, rounds, allIns, few) && i < |ps|
      requires few <==> CountFalse(allIns) < 2
      modifies {ps[i]}`valTurn, {ps[i]}`currMoneyInBettingRound
      ensures ClearedUpTo(ps, i + 1, rounds, allIns, few)
    {
      var p := ps[i];
      if p.allIn {
        p.SetValTurn(PlayerIsAllIn);
      } else {
        var fewActive := FewCanPlay(allIns);
        if fewActive {
          p.SetValTurn(Check);
        } else {
          p.SetValTurn(Undecided);
          p.SetCurrMoneyInBettingRound(0);
        }
      }
    }

    /** How far the board has come: 0 before the flop, then 1, 2 and 3 once the flop,
        the turn and the river are out. */
    function Street(): (s: nat)
      reads this`flopDealt, this`turnDealt, this`riverDealt
      ensures s <= 3
    {
      if riverDealt then 3 else if turnDealt then 2 else if flopDealt then 1 else 0
    }

    /** `eligibleForBlinds`: only a seat with chips posts a blind. */
    predicate EligibleForBlinds(person: Player)
      reads person`stackSize
    {
      person.stackSize > 0
    }

    /** The body `collectSmallBlind` and `collectBigBlind` share: an eligible seat moves
        the smaller of the blind and its stack from its stack into its hand and round
        contributions and into the pot. No chip is created or lost. */
    method PostBlind(seat: Player, blind: int)
      requires DistinctSeats(playersInHand) && seat in playersInHand
      modifies this`moneyInPot, seat`stackSize, seat`currMoneyInPot, seat`currMoneyInBettingRound
      ensures var amount := BlindAmount(blind, old(seat.stackSize));
        seat.stackSize == old(seat.stackSize) - amount && moneyInPot == old(moneyInPot) + amount &&
        seat.currMoneyInPot == old(seat.currMoneyInPot) + amount &&
        seat.currMoneyInBettingRound == old(seat.currMoneyInBettingRound) + amount
      ensures TotalChips() == old(TotalChips())
    {
      var ps := playersInHand;
      ghost var st := Stacks(ps);
      StackTotalIsSum(ps);
      ghost var k :| 0 <= k < |ps| && ps[k] == seat;
      if EligibleForBlinds(seat) {
        var amount := if blind <= seat.stackSize then blind else seat.stackSize;
        seat.MinusFromStack(amount);
        seat.AddCurrMoneyInPot(amount);
        seat.AddCurrMoneyInBettingRound(amount);
        moneyInPot := moneyInPot + amount;
        StacksAfterUpdate(ps, k, st);
        SumUpdate(st, k, seat.stackSize);
        StackTotalIsSum(ps);
      }
    }

    /** `collectSmallBlind`: the seat after the dealer posts the small blind. */
    method CollectSmallBlind() returns (ghost seat: Player)
      requires ValidSeats() && NamesKnown() && playersInHand != []
      modifies this`moneyInPot, {SmallBlindSeat()}`stackSize, {SmallBlindSeat()}`currMoneyInPot, {SmallBlindSeat()}`currMoneyInBettingRound
      ensures seat == SmallBlindSeat()
      ensures var amount := BlindAmount(theGame.smallBlind, old(seat.stackSize));
        seat.stackSize == old(seat.stackSize) - amount && moneyInPot == old(moneyInPot) + amount &&
        seat.currMoneyInPot == old(seat.currMoneyInPot) + amount &&
        seat.currMoneyInBettingRound == old(seat.currMoneyInBettingRound) + amount
      ensures TotalChips() == old(TotalChips())
      ensures unchanged(theGame, theGame.deck, theGame.deck.deck)
      ensures unchanged(this`communityCards, this`preflop, this`flopDealt, this`turnDealt, this`riverDealt)
    {
      var next := GetNextPlayer(dealer);
      seat := next;
      PostBlind(next, theGame.smallBlind);
    }

    /** `collectBigBlind`: the second seat after the dealer posts the big blind. */
    method CollectBigBlind() returns (ghost seat: Player)
      requires ValidSeats() && NamesKnown() && playersInHand != []
      modifies this`moneyInPot, {BigBlindSeat()}`stackSize, {BigBlindSeat()}`currMoneyInPot, {BigBlindSeat()}`currMoneyInBettingRound
      ensures seat == BigBlindSeat()
      ensures var amount := BlindAmount(theGame.bigBlind, old(seat.stackSize));
        seat.stackSize == old(seat.stackSize) - amount && moneyInPot == old(moneyInPot) + amount &&
        seat.currMoneyInPot == old(seat.currMoneyInPot) + amount &&
        seat.currMoneyInBettingRound == old(seat.currMoneyInBettingRound) + amount
      ensures TotalChips() == old(TotalChips())
      ensures unchanged(theGame, theGame.deck, theGame.deck.deck)
      ensures unchanged(this`communityCards, this`preflop, this`flopDealt, this`turnDealt, this`riverDealt)
    {
      var next := GetNextPlayer(dealer);
      var after := GetNextPlayer(next);
      seat := after;
      PostBlind(after, theGame.bigBlind);
    }

    /** `dealFlop`: the next three cards of the deck go on the board. */
    method DealFlop()
      requires theGame.Valid() && theGame.deck.deckCounter + 3 <= 52
      modifies this`communityCards, theGame.deck`deckCounter
      ensures theGame.Valid() && theGame.deck.deckCounter == old(theGame.deck.deckCounter) + 3
      ensures communityCards == old(communityCards) + theGame.deck.deck[old(theGame.deck.deckCounter)..theGame.deck.deckCounter]
    {
      var c1 := theGame.DealCard();
      var c2 := theGame.DealCard();
      var c3 := theGame.DealCard();
      communityCards := communityCards + [c1, c2, c3];
    }

    /** `dealTurn`: the next card of the deck goes on the board. */
    method DealTurn()
      requires theGame.Valid() && theGame.deck.deckCounter < 52
      modifies this`communityCards, theGame.deck`deckCounter
      ensures theGame.Valid() && theGame.deck.deckCounter == old(theGame.deck.deckCounter) + 1
      ensures communityCards == old(communityCards) + [theGame.deck.deck[old(theGame.deck.deckCounter)]]
    {
      var c := theGame.DealCard();
      communityCards := communityCards + [c];
    }

    /** `dealRiver`: the next card of the deck goes on the board. */
    method DealRiver()
      requires theGame.Valid() && theGame.deck.deckCounter < 52
      modifies this`communityCards, theGame.deck`deckCounter
      ensures theGame.Valid() && theGame.deck.deckCounter == old(theGame.deck.deckCounter) + 1
      ensures communityCards == old(communityCards) + [theGame.deck.deck[old(theGame.deck.deckCounter)]]
    {
      var c := theGame.DealCard();
      communityCards := communityCards + [c];
    }

    /** `callTurnOnNextPlayer`: the source leaves the body empty. */
    method CallTurnOnNextPlayer()
    {
    }

    /** The steps every street repeats once its cards are out: no bet stands, the seat
        after the dealer (`first`) acts first, nobody has raised and the moves are
        cleared, given the round contributions and all-in flags before; then the next
        seat is called, at once or (when fewer than two can act) after a delay the model
        leaves out. */
    method StartBettingRound(ghost rounds: seq<int>, ghost allIns: seq<bool>, ghost first: Player?)
      requires ValidSeats() && playersInHand != [] && RoundState(playersInHand, rounds, allIns)
      requires NamesKnown() && first == SmallBlindSeat()
      modifies this`currBet, this`currPlayer, this`initialRaiser,
               (set p | p in playersInHand)`valTurn, (set p | p in playersInHand)`currMoneyInBettingRound
      ensures ValidSeats() && currBet == 0 && currPlayer == first && initialRaiser == null
      ensures unchanged(theGame, theGame.deck, theGame.deck.deck)
      ensures unchanged(this`communityCards, this`preflop, this`flopDealt, this`turnDealt, this`riverDealt)
      ensures AllMovesCleared(playersInHand, rounds, CountFalse(allIns) < 2)
    {
      ResetAction(first);
      ClearMoves(rounds, allIns);
      var fewCanAct := LessThanTwoCanPlay();
      CallTurnOnNextPlayer();
    }

    /** The first half of a new betting round: no bet, first to act after the dealer,
        no raiser. */
    method ResetAction(ghost first: Player?)
      requires ValidSeats() && NamesKnown() && playersInHand != [] && first == SmallBlindSeat()
      modifies this`currBet, this`currPlayer, this`initialRaiser
      ensures ValidSeats() && currBet == 0 && currPlayer == first && initialRaiser == null
      ensures unchanged(theGame, theGame.deck, theGame.deck.deck)
      ensures unchanged(this`communityCards, this`preflop, this`flopDealt, this`turnDealt, this`riverDealt)
    {
      var next := GetNextPlayer(dealer);
      assert next == SeatAfter(dealer) && next in playersInHand;
      currBet := 0;
      currPlayer := next;
      initialRaiser := null;
    }

    /** The three dealing branches of `updateHand`: the next street's cards go on the
        board, a new betting round starts, and the street is marked dealt. */
    method AdvanceStreet(ghost rounds: seq<int>, ghost allIns: seq<bool>, ghost first: Player?)
      requires Valid() && playersInHand != [] && !riverDealt
      requires theGame.deck.deckCounter + StreetSize() <= 52
      requires RoundState(playersInHand, rounds, allIns) && NamesKnown() && first == SmallBlindSeat()
      modifies this`communityCards, this`preflop, this`flopDealt, this`turnDealt, this`riverDealt,
               this`currBet, this`currPlayer, this`initialRaiser, theGame.deck`deckCounter,
               (set p | p in playersInHand)`valTurn, (set p | p in playersInHand)`currMoneyInBettingRound
      ensures DealtNext(old(Street()), old(theGame.deck.deckCounter), old(communityCards), old(StreetSize()),
                        rounds, allIns, first)
    {
      if !flopDealt {
        FlopRound(rounds, allIns, first);
      } else if !turnDealt {
        TurnRound(rounds, allIns, first);
      } else {
        RiverRound(rounds, allIns, first);
      }
    }

    /** The flop branch: the pre-flop round ends, three cards go on the board and a
        betting round starts. */
    method FlopRound(ghost rounds: seq<int>, ghost allIns: seq<bool>, ghost first: Player?)
      requires Valid() && playersInHand != [] && !flopDealt && theGame.deck.deckCounter + 3 <= 52
      requires RoundState(playersInHand, rounds, allIns) && NamesKnown() && first == SmallBlindSeat()
      modifies this`communityCards, this`preflop, this`flopDealt, this`turnDealt, this`riverDealt,
               this`currBet, this`currPlayer, this`initialRaiser, theGame.deck`deckCounter,
               (set p | p in playersInHand)`valTurn, (set p | p in playersInHand)`currMoneyInBettingRound
      ensures Valid() && Street() == old(Street()) + 1
      ensures theGame.deck.deckCounter == old(theGame.deck.deckCounter) + old(StreetSize())
      ensures communityCards == old(communityCards) + theGame.deck.deck[old(theGame.deck.deckCounter)..theGame.deck.deckCounter]
      ensures currBet == 0 && currPlayer == first && initialRaiser == null
      ensures AllMovesCleared(playersInHand, rounds, CountFalse(allIns) < 2)
    {
      ShowFlop();
      StartBettingRound(rounds, allIns, first);
    }

    /** The turn branch: one card goes on the board and a betting round starts. */
    method TurnRound(ghost rounds: seq<int>, ghost allIns: seq<bool>, ghost first: Player?)
      requires Valid() && playersInHand != [] && flopDealt && !turnDealt && theGame.deck.deckCounter < 52
      requires RoundState(playersInHand, rounds, allIns) && NamesKnown() && first == SmallBlindSeat()
      modifies this`communityCards, this`preflop, this`flopDealt, this`turnDealt, this`riverDealt,
               this`currBet, this`currPlayer, this`initialRaiser, theGame.deck`deckCounter,
               (set p | p in playersInHand)`valTurn, (set p | p in playersInHand)`currMoneyInBettingRound
      ensures Valid() && Street() == old(Street()) + 1
      ensures theGame.deck.deckCounter == old(theGame.deck.deckCounter) + old(StreetSize())
      ensures communityCards == old(communityCards) + theGame.deck.deck[old(theGame.deck.deckCounter)..theGame.deck.deckCounter]
      ensures currBet == 0 && currPlayer == first && initialRaiser == null
      ensures AllMovesCleared(playersInHand, rounds, CountFalse(allIns) < 2)
    {
      ShowTurn();
      StartBettingRound(rounds, allIns, first);
    }

    /** The river branch: one card goes on the board and a betting round starts. */
    method RiverRound(ghost rounds: seq<int>, ghost allIns: seq<bool>, ghost first: Player?)
      requires Valid() && playersInHand != [] && turnDealt && !riverDealt && theGame.deck.deckCounter < 52
      requires RoundState(playersInHand, rounds, allIns) && NamesKnown() && first == SmallBlindSeat()
      modifies this`communityCards, this`preflop, this`flopDealt, this`turnDealt, this`riverDealt,
               this`currBet, this`currPlayer, this`initialRaiser, theGame.deck`deckCounter,
               (set p | p in playersInHand)`valTurn, (set p | p in playersInHand)`currMoneyInBettingRound
      ensures Valid() && Street() == old(Street()) + 1
      ensures theGame.deck.deckCounter == old(theGame.deck.deckCounter) + old(StreetSize())
      ensures communityCards == old(communityCards) + theGame.deck.deck[old(theGame.deck.deckCounter)..theGame.deck.deckCounter]
      ensures currBet == 0 && currPlayer == first && initialRaiser == null
      ensures AllMovesCleared(playersInHand, rounds, CountFalse(allIns) < 2)
    {
      ShowRiver();
      StartBettingRound(rounds, allIns, first);
    }

    /** The board step of the flop branch and its flags. */
    method ShowFlop()
      requires Valid() && !flopDealt && theGame.deck.deckCounter + 3 <= 52
      modifies this`communityCards, this`preflop, this`flopDealt, this`turnDealt, this`riverDealt,
               theGame.deck`deckCounter
      ensures Valid() && Street() == old(Street()) + 1
      ensures theGame.deck.deckCounter == old(theGame.deck.deckCounter) + old(StreetSize())
      ensures communityCards == old(communityCards) + theGame.deck.deck[old(theGame.deck.deckCounter)..theGame.deck.deckCounter]
    {
      preflop := false;
      DealFlop();
      flopDealt := true;
    }

    /** The board step of the turn branch and its flag. */
    method ShowTurn()
      requires Valid() && flopDealt && !turnDealt && theGame.deck.deckCounter < 52
      modifies this`communityCards, this`preflop, this`flopDealt, this`turnDealt, this`riverDealt,
               theGame.deck`deckCounter
      ensures Valid() && Street() == old(Street()) + 1
      ensures theGame.deck.deckCounter == old(theGame.deck.deckCounter) + old(StreetSize())
      ensures communityCards == old(communityCards) + theGame.deck.deck[old(theGame.deck.deckCounter)..theGame.deck.deckCounter]
    {
      DealTurn();
      turnDealt := true;
    }

    /** The board step of the river branch and its flag. */
    method ShowRiver()
      requires Valid() && turnDealt && !riverDealt && theGame.deck.deckCounter < 52
      modifies this`communityCards, this`preflop, this`flopDealt, this`turnDealt, this`riverDealt,
               theGame.deck`deckCounter
      ensures Valid() && Street() == old(Street()) + 1
      ensures theGame.deck.deckCounter == old(theGame.deck.deckCounter) + old(StreetSize())
      ensures communityCards == old(communityCards) + theGame.deck.deck[old(theGame.deck.deckCounter)..theGame.deck.deckCounter]
    {
      DealRiver();
      riverDealt := true;
    }

    /** The one-seat branch of `updateHand`: the last seat takes the pot, the hand is
        complete and the table is cleared for the next hand. The pot is not emptied;
        the clearing drops the hand. */
    method AwardLastSeat()
      requires Valid() && |playersInHand| == 1
      modifies this`handComplete, (set p | p in playersInHand)`stackSize,
               theGame`deck, theGame`hand, theGame`handNumber, theGame`dealerIdx,
               (set p | p in theGame.players)`currMoneyInPot, (set p | p in theGame.players)`valTurn,
               (set p | p in theGame.players)`currMoneyInBettingRound, (set p | p in theGame.players)`allIn
      ensures playersInHand[0].stackSize == old(playersInHand[0].stackSize) + moneyInPot
      ensures handComplete && Valid() && theGame.ClearedFrom(old(theGame.dealerIdx), old(theGame.handNumber))
    {
      playersInHand[0].AddToStack(moneyInPot);
      handComplete := true;
      theGame.ClearGame();
      handComplete := true;
    }

    /** `calculateAndAwardPots`: the source does not share the pot out yet; it marks
        the hand complete and clears the table. */
    method CalculateAndAwardPots()
      requires Valid()
      modifies this`handComplete,
               theGame`deck, theGame`hand, theGame`handNumber, theGame`dealerIdx,
               (set p | p in theGame.players)`currMoneyInPot, (set p | p in theGame.players)`valTurn,
               (set p | p in theGame.players)`currMoneyInBettingRound, (set p | p in theGame.players)`allIn
      ensures handComplete && Valid() && theGame.ClearedFrom(old(theGame.dealerIdx), old(theGame.handNumber))
    {
      handComplete := true;
      theGame.ClearGame();
    }

    /** `runHand` without its messages: with two or more seats the blinds are posted,
        the deck is shuffled and dealt, the big blind is the last to have raised and
        the hand is updated; with fewer seats nothing happens. The pot grows by both
        blinds (`BlindsPosted`), taken from one stack when the two blind seats coincide. */
    method RunHand()
      requires Valid() && NamesKnown()
      requires theGame.deck.deckCounter + 2 * |theGame.players| + StreetSize() <= 52
      modifies this`handComplete, this`communityCards, this`preflop, this`flopDealt, this`turnDealt,
               this`riverDealt, this`currBet, this`currPlayer, this`initialRaiser, this`moneyInPot,
               (set p | p in playersInHand)`isTurn,
               (set p | p in playersInHand)`valTurn, (set p | p in playersInHand)`currMoneyInBettingRound,
               (set p | p in playersInHand)`stackSize, (set p | p in playersInHand)`currMoneyInPot,
               theGame`deck, theGame`hand, theGame`handNumber, theGame`dealerIdx,
               theGame.deck`deckCounter, theGame.deck.deck, (set p | p in theGame.players)`hand,
               (set p | p in theGame.players)`currMoneyInPot, (set p | p in theGame.players)`valTurn,
               (set p | p in theGame.players)`currMoneyInBettingRound, (set p | p in theGame.players)`allIn
      ensures Valid()
      ensures |playersInHand| <= 1 ==>
        unchanged(this, theGame, old(theGame.deck), old(theGame.deck.deck)) &&
        unchanged(set p | p in theGame.players) && unchanged(set p | p in playersInHand)
      ensures |playersInHand| > 1 ==>
        moneyInPot == old(moneyInPot) + BlindsPosted(theGame.smallBlind, theGame.bigBlind,
          old(SmallBlindSeat().stackSize), old(BigBlindSeat().stackSize), SmallBlindSeat() == BigBlindSeat())
    {
      if |playersInHand| > 1 {
        PlayHand();
      }
    }

    /** `runHand` for two or more seats: blinds, dealing, then the first update. */
    method PlayHand()
      requires Valid() && NamesKnown() && |playersInHand| > 1
      requires theGame.deck.deckCounter + 2 * |theGame.players| + StreetSize() <= 52
      modifies this`handComplete, this`communityCards, this`preflop, this`flopDealt, this`turnDealt,
               this`riverDealt, this`currBet, this`currPlayer, this`initialRaiser, this`moneyInPot,
               (set p | p in playersInHand)`isTurn,
               (set p | p in playersInHand)`valTurn, (set p | p in playersInHand)`currMoneyInBettingRound,
               (set p | p in playersInHand)`stackSize, (set p | p in playersInHand)`currMoneyInPot,
               theGame`deck, theGame`hand, theGame`handNumber, theGame`dealerIdx,
               theGame.deck`deckCounter, theGame.deck.deck, (set p | p in theGame.players)`hand,
               (set p | p in theGame.players)`currMoneyInPot, (set p | p in theGame.players)`valTurn,
               (set p | p in theGame.players)`currMoneyInBettingRound, (set p | p in theGame.players)`allIn
      ensures Valid()
      ensures moneyInPot == old(moneyInPot) + BlindsPosted(theGame.smallBlind, theGame.bigBlind,
        old(SmallBlindSeat().stackSize), old(BigBlindSeat().stackSize), SmallBlindSeat() == BigBlindSeat())
    {
      BlindsAndDeal();
      UpdateHand(Rounds(playersInHand), AllIns(playersInHand), SmallBlindSeat());
    }

    /** The blinds and the dealing of `runHand`, which leave room in the deck for the
        next street. */
    method BlindsAndDeal()
      requires Valid() && NamesKnown() && playersInHand != []
      requires theGame.deck.deckCounter + 2 * |theGame.players| + StreetSize() <= 52
      modifies this`currBet, this`initialRaiser, this`moneyInPot,
               (set p | p in playersInHand)`stackSize, (set p | p in playersInHand)`currMoneyInPot,
               (set p | p in playersInHand)`currMoneyInBettingRound,
               theGame.deck`deckCounter, theGame.deck.deck, (set p | p in theGame.players)`hand
      ensures Valid() && NamesKnown() && theGame.deck.deckCounter + StreetSize() <= 52
      ensures currBet == theGame.bigBlind && initialRaiser == BigBlindSeat()
      ensures moneyInPot == old(moneyInPot) + BlindsPosted(theGame.smallBlind, theGame.bigBlind,
        old(SmallBlindSeat().stackSize), old(BigBlindSeat().stackSize), SmallBlindSeat() == BigBlindSeat())
    {
      CollectBlinds();
      DealRound();
    }

    /** The blinds of `runHand`: the small blind, then the big blind, then the bet to
        match is the big blind. */
    method CollectBlinds()
      requires ValidSeats() && NamesKnown() && playersInHand != []
      modifies this`moneyInPot, this`currBet, {SmallBlindSeat(), BigBlindSeat()}`stackSize,
               {SmallBlindSeat(), BigBlindSeat()}`currMoneyInPot, {SmallBlindSeat(), BigBlindSeat()}`currMoneyInBettingRound
      ensures TotalChips() == old(TotalChips()) && currBet == theGame.bigBlind
      ensures ValidSeats() && NamesKnown()
      ensures unchanged(theGame, theGame.deck, theGame.deck.deck)
      ensures unchanged(this`communityCards, this`preflop, this`flopDealt, this`turnDealt, this`riverDealt)
      ensures moneyInPot == old(moneyInPot) + BlindsPosted(theGame.smallBlind, theGame.bigBlind,
        old(SmallBlindSeat().stackSize), old(BigBlindSeat().stackSize), SmallBlindSeat() == BigBlindSeat())
    {
      ghost var small := SmallBlindSeat();
      ghost var big := BigBlindSeat();
      ghost var smallStack, bigStack := small.stackSize, big.stackSize;
      var s := CollectSmallBlind();
      assert big.stackSize == if small == big then smallStack - BlindAmount(theGame.smallBlind, smallStack) else bigStack;
      var b := CollectBigBlind();
      currBet := theGame.bigBlind;
    }

    /** The dealing of `runHand`: the deck is shuffled, every seat of the table with
        chips gets two cards, and the big blind becomes the last seat to have raised. */
    method DealRound()
      requires Valid() && NamesKnown() && playersInHand != []
      requires theGame.deck.deckCounter + 2 * |theGame.players| <= 52
      modifies this`initialRaiser, theGame.deck`deckCounter, theGame.deck.deck, (set p | p in theGame.players)`hand
      ensures Valid() && NamesKnown() && initialRaiser == BigBlindSeat()
      ensures unchanged(theGame)
      ensures theGame.deck.deckCounter <= old(theGame.deck.deckCounter) + 2 * |theGame.players|
      ensures forall i :: 0 <= i < |theGame.players| && theGame.players[i].stackSize != 0 ==>
        theGame.players[i].hand.Some?
    {
      DealCards();
      RaiseFromBigBlind();
    }

    /** The last step of the dealing: the big-blind seat counts as the last raiser. */
    method RaiseFromBigBlind()
      requires Valid() && NamesKnown() && playersInHand != []
      modifies this`initialRaiser
      ensures Valid() && initialRaiser == BigBlindSeat()
    {
      var next := GetNextPlayer(dealer);
      initialRaiser := GetNextPlayer(next);
    }

    /** Shuffle and deal: every seat of the table with chips gets two cards. */
    method DealCards()
      requires Valid() && NamesKnown()
      requires theGame.deck.deckCounter + 2 * |theGame.players| <= 52
      modifies theGame.deck`deckCounter, theGame.deck.deck, (set p | p in theGame.players)`hand
      ensures Valid() && NamesKnown() && unchanged(this, theGame)
      ensures theGame.deck.deckCounter <= old(theGame.deck.deckCounter) + 2 * |theGame.players|
      ensures forall i :: 0 <= i < |theGame.players| && theGame.players[i].stackSize != 0 ==>
        theGame.players[i].hand.Some?
      ensures multiset(theGame.deck.deck[..]) == old(multiset(theGame.deck.deck[..]))
      ensures theGame.deck.deckCounter == old(theGame.deck.deckCounter) + 2 * CountNonZero(Stacks(theGame.players))
      ensures SeatsDealt(theGame.players, theGame.deck.deck[..], old(theGame.deck.deckCounter))
      ensures forall i :: 0 <= i < |theGame.players| && theGame.players[i].stackSize == 0 ==>
        theGame.players[i].hand == old(theGame.players[i].hand)
    {
      var game := theGame;
      game.Shuffle();
      game.DealHands();
    }

    /** `updateHand` without its messages: a hand down to one seat pays that seat the pot
        and clears the table; a hand already complete is left alone; otherwise the turn
        passes on while someone is left to act, and when the round is over the next
        street is dealt or, after the river, the hand ends at the showdown. The source
        tests `handComplete` again after the one-seat branch, which has just set it, so
        the two branches exclude each other. */
    method UpdateHand(ghost rounds: seq<int>, ghost allIns: seq<bool>, ghost first: Player?)
      requires Valid() && playersInHand != [] && theGame.deck.deckCounter + StreetSize() <= 52
      requires RoundState(playersInHand, rounds, allIns) && NamesKnown() && first == SmallBlindSeat()
      modifies this`handComplete, this`communityCards, this`preflop, this`flopDealt, this`turnDealt,
               this`riverDealt, this`currBet, this`currPlayer, this`initialRaiser, currPlayer`isTurn,
               (set p | p in playersInHand)`valTurn, (set p | p in playersInHand)`currMoneyInBettingRound,
               (set p | p in playersInHand)`stackSize,
               theGame`deck, theGame`hand, theGame`handNumber, theGame`dealerIdx, theGame.deck`deckCounter,
               (set p | p in theGame.players)`currMoneyInPot, (set p | p in theGame.players)`valTurn,
               (set p | p in theGame.players)`currMoneyInBettingRound, (set p | p in theGame.players)`allIn
      ensures Valid()
      ensures |playersInHand| == 1 ==>
        playersInHand[0].stackSize == old(playersInHand[0].stackSize) + moneyInPot &&
        handComplete && theGame.ClearedFrom(old(theGame.dealerIdx), old(theGame.handNumber))
      ensures |playersInHand| > 1 && (old(handComplete) || old(LeftToAct())) ==>
        unchanged(this, theGame, old(theGame.deck)) && unchanged(set p | p in playersInHand)
      ensures |playersInHand| > 1 && !old(handComplete) && !old(LeftToAct()) && !old(riverDealt) ==>
        !handComplete &&
        DealtNext(old(Street()), old(theGame.deck.deckCounter), old(communityCards), old(StreetSize()),
                  rounds, allIns, first)
      ensures |playersInHand| > 1 && !old(handComplete) && !old(LeftToAct()) && old(riverDealt) ==>
        handComplete && theGame.ClearedFrom(old(theGame.dealerIdx), old(theGame.handNumber))
    {
      if |playersInHand| == 1 {
        AwardLastSeat();
      } else if !handComplete {
        ContinueHand(rounds, allIns, first);
      }
    }

    /** The part of `updateHand` for a hand still running: while someone is left to
        act the turn passes on and nothing else changes; otherwise the round ends. */
    method ContinueHand(ghost rounds: seq<int>, ghost allIns: seq<bool>, ghost first: Player?)
      requires Valid() && playersInHand != [] && !handComplete && theGame.deck.deckCounter + StreetSize() <= 52
      requires RoundState(playersInHand, rounds, allIns) && NamesKnown() && first == SmallBlindSeat()
      modifies this`handComplete, this`communityCards, this`preflop, this`flopDealt, this`turnDealt,
               this`riverDealt, this`currBet, this`currPlayer, this`initialRaiser, currPlayer`isTurn,
               (set p | p in playersInHand)`valTurn, (set p | p in playersInHand)`currMoneyInBettingRound,
               theGame`deck, theGame`hand, theGame`handNumber, theGame`dealerIdx, theGame.deck`deckCounter,
               (set p | p in theGame.players)`currMoneyInPot, (set p | p in theGame.players)`valTurn,
               (set p | p in theGame.players)`currMoneyInBettingRound, (set p | p in theGame.players)`allIn
      ensures Valid()
      ensures old(LeftToAct()) ==>
        unchanged(this, theGame, old(theGame.deck)) && unchanged(set p | p in playersInHand)
      ensures !old(LeftToAct()) && !old(riverDealt) ==>
        !handComplete &&
        DealtNext(old(Street()), old(theGame.deck.deckCounter), old(communityCards), old(StreetSize()),
                  rounds, allIns, first)
      ensures !old(LeftToAct()) && old(riverDealt) ==>
        handComplete && theGame.ClearedFrom(old(theGame.dealerIdx), old(theGame.handNumber))
    {
      var left := CheckIfPlayersLeftToAct();
      if left {
        CallTurnOnNextPlayer();
      } else {
        EndRound(rounds, allIns, first);
      }
    }

    /** A betting round is over: before the river the next street is dealt and a new
        round starts; after it the hand ends at the showdown. */
    method EndRound(ghost rounds: seq<int>, ghost allIns: seq<bool>, ghost first: Player?)
      requires Valid() && playersInHand != [] && !handComplete && theGame.deck.deckCounter + StreetSize() <= 52
      requires RoundState(playersInHand, rounds, allIns) && NamesKnown() && first == SmallBlindSeat()
      modifies this`handComplete, this`communityCards, this`preflop, this`flopDealt, this`turnDealt,
               this`riverDealt, this`currBet, this`currPlayer, this`initialRaiser,
               (set p | p in playersInHand)`valTurn, (set p | p in playersInHand)`currMoneyInBettingRound,
               theGame`deck, theGame`hand, theGame`handNumber, theGame`dealerIdx, theGame.deck`deckCounter,
               (set p | p in theGame.players)`currMoneyInPot, (set p | p in theGame.players)`valTurn,
               (set p | p in theGame.players)`currMoneyInBettingRound, (set p | p in theGame.players)`allIn
      ensures Valid()
      ensures !old(riverDealt) ==>
        !handComplete &&
        DealtNext(old(Street()), old(theGame.deck.deckCounter), old(communityCards), old(StreetSize()),
                  rounds, allIns, first)
      ensures old(riverDealt) ==>
        handComplete && theGame.ClearedFrom(old(theGame.dealerIdx), old(theGame.handNumber))
    {
      if !riverDealt {
        AdvanceStreet(rounds, allIns, first);
      } else {
        CalculateAndAwardPots();
      }
    }

    /** `getCardPNGs`: the image of every board card, in order. */
    method GetCardPNGs() returns (r: seq<string>)
      ensures |r| == |communityCards|
      ensures forall i :: 0 <= i < |communityCards| ==> r[i] == CardToPNG(communityCards[i])
    {
      r := [];
      var i := 0;
      while i < |communityCards|
        invariant 0 <= i <= |communityCards| && |r| == i
        invariant forall k :: 0 <= k < i ==> r[k] == CardToPNG(communityCards[k])
      {
        r := r + [CardToPNG(communityCards[i])];
        i := i + 1;
      }
    }
  }
}
