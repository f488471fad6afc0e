/** The hand evaluator (src/game/handEvaluator.ts): it holds the community cards and
    answers board queries, sorts ranks, describes a preflop hand, and compares hands
    through a cascade of category helpers. Every category helper in the source is a
    placeholder that returns `null`, so the numeric value of every hand is `null`. */
module Evaluator {
  import opened Common
  import opened Cards
  import opened Hands

  /** Non-decreasing order. */
  ghost predicate Sorted(s: seq<int>)
  {
    forall p, q :: 0 <= p < q < |s| ==> s[p] <= s[q]
  }

  /** The first n elements (or all, if fewer) are in non-decreasing order. */
  ghost predicate SortedBelow(s: seq<int>, n: int)
  {
    forall p, q :: 0 <= p < q < n && q < |s| ==> s[p] <= s[q]
  }

  /** The ranks of a sequence of cards, in order. */
  function Ranks(cards: seq<Card>): (r: seq<CardNumber>)
    ensures |r| == |cards|
    ensures forall i :: 0 <= i < |cards| ==> r[i] == cards[i].number
  {
    seq(|cards|, i requires 0 <= i < |cards| => cards[i].number)
  }

  /** JavaScript truthiness of a `number | null`: `null` and 0 are falsy. */
  predicate Truthy(v: Option<real>)
  {
    v.Some? && v.value != 0.0
  }

  /** The comparison of `returnBestHand` on two hand values: a hand is returned only
      when both values are truthy and its value is strictly the larger one. */
  function BetterHand(v1: Option<real>, v2: Option<real>, h1: PlayerHand, h2: PlayerHand): (r: Option<PlayerHand>)
    ensures r.Some? <==> Truthy(v1) && Truthy(v2) && v1.value != v2.value
    ensures r.Some? && v1.value > v2.value ==> r.value == h1
    ensures r.Some? && v2.value > v1.value ==> r.value == h2
  {
    if Truthy(v1) && Truthy(v2) then
      if v1.value > v2.value then Some(h1)
      else if v2.value > v1.value then Some(h2)
      else None
    else None
  }

  /** Exchanging the two hands (with their values) does not change the winner. */
  lemma BetterHandSymmetric(v1: Option<real>, v2: Option<real>, h1: PlayerHand, h2: PlayerHand)
    ensures BetterHand(v1, v2, h1, h2) == BetterHand(v2, v1, h2, h1)
  {
  }

  /** The higher-ranked hole card (the first one on a tie). */
  function HigherCard(h: PlayerHand): Card
  {
    if h.holeCard1.number >= h.holeCard2.number then h.holeCard1 else h.holeCard2
  }

  /** The lower-ranked hole card (the second one on a tie). */
  function LowerCard(h: PlayerHand): Card
  {
    if h.holeCard1.number >= h.holeCard2.number then h.holeCard2 else h.holeCard1
  }

  /** The description of a hand on an empty board: the two cards, higher rank first,
      or the pair's rank name. */
  function PreflopDescription(h: PlayerHand): (r: string)
    ensures h.holeCard1.number == h.holeCard2.number ==>
      r == "Pair of: " + NumberToString(h.holeCard1.number).value + "'s"
    ensures h.holeCard1.number != h.holeCard2.number ==>
      r == "High Card: " + CardToString(HigherCard(h)) + ", " + CardToString(LowerCard(h))
  {
    var c1, c2 := h.holeCard1, h.holeCard2;
    if c1.number > c2.number then
      "High Card: " + CardToString(c1) + ", " + CardToString(c2)
    else if c1.number < c2.number then
      "High Card: " + CardToString(c2) + ", " + CardToString(c1)
    else
      "Pair of: " + NumberToString(c1.number).value + "'s"
  }

  /** The order in which the hole cards were dealt does not change the description,
      except that a pair of one rank names only the rank. */
  lemma PreflopDescriptionOrderFree(c1: Card, c2: Card)
    ensures PreflopDescription(PlayerHand(c1, c2)) == PreflopDescription(PlayerHand(c2, c1))
  {
  }

  /** The category a truthy hand value falls in, by the thresholds of the post-flop
      branches of `evaluateHandForString` (the digit groups after the category are
      not decoded here). */
  function CategoryName(handNum: real): string
  {
    if handNum > 8.0 then "Straight Flush"
    else if handNum > 7.0 then "Four of a Kind"
    else if handNum > 6.0 then "Full House"
    else if handNum > 5.0 then "Flush"
    else if handNum > 4.0 then "Straight"
    else if handNum > 3.0 then "Three of a Kind"
    else if handNum > 2.0 then "Two Pair"
    else if handNum > 1.0 then "Pair of"
    else "High Card"
  }

  /** The post-flop description of a hand value: "Invalid hand" for a falsy value. */
  function PostflopDescription(handNum: Option<real>): (r: string)
    ensures !Truthy(handNum) ==> r == "Invalid hand"
  {
    if !Truthy(handNum) then "Invalid hand" else CategoryName(handNum.value)
  }

  class HandEvaluator {
    var cardsOnBoard: seq<Card>

    constructor (communityCards: seq<Card>)
      ensures cardsOnBoard == communityCards
    {
      cardsOnBoard := communityCards;
    }

    // The nine category helpers: placeholders that always return `null`.
    function ReturnHighCardNumber(h: PlayerHand): Option<real> { None }
    function ReturnPairNumber(h: PlayerHand): Option<real> { None }
    function ReturnTwoPairNumber(h: PlayerHand): Option<real> { None }
    function ReturnTripsNumber(h: PlayerHand): Option<real> { None }
    function ReturnStraightNumber(h: PlayerHand): Option<real> { None }
    function ReturnFlushNumber(h: PlayerHand): Option<real> { None }
    function ReturnFullHouseNumber(h: PlayerHand): Option<real> { None }
    function ReturnQuadsNumber(h: PlayerHand): Option<real> { None }
    function ReturnStraightFlushNumber(h: PlayerHand): Option<real> { None }

    /** `evaluateHandNumberValue`: the first non-null category value, from straight
        flush down to high card; with every helper a placeholder it is always `null`. */
    function EvaluateHandNumberValue(h: PlayerHand): (r: Option<real>)
      ensures r == None
    {
      if ReturnStraightFlushNumber(h).Some? then ReturnStraightFlushNumber(h)
      else if ReturnQuadsNumber(h).Some? then ReturnQuadsNumber(h)
      else if ReturnFullHouseNumber(h).Some? then ReturnFullHouseNumber(h)
      else if ReturnFlushNumber(h).Some? then ReturnFlushNumber(h)
      else if ReturnStraightNumber(h).Some? then ReturnStraightNumber(h)
      else if ReturnTripsNumber(h).Some? then ReturnTripsNumber(h)
      else if ReturnTwoPairNumber(h).Some? then ReturnTwoPairNumber(h)
      else if ReturnPairNumber(h).Some? then ReturnPairNumber(h)
      else if ReturnHighCardNumber(h).Some? then ReturnHighCardNumber(h)
      else None
    }

    /** `returnBestHand`: as both values are `null`, no hand is ever returned. */
    function ReturnBestHand(h1: PlayerHand, h2: PlayerHand): (r: Option<PlayerHand>)
      ensures r == None
    {
      BetterHand(EvaluateHandNumberValue(h1), EvaluateHandNumberValue(h2), h1, h2)
    }

    /** `evaluateHandForString`: the preflop description on an empty board, and
        "Invalid hand" on any other board, because the hand value is always `null`.
        The branch for a non-null value is unreachable; it is given by category only. */
    function EvaluateHandForString(h: PlayerHand): (r: string)
      reads this
      ensures |cardsOnBoard| == 0 ==> r == PreflopDescription(h)
      ensures |cardsOnBoard| > 0 ==> r == "Invalid hand"
    {
      if |cardsOnBoard| == 0 then PreflopDescription(h)
      else PostflopDescription(EvaluateHandNumberValue(h))
    }

    function CurrentNumCardsOnBoard(): nat
      reads this
    {
      |cardsOnBoard|
    }

    function GetCurrentBoard(): seq<Card>
      reads this
    {
      cardsOnBoard
    }

    method UpdateBoard(newBoard: seq<Card>)
      modifies this`cardsOnBoard
      ensures GetCurrentBoard() == newBoard && CurrentNumCardsOnBoard() == |newBoard|
    {
      cardsOnBoard := newBoard;
    }

    /** `cardNumberIsOnTheBoard`: a linear scan with an early exit. */
    method CardNumberIsOnTheBoard(cardNumber: CardNumber) returns (b: bool)
      ensures b <==> exists i :: 0 <= i < |cardsOnBoard| && cardsOnBoard[i].number == cardNumber
    {
      var i := 0;
      while i < |cardsOnBoard|
        invariant 0 <= i <= |cardsOnBoard|
        invariant forall k :: 0 <= k < i ==> cardsOnBoard[k].number != cardNumber
      {
        if cardsOnBoard[i].number == cardNumber {
          return true;
        }
        i := i + 1;
      }
      return false;
    }

    /** `insertionSort`: sorts the array in place and returns the same array. */
    method InsertionSort(arr: array<CardNumber>) returns (r: array<CardNumber>)
      modifies arr
      ensures r == arr
      ensures Sorted(arr[..])
      ensures multiset(arr[..]) == old(multiset(arr[..]))
    {
      var i := 1;
      while i < arr.Length
        invariant 1 <= i && (arr.Length > 0 ==> i <= arr.Length)
        invariant SortedBelow(arr[..], i)
        invariant multiset(arr[..]) == old(multiset(arr[..]))
      {
        InsertKey(arr, i);
        i := i + 1;
      }
      return arr;
    }

    /** One pass of the outer loop: `arr[i]` is the key; larger elements of the sorted
        prefix shift one slot right and the key drops into the gap. */
    method InsertKey(arr: array<CardNumber>, i: int)
      requires 1 <= i < arr.Length && SortedBelow(arr[..], i)
      modifies arr
      ensures SortedBelow(arr[..], i + 1)
      ensures multiset(arr[..]) == old(multiset(arr[..]))
    {
      ghost var s := arr[..];
      var key := arr[i];
      var j := ShiftLarger(arr, i, key);
      ShiftedInsertPermutes(s, i, j);
      ShiftedInsertSorts(s, i, j);
      arr[j + 1] := key;
    }

    /** The inner loop of `insertionSort`: moves the elements before slot i that are
        larger than the key one slot right, and returns the slot before the gap. */
    method ShiftLarger(arr: array<CardNumber>, i: int, key: CardNumber) returns (j: int)
      requires 1 <= i < arr.Length && arr[i] == key
      modifies arr
      ensures -1 <= j < i
      ensures arr[..] == Shifted(old(arr[..]), i, j)
      ensures forall k :: j < k < i ==> old(arr[..])[k] > key
      ensures j >= 0 ==> old(arr[..])[j] <= key
    {
      ghost var s := arr[..];
      j := i - 1;
      ShiftedStart(s, i);
      while j >= 0 && arr[j] > key
        invariant -1 <= j <= i - 1
        invariant arr[..] == Shifted(s, i, j)
        invariant forall k :: j < k < i ==> s[k] > key
      {
        ShiftStep(s, i, j);
        arr[j + 1] := arr[j];
        j := j - 1;
      }
      if j >= 0 {
        ShiftStep(s, i, j);
      }
    }

    /** `returnArrayOfSortedBoardAndHandCards`: the board ranks followed by both hole
        ranks, sorted. */
    method ReturnArrayOfSortedBoardAndHandCards(hand1: PlayerHand) returns (r: array<CardNumber>)
      ensures fresh(r) && r.Length == |cardsOnBoard| + 2
      ensures Sorted(r[..])
      ensures multiset(r[..]) ==
        multiset(Ranks(cardsOnBoard)) + multiset{hand1.holeCard1.number, hand1.holeCard2.number}
    {
      var n := |cardsOnBoard|;
      var allCards := new CardNumber[n + 2];
      var i := 0;
      while i < n
        invariant 0 <= i <= n
        invariant allCards[..i] == Ranks(cardsOnBoard)[..i]
      {
        allCards[i] := cardsOnBoard[i].number;
        assert allCards[..i + 1] == allCards[..i] + [allCards[i]];
        i := i + 1;
      }
      allCards[n] := hand1.holeCard1.number;
      allCards[n + 1] := hand1.holeCard2.number;
      assert allCards[..] == Ranks(cardsOnBoard) + [hand1.holeCard1.number, hand1.holeCard2.number];
      r := InsertionSort(allCards);
    }
  }

  /** The array during the inner loop of `insertionSort`: s[j+1..i) has moved one
      slot right and slot j + 1 still holds its old value. */
  function Shifted(s: seq<CardNumber>, i: int, j: int): (t: seq<CardNumber>)
    requires -1 <= j < i < |s|
    ensures |t| == |s|
  {
    s[..j + 1] + [s[j + 1]] + s[j + 1..i] + s[i + 1..]
  }

  /** Before any shift the gap is slot i, which still holds the key. */
  lemma ShiftedStart(s: seq<CardNumber>, i: int)
    requires 0 <= i < |s|
    ensures Shifted(s, i, i - 1) == s
  {
    assert s == s[..i] + [s[i]] + s[i + 1..];
  }

  /** One shift: copying slot j into slot j + 1 moves the gap one slot left. */
  lemma ShiftStep(s: seq<CardNumber>, i: int, j: int)
    requires 0 <= j < i < |s|
    ensures Shifted(s, i, j)[j] == s[j]
    ensures Shifted(s, i, j)[j + 1 := s[j]] == Shifted(s, i, j - 1)
  {
    var t := Shifted(s, i, j);
    var u := Shifted(s, i, j - 1);
    assert forall k :: 0 <= k <= j ==> t[k] == s[k];
    assert forall k :: j + 2 <= k <= i ==> t[k] == s[k - 1];
    assert forall k :: 0 <= k < j ==> u[k] == s[k];
    assert forall k :: j + 1 <= k <= i ==> u[k] == s[k - 1];
    assert forall k :: i < k < |s| ==> t[k] == s[k] == u[k];
  }

  /** Dropping the key into the gap moves s[i] to slot j + 1: a permutation of s. */
  lemma ShiftedInsertPermutes(s: seq<CardNumber>, i: int, j: int)
    requires -1 <= j < i < |s|
    ensures multiset(Shifted(s, i, j)[j + 1 := s[i]]) == multiset(s)
  {
    var t := Shifted(s, i, j)[j + 1 := s[i]];
    assert t == s[..j + 1] + [s[i]] + s[j + 1..i] + s[i + 1..];
    assert s == s[..j + 1] + s[j + 1..i] + [s[i]] + s[i + 1..];
  }

  /** ... and, when s[..i] is sorted and the gap is where the key belongs, the first
      i + 1 elements are sorted. */
  lemma ShiftedInsertSorts(s: seq<CardNumber>, i: int, j: int)
    requires -1 <= j < i < |s| && SortedBelow(s, i)
    requires j >= 0 ==> s[j] <= s[i]
    requires forall k :: j < k < i ==> s[k] > s[i]
    ensures SortedBelow(Shifted(s, i, j)[j + 1 := s[i]], i + 1)
  {
    var t := Shifted(s, i, j)[j + 1 := s[i]];
    assert forall k :: 0 <= k <= j ==> t[k] == s[k];
    assert t[j + 1] == s[i];
    assert forall k :: j + 2 <= k <= i ==> t[k] == s[k - 1];
    forall p, q | 0 <= p < q < i + 1 && q < |t| ensures t[p] <= t[q] {
      if q <= j {
      } else if q == j + 1 {
        if j >= 0 { assert t[p] <= s[j]; }
      } else if p == j + 1 {
        assert t[q] == s[q - 1];
      } else {
        assert t[q] == s[q - 1];
      }
    }
  }
}
