/** The 52-card deck (src/game/DeckOfCards.ts): built in suit-major canonical order,
    shuffled by 52 in-place swaps, dealt through a cursor `deckCounter`. */
module Deck {
  import opened Cards

  /** The suit order `['s', 'c', 'h', 'd']` the constructor stores. */
  const Suits: seq<Suit> := [Spade, Club, Heart, Diamond]

  /** Position of a suit in `Suits`. */
  function SuitIndex(s: Suit): (k: nat)
    ensures k < 4 && Suits[k] == s
  {
    match s
    case Spade => 0
    case Club => 1
    case Heart => 2
    case Diamond => 3
  }

  /** The deck as the constructor lays it out: slot i*13 + (r-2) holds (Suits[i], r). */
  function CanonicalDeck(): (d: seq<Card>)
    ensures |d| == 52
  {
    seq(52, k requires 0 <= k < 52 => Card(Suits[k / 13], k % 13 + 2))
  }

  ghost predicate Distinct(s: seq<Card>)
  {
    forall i, j :: 0 <= i < j < |s| ==> s[i] != s[j]
  }

  /** Slot of a card in the canonical deck: the inverse of `CanonicalDeck`. */
  function CardIndex(c: Card): (k: nat)
    ensures k < 52
  {
    SuitIndex(c.suit) * 13 + c.number - 2
  }

  /** Every card occurs in the canonical deck, at the slot the constructor writes it to,
      and the card at slot k has index k. */
  lemma CanonicalDeckIndex(c: Card, k: nat)
    requires k < 52
    ensures CanonicalDeck()[CardIndex(c)] == c
    ensures CardIndex(CanonicalDeck()[k]) == k
  {
    assert k == (k / 13) * 13 + k % 13;
  }

  /** The canonical deck holds 52 pairwise-distinct cards. */
  lemma CanonicalDeckDistinct()
    ensures Distinct(CanonicalDeck())
  {
    var d := CanonicalDeck();
    forall i, j | 0 <= i < j < 52 ensures d[i] != d[j] {
      CanonicalDeckIndex(d[i], i);
      CanonicalDeckIndex(d[j], j);
    }
  }

  /** In a sequence of distinct cards each card occurs at most once. */
  lemma {:induction false} DistinctCount(t: seq<Card>, x: Card)
    requires Distinct(t)
    ensures multiset(t)[x] <= 1
  {
    if t != [] {
      var init := t[..|t| - 1];
      assert t == init + [t[|t| - 1]];
      assert Distinct(init);
      DistinctCount(init, x);
      if x == t[|t| - 1] {
        assert x !in init;
      }
    }
  }

  /** A card at two positions occurs at least twice. */
  lemma DuplicateCount(s: seq<Card>, i: nat, j: nat)
    requires i < j < |s| && s[i] == s[j]
    ensures multiset(s)[s[i]] >= 2
  {
    var x := s[i];
    assert s == s[..i] + [x] + s[i + 1..j] + [x] + s[j + 1..];
    assert multiset(s) == multiset(s[..i]) + multiset{x} + multiset(s[i + 1..j]) + multiset{x} + multiset(s[j + 1..]);
  }

  /** Any rearrangement of the canonical deck still holds 52 distinct cards. */
  lemma PermutationOfCanonicalIsDistinct(s: seq<Card>)
    requires multiset(s) == multiset(CanonicalDeck())
    ensures Distinct(s)
  {
    CanonicalDeckDistinct();
    forall i, j | 0 <= i < j < |s| ensures s[i] != s[j] {
      if s[i] == s[j] {
        DuplicateCount(s, i, j);
        DistinctCount(CanonicalDeck(), s[i]);
      }
    }
  }

  class DeckOfCards {
    var totalCards: int
    var deck: array<Card>
    var suits: seq<Suit>
    var deckCounter: int

    /** The deck always holds a rearrangement of the 52 canonical cards. */
    ghost predicate Valid()
      reads this, deck
    {
      totalCards == 52 && suits == Suits && deck.Length == 52 &&
      multiset(deck[..]) == multiset(CanonicalDeck()) && deckCounter >= 0
    }

    /** The nested loop writes each (suit, rank) to its canonical slot. */
    constructor ()
      ensures Valid() && fresh(deck)
      ensures deck[..] == CanonicalDeck() && deckCounter == 0
    {
      totalCards := 52;
      suits := Suits;
      deckCounter := 0;
      var cards := new Card[52];
      var i := 0;
      while i < 4
        invariant 0 <= i <= 4
        invariant forall k :: 0 <= k < i * 13 ==> cards[k] == CanonicalDeck()[k]
      {
        var j := 2;
        while j < 15
          invariant 2 <= j <= 15
          invariant forall k :: 0 <= k < i * 13 + (j - 2) ==> cards[k] == CanonicalDeck()[k]
        {
          cards[i * 13 + (j - 2)] := Card(Suits[i], j);
          j := j + 1;
        }
        i := i + 1;
      }
      assert cards[..] == CanonicalDeck();
      deck := cards;
    }

    /** `getSuits`. */
    function GetSuits(): (r: seq<Suit>)
      requires Valid()
      reads this, deck
      ensures r == [Spade, Club, Heart, Diamond]
    {
      suits
    }

    /** `shuffle`: each slot 0..51 in turn is swapped with a slot chosen in 0..51
        (the source's `Math.round(Math.random() * 51)`, here an arbitrary choice). */
    method Shuffle()
      requires Valid()
      modifies deck
      ensures Valid()
      ensures multiset(deck[..]) == old(multiset(deck[..]))
    {
      var i := 0;
      while i < 52
        invariant 0 <= i <= 52
        invariant multiset(deck[..]) == old(multiset(deck[..]))
      {
        var randomSpot :| 0 <= randomSpot <= 51;
        deck[i], deck[randomSpot] := deck[randomSpot], deck[i];
        i := i + 1;
      }
    }

    /** `deal`: the card under the cursor; the cursor moves by one. The source does not
        check the bound, so the model requires a card to be left. */
    method Deal() returns (c: Card)
      requires Valid() && deckCounter < 52
      modifies this`deckCounter
      ensures Valid()
      ensures c == deck[old(deckCounter)] && deckCounter == old(deckCounter) + 1
    {
      c := deck[deckCounter];
      deckCounter := deckCounter + 1;
    }
  }

  /** Without a shuffle in between, cards dealt at different cursor positions differ. */
  lemma DealtCardsDistinct(d: DeckOfCards, i: nat, j: nat)
    requires d.Valid() && i < j < 52
    ensures d.deck[i] != d.deck[j]
  {
    PermutationOfCanonicalIsDistinct(d.deck[..]);
    assert d.deck[..][i] == d.deck[i] && d.deck[..][j] == d.deck[j];
  }

  /** A client of the class: a fresh deck deals its first two cards in canonical order
      and they are different. */
  method DealTwoFromNewDeck() returns (c1: Card, c2: Card)
    ensures c1 == Card(Spade, 2) && c2 == Card(Spade, 3)
  {
    var d := new DeckOfCards();
    c1 := d.Deal();
    c2 := d.Deal();
  }
}
