/** A player's two hole cards (src/game/playerHand.ts). Both fields are written once by
    the constructor and never changed, so the hand is a value; `getHoleCard1()` and
    `getHoleCard2()` are the fields `holeCard1` and `holeCard2`, in constructor order. */
module Hands {
  import opened Cards

  datatype PlayerHand = PlayerHand(holeCard1: Card, holeCard2: Card)

  /** `getStringHand`: both cards spelled out, joined by " and ". */
  function GetStringHand(h: PlayerHand): (r: string)
    ensures |r| == |CardToString(h.holeCard1)| + 5 + |CardToString(h.holeCard2)|
    ensures r[..|CardToString(h.holeCard1)|] == CardToString(h.holeCard1)
    ensures r[|r| - |CardToString(h.holeCard2)|..] == CardToString(h.holeCard2)
    ensures r[|CardToString(h.holeCard1)|..|CardToString(h.holeCard1)| + 5] == " and "
  {
    CardToString(h.holeCard1) + " and " + CardToString(h.holeCard2)
  }

  /** `getPNGHand`: both image file names separated by one space. */
  function GetPNGHand(h: PlayerHand): (r: string)
    ensures |r| == |CardToPNG(h.holeCard1)| + 1 + |CardToPNG(h.holeCard2)|
    ensures r[..|CardToPNG(h.holeCard1)|] == CardToPNG(h.holeCard1)
    ensures r[|CardToPNG(h.holeCard1)|] == ' '
    ensures r[|CardToPNG(h.holeCard1)| + 1..] == CardToPNG(h.holeCard2)
  {
    CardToPNG(h.holeCard1) + " " + CardToPNG(h.holeCard2)
  }

  /** Index of the first space in s, or |s| when there is none. */
  function SpaceIndex(s: string): (k: nat)
    ensures k <= |s|
  {
    if s == [] || s[0] == ' ' then 0 else 1 + SpaceIndex(s[1..])
  }

  lemma {:induction false} SpaceIndexAfter(p: string, rest: string)
    requires ' ' !in p
    ensures SpaceIndex(p + " " + rest) == |p|
  {
    if p != [] {
      assert (p + " " + rest)[1..] == p[1..] + " " + rest;
      SpaceIndexAfter(p[1..], rest);
    }
  }

  /** Splitting at a space that neither half contains recovers both halves. */
  lemma {:induction false} SplitAtSpace(p1: string, p2: string, q1: string, q2: string)
    requires ' ' !in p1 && ' ' !in q1
    requires p1 + " " + p2 == q1 + " " + q2
    ensures p1 == q1 && p2 == q2
  {
    var s := p1 + " " + p2;
    SpaceIndexAfter(p1, p2);
    SpaceIndexAfter(q1, q2);
    assert p1 == s[..|p1|] == q1;
    assert p2 == s[|p1| + 1..] == q2;
  }

  /** The image string of a hand determines the hand, cards in order. */
  lemma PNGHandInjective(h1: PlayerHand, h2: PlayerHand)
    requires GetPNGHand(h1) == GetPNGHand(h2)
    ensures h1 == h2
  {
    PNGHasNoSpace(h1.holeCard1);
    PNGHasNoSpace(h2.holeCard1);
    SplitAtSpace(CardToPNG(h1.holeCard1), CardToPNG(h1.holeCard2),
                 CardToPNG(h2.holeCard1), CardToPNG(h2.holeCard2));
    PNGInjective(h1.holeCard1, h2.holeCard1);
    PNGInjective(h1.holeCard2, h2.holeCard2);
  }
}
