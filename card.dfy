/** A playing card (src/game/card.ts): a suit and a rank 2..14 (14 is the Ace),
    fixed when the card is made, with its three text renderings. A card is a value:
    `getSuit()` and `getNumber()` are the datatype's fields `suit` and `number`. */
module Cards {
  import opened Common

  datatype Suit = Spade | Club | Heart | Diamond

  /** The source's `CardNumber` type: ranks 2..14. */
  type CardNumber = n: int | 2 <= n <= 14 witness 2

  datatype Card = Card(suit: Suit, number: CardNumber)

  /** The suit as the source stores it: 's', 'c', 'h' or 'd'. */
  function SuitLetter(s: Suit): char
  {
    match s
    case Spade => 's'
    case Club => 'c'
    case Heart => 'h'
    case Diamond => 'd'
  }

  /** The suit's upper-case letter used in image file names. */
  function SuitUpperLetter(s: Suit): char
  {
    match s
    case Spade => 'S'
    case Club => 'C'
    case Heart => 'H'
    case Diamond => 'D'
  }

  /** The suit's name used in `cardToString`. */
  function SuitName(s: Suit): string
  {
    match s
    case Spade => "Spades"
    case Club => "Clubs"
    case Heart => "Hearts"
    case Diamond => "Diamonds"
  }

  /** `Card.numberToString`: the English name of a rank, `null` for any other number. */
  function NumberToString(n: int): (r: Option<string>)
    ensures r.Some? <==> 2 <= n <= 14
    ensures r.Some? ==> |r.value| >= 3
  {
    match n
    case 2 => Some("Two")
    case 3 => Some("Three")
    case 4 => Some("Four")
    case 5 => Some("Five")
    case 6 => Some("Six")
    case 7 => Some("Seven")
    case 8 => Some("Eight")
    case 9 => Some("Nine")
    case 10 => Some("Ten")
    case 11 => Some("Jack")
    case 12 => Some("Queen")
    case 13 => Some("King")
    case 14 => Some("Ace")
    case _ => None
  }

  /** Reference inverse of `NumberToString`, used to show the names are distinct. */
  function NumberOfName(name: string): Option<int>
  {
    if name == "Two" then Some(2)
    else if name == "Three" then Some(3)
    else if name == "Four" then Some(4)
    else if name == "Five" then Some(5)
    else if name == "Six" then Some(6)
    else if name == "Seven" then Some(7)
    else if name == "Eight" then Some(8)
    else if name == "Nine" then Some(9)
    else if name == "Ten" then Some(10)
    else if name == "Jack" then Some(11)
    else if name == "Queen" then Some(12)
    else if name == "King" then Some(13)
    else if name == "Ace" then Some(14)
    else None
  }

  /** Every rank's name reads back as that rank. */
  lemma NumberNameRoundTrip(n: CardNumber)
    ensures NumberToString(n).Some? && NumberOfName(NumberToString(n).value) == Some(n)
  {
  }

  /** The thirteen rank names are pairwise distinct. */
  lemma NumberNamesDistinct(m: CardNumber, n: CardNumber)
    requires m != n
    ensures NumberToString(m) != NumberToString(n)
  {
    NumberNameRoundTrip(m);
    NumberNameRoundTrip(n);
  }

  /** The rank part of `abbreviatedString`: "2".."10", "J", "Q", "K", "A". */
  function RankCode(n: CardNumber): string
  {
    match n
    case 2 => "2"
    case 3 => "3"
    case 4 => "4"
    case 5 => "5"
    case 6 => "6"
    case 7 => "7"
    case 8 => "8"
    case 9 => "9"
    case 10 => "10"
    case 11 => "J"
    case 12 => "Q"
    case 13 => "K"
    case 14 => "A"
  }

  /** `abbreviatedString`: the rank code followed by the lower-case suit letter. */
  function AbbreviatedString(c: Card): (r: string)
    ensures |r| == (if c.number == 10 then 3 else 2)
    ensures r[|r| - 1] == SuitLetter(c.suit)
  {
    RankCode(c.number) + [SuitLetter(c.suit)]
  }

  function SuitOfLetter(ch: char): Option<Suit>
  {
    match ch
    case 's' => Some(Spade)
    case 'c' => Some(Club)
    case 'h' => Some(Heart)
    case 'd' => Some(Diamond)
    case _ => None
  }

  function RankOfCode(code: string): Option<CardNumber>
  {
    if code == "2" then Some(2)
    else if code == "3" then Some(3)
    else if code == "4" then Some(4)
    else if code == "5" then Some(5)
    else if code == "6" then Some(6)
    else if code == "7" then Some(7)
    else if code == "8" then Some(8)
    else if code == "9" then Some(9)
    else if code == "10" then Some(10)
    else if code == "J" then Some(11)
    else if code == "Q" then Some(12)
    else if code == "K" then Some(13)
    else if code == "A" then Some(14)
    else None
  }

  /** Reference decoder for the two/three-character card code. */
  function ParseAbbreviation(s: string): Option<Card>
  {
    if |s| < 2 then None
    else match (RankOfCode(s[..|s| - 1]), SuitOfLetter(s[|s| - 1]))
      case (Some(n), Some(st)) => Some(Card(st, n))
      case _ => None
  }

  /** The short code of a card decodes back to the card. */
  lemma AbbreviationRoundTrip(c: Card)
    ensures ParseAbbreviation(AbbreviatedString(c)) == Some(c)
  {
    var s := AbbreviatedString(c);
    assert s[..|s| - 1] == RankCode(c.number);
    assert RankOfCode(RankCode(c.number)) == Some(c.number);
    assert SuitOfLetter(SuitLetter(c.suit)) == Some(c.suit);
  }

  /** Distinct cards have distinct short codes. */
  lemma AbbreviationInjective(c1: Card, c2: Card)
    requires AbbreviatedString(c1) == AbbreviatedString(c2)
    ensures c1 == c2
  {
    AbbreviationRoundTrip(c1);
    AbbreviationRoundTrip(c2);
  }

  /** `cardToString`: the source spells the rank out with its own switch and then
      appends the suit name; the contract ties it to `numberToString`. */
  function CardToString(c: Card): (r: string)
    ensures NumberToString(c.number).Some?
    ensures r == NumberToString(c.number).value + " of " + SuitName(c.suit)
    ensures SuitName(c.suit) in ["Spades", "Clubs", "Hearts", "Diamonds"]
  {
    var rank :=
      match c.number
      case 2 => "Two"
      case 3 => "Three"
      case 4 => "Four"
      case 5 => "Five"
      case 6 => "Six"
      case 7 => "Seven"
      case 8 => "Eight"
      case 9 => "Nine"
      case 10 => "Ten"
      case 11 => "Jack"
      case 12 => "Queen"
      case 13 => "King"
      case 14 => "Ace";
    rank + " of " + SuitName(c.suit)
  }

  /** `cardToPNG`: the decimal rank, the upper-case suit letter, then ".png". */
  function CardToPNG(c: Card): (r: string)
    ensures |r| == |NatToString(c.number)| + 5
    ensures r[..|r| - 5] == NatToString(c.number)
    ensures r[|r| - 5] == SuitUpperLetter(c.suit) && r[|r| - 4..] == ".png"
  {
    NatToString(c.number) + [SuitUpperLetter(c.suit)] + ".png"
  }

  /** The Ace of spades is drawn from "14S.png". */
  lemma AceOfSpadesPNG()
    ensures CardToPNG(Card(Spade, 14)) == "14S.png"
  {
    assert NatToString(14) == "14";
  }

  /** Distinct cards have distinct image file names. */
  lemma PNGInjective(c1: Card, c2: Card)
    requires CardToPNG(c1) == CardToPNG(c2)
    ensures c1 == c2
  {
    var r1, r2 := CardToPNG(c1), CardToPNG(c2);
    assert r1[..|r1| - 5] == r2[..|r2| - 5];
    NatToStringInjective(c1.number, c2.number);
    assert r1[|r1| - 5] == r2[|r2| - 5];
  }

  /** No image file name contains a space (used to split a hand's image string). */
  lemma PNGHasNoSpace(c: Card)
    ensures ' ' !in CardToPNG(c)
  {
    var r := CardToPNG(c);
    var d := NatToString(c.number);
    assert r == d + [SuitUpperLetter(c.suit)] + ".png";
    forall i | 0 <= i < |r| ensures r[i] != ' ' {
      if i < |d| { assert r[i] == d[i]; }
    }
  }
}
