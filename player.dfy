/** A seat at a table (src/game/player.ts): identity, chip stack, the hole cards once
    dealt, the chips put in during this hand and this betting round, the last action
    (`valTurn`), the all-in flag and the turn flag. The source's getters are reads of
    these fields; each setter below changes exactly the fields its `modifies` names. */
module Players {
  import opened Common
  import opened Cards
  import opened Hands

  /** The action tag a seat carries before it has acted. */
  const Undecided: string := "undefined"

  class Player {
    var hand: Option<PlayerHand>
    var stackSize: int
    const sockID: string
    const name: string
    var handsWon: int
    const room: string
    var valTurn: string
    var currMoneyInPot: int
    var currMoneyInBettingRound: int
    var allIn: bool
    var isTurn: bool
    var hasHand: bool

    /** A new seat: no cards, undecided, nothing contributed, not all-in, not to act. */
    constructor (name: string, stackSize: int, sockID: string, room: string)
      ensures this.name == name && this.stackSize == stackSize
      ensures this.sockID == sockID && this.room == room
      ensures hand == None && handsWon == 0 && valTurn == Undecided
      ensures currMoneyInPot == 0 && currMoneyInBettingRound == 0
      ensures !allIn && !isTurn && hasHand
    {
      this.hand := None;
      this.stackSize := stackSize;
      this.sockID := sockID;
      this.name := name;
      this.handsWon := 0;
      this.room := room;
      this.valTurn := Undecided;
      this.currMoneyInPot := 0;
      this.currMoneyInBettingRound := 0;
      this.allIn := false;
      this.isTurn := false;
      this.hasHand := true;
    }

    method SetHasHand(hasHand: bool)
      modifies this`hasHand
      ensures this.hasHand == hasHand
    {
      this.hasHand := hasHand;
    }

    method SetTurn(isTurn: bool)
      modifies this`isTurn
      ensures this.isTurn == isTurn
    {
      this.isTurn := isTurn;
    }

    /** Sets the flag; calling it again changes nothing. Only `ResetInfo` clears it. */
    method SetAllIn()
      modifies this`allIn
      ensures allIn
    {
      allIn := true;
    }

    /** The source subtracts without a check; its callers only ever take at most the
        stack, which the model requires, so that no stack goes negative. */
    method MinusFromStack(num: int)
      requires num <= stackSize
      modifies this`stackSize
      ensures stackSize == old(stackSize) - num
      ensures stackSize >= 0
    {
      stackSize := stackSize - num;
    }

    method AddToStack(num: int)
      modifies this`stackSize
      ensures stackSize == old(stackSize) + num
    {
      stackSize := stackSize + num;
    }

    method AddCurrMoneyInPot(amount: int)
      modifies this`currMoneyInPot
      ensures currMoneyInPot == old(currMoneyInPot) + amount
    {
      currMoneyInPot := currMoneyInPot + amount;
    }

    method SetCurrMoneyInPot(num: int)
      modifies this`currMoneyInPot
      ensures currMoneyInPot == num
    {
      currMoneyInPot := num;
    }

    method AddCurrMoneyInBettingRound(num: int)
      modifies this`currMoneyInBettingRound
      ensures currMoneyInBettingRound == old(currMoneyInBettingRound) + num
    {
      currMoneyInBettingRound := currMoneyInBettingRound + num;
    }

    method SetCurrMoneyInBettingRound(num: int)
      modifies this`currMoneyInBettingRound
      ensures currMoneyInBettingRound == num
    {
      currMoneyInBettingRound := num;
    }

    method SetValTurn(valTurn: string)
      modifies this`valTurn
      ensures this.valTurn == valTurn
    {
      this.valTurn := valTurn;
    }

    /** Clears the per-hand fields; stack, cards, identity and turn flag stay. */
    method ResetInfo()
      modifies this`currMoneyInPot, this`valTurn, this`currMoneyInBettingRound, this`allIn
      ensures currMoneyInPot == 0 && currMoneyInBettingRound == 0
      ensures valTurn == Undecided && !allIn
    {
      currMoneyInPot := 0;
      valTurn := Undecided;
      currMoneyInBettingRound := 0;
      allIn := false;
    }

    method SetHand(card1: Card, card2: Card)
      modifies this`hand
      ensures hand == Some(PlayerHand(card1, card2))
    {
      hand := Some(PlayerHand(card1, card2));
    }
  }

  /** The chips a seat holds plus the chips it has put in the pot this hand. */
  ghost function ChipsOwned(p: Player): int
    reads p
  {
    p.stackSize + p.currMoneyInPot
  }

  /** Client of the class: taking n from the stack and giving it back restores the
      stack, and moving n from the stack into the pot contribution keeps their sum. */
  method MoveChipsAndBack(p: Player, n: int)
    requires n <= p.stackSize
    modifies p
    ensures p.stackSize == old(p.stackSize)
    ensures p.currMoneyInPot == old(p.currMoneyInPot) + n
  {
    ghost var owned := ChipsOwned(p);
    p.MinusFromStack(n);
    p.AddCurrMoneyInPot(n);
    assert ChipsOwned(p) == owned;
    p.AddToStack(n);
  }
}
