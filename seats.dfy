/** Which seat objects a hand may point at (src/game/pokerHand.ts): the seats are
    distinct, and the dealer, big blind, seat to act and last raiser all sit in the
    hand, or are absent when the hand is empty. */
module Seats {
  import opened Common
  import opened Players

  /** No seat object occurs twice. */
  ghost predicate DistinctSeats(ps: seq<Player>)
  {
    forall i, j :: 0 <= i < j < |ps| ==> ps[i] != ps[j]
  }

  /** `ValidSeats` on the values of the hand's fields. */
  ghost predicate SeatsValid(ps: seq<Player>, dealerIdx: Option<nat>, dealer: Player?, bigBlind: Player?,
                             currPlayer: Player?, initialRaiser: Player?)
  {
    DistinctSeats(ps) &&
    (ps == [] ==>
      dealerIdx.None? && dealer == null && bigBlind == null && currPlayer == null && initialRaiser == null) &&
    (ps != [] ==>
      dealerIdx.Some? && dealerIdx.value < |ps| && dealer == ps[dealerIdx.value] &&
      bigBlind != null && bigBlind in ps && currPlayer != null && currPlayer in ps &&
      (initialRaiser == null || initialRaiser in ps))
  }
}
