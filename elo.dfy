/**
 * Elo rating arithmetic: the pairwise update (used for comments) and the team
 * update (used after a voting round).
 *
 * The expected score `1 / (1 + 10 ** ((loser - winner) / 400))` is left abstract:
 * it is the arrow `score`, applied to (winner rating, loser rating). The
 * properties below are algebra that holds for any expected score, or for any
 * expected score in [0, 1], which the logistic curve always returns.
 */
module Elo {
  import opened Common

  /** Expected score of the winner, given the winner's and the loser's rating. */
  type Expectation = (real, real) -> real

  ghost predicate ValidExpectation(score: Expectation) {
    forall w: real, l: real :: 0.0 <= score(w, l) <= 1.0
  }

  /**
   * Pairwise update: the winner gains `k * (1 - expected)` and the loser loses
   * the same amount. Returns (new winner rating, new loser rating).
   */
  function EloUpdate(winner: real, loser: real, k: real, score: Expectation): (r: (real, real))
    ensures r.0 + r.1 == winner + loser
    ensures r.0 - winner == loser - r.1
    ensures 0.0 <= k && score(winner, loser) <= 1.0 ==> winner <= r.0 && r.1 <= loser
    ensures 0.0 <= k && 0.0 <= score(winner, loser) ==> r.0 - winner <= k
  {
    var expected := score(winner, loser);
    (winner + k * (1.0 - expected), loser - k * (1.0 - expected))
  }

  /**
   * Team update: the winning team's total gain is `k * (1 - e)`, the losing
   * team's total is `k * (0 - (1 - e))`, each divided evenly among the members.
   * Returns (change per winner, change per loser).
   */
  function TeamUpdate(winnerAvg: real, loserAvg: real, k: real, winnerSize: nat, loserSize: nat,
                      score: Expectation): (r: (real, real))
    requires winnerSize > 0 && loserSize > 0
    ensures (winnerSize as real) * r.0 + (loserSize as real) * r.1 == 0.0
    ensures 0.0 <= k && score(winnerAvg, loserAvg) <= 1.0 ==> 0.0 <= r.0
    ensures 0.0 <= k && score(winnerAvg, loserAvg) <= 1.0 ==> r.1 <= 0.0
  {
    var expectedWinner := score(winnerAvg, loserAvg);
    var expectedLoser := 1.0 - expectedWinner;
    var totalWinnerDelta := k * (1.0 - expectedWinner);
    var totalLoserDelta := k * (0.0 - expectedLoser);
    (totalWinnerDelta / (winnerSize as real), totalLoserDelta / (loserSize as real))
  }

  /** The team update's zero sum, phrased with `Times` for callers that add up team totals. */
  lemma TeamUpdateZeroSum(winnerAvg: real, loserAvg: real, k: real, winnerSize: nat, loserSize: nat,
                          score: Expectation)
    requires winnerSize > 0 && loserSize > 0
    ensures var r := TeamUpdate(winnerAvg, loserAvg, k, winnerSize, loserSize, score);
      Times(winnerSize, r.0) + Times(loserSize, r.1) == 0.0
  {
  }
}
