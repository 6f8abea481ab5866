/**
 * Agents of the moderation simulation and how one of them casts a vote
 * (`User`, `vote` in simulation.py).
 *
 * Every random draw is an explicit input: the exponential and uniform draws that
 * make the goodness trait, the mood draws, the uniform draw a vote compares with
 * the adjusted goodness, and the fallback side `random.choice` would pick.
 */
module Agents {
  import Common

  /** A vote, and the side a decision comes down on. */
  datatype Side = Support | Oppose

  function Other(s: Side): (o: Side)
    ensures o != s
  {
    if s == Support then Oppose else Support
  }

  /** The side an honest voter takes: support exactly when quality is at least 0.5. */
  function CorrectSide(quality: real): (s: Side)
    ensures s == Support <==> quality >= 0.5
  {
    if quality >= 0.5 then Support else Oppose
  }

  /** The draws `User.__init__` consumes: goodness (exponential, then uniform) and the mood factor. */
  datatype UserDraws = UserDraws(exponential: real, uniform: real, moodFactor: real)

  /** The draws `apply_mood` consumes: the mood roll, the adjustment, and the raise/lower coin. */
  datatype MoodDraws = MoodDraws(roll: real, adjustment: real, raise: bool)

  /** The draws one call of `vote` consumes. */
  datatype VoteDraws = VoteDraws(mood: MoodDraws, uniform: real, fallback: Side)

  /**
   * `generate_goodness`: the exponential draw, replaced by a uniform draw when it
   * exceeds 1. A draw of exactly 1 is kept, so the trait lies in [0, 1], not [0, 1).
   */
  function GenerateGoodness(exponential: real, uniform: real): (g: real)
    ensures g == exponential || g == uniform
    ensures uniform <= 1.0 ==> g <= 1.0
    ensures 0.0 <= exponential && 0.0 <= uniform ==> 0.0 <= g
  {
    if exponential > 1.0 then uniform else exponential
  }

  /**
   * The adjusted goodness after `apply_mood`: it starts again from `goodness`
   * (nothing carries over from earlier votes); with a roll below the mood factor
   * it is scaled up by `1 + adjustment` (capped at 1) or down by `1 - adjustment`
   * (floored at 0).
   */
  function MoodAdjusted(goodness: real, moodFactor: real, d: MoodDraws): (a: real)
    ensures moodFactor <= d.roll ==> a == goodness
  {
    if d.roll < moodFactor then
      if d.raise then
        var up := goodness * (1.0 + d.adjustment);
        if up < 1.0 then up else 1.0
      else
        var down := goodness * (1.0 - d.adjustment);
        if down > 0.0 then down else 0.0
    else goodness
  }

  /**
   * The side a vote takes: the correct side when the uniform draw is below the
   * adjusted goodness, otherwise the side picked at random.
   */
  function Decide(quality: real, adjusted: real, uniform: real, fallback: Side): (v: Side)
    ensures uniform < adjusted ==> v == CorrectSide(quality)
    ensures v == CorrectSide(quality) || v == fallback
    ensures adjusted <= uniform ==> v == fallback
  {
    if uniform < adjusted then CorrectSide(quality) else fallback
  }

  class User {
    const id: nat
    var elo: real
    const goodness: real
    const moodFactor: real
    var adjustedGoodness: real
    var voteCount: nat

    /** `User.__init__`: the goodness trait is drawn once, the adjusted goodness starts equal to it. */
    constructor (id: nat, elo: real, d: UserDraws)
      ensures this.id == id && this.elo == elo
      ensures goodness == GenerateGoodness(d.exponential, d.uniform) && moodFactor == d.moodFactor
      ensures adjustedGoodness == goodness && voteCount == 0
    {
      this.id := id;
      this.elo := elo;
      goodness := GenerateGoodness(d.exponential, d.uniform);
      moodFactor := d.moodFactor;
      adjustedGoodness := GenerateGoodness(d.exponential, d.uniform);
      voteCount := 0;
    }

    /** `apply_mood`: overwrites the adjusted goodness, starting again from `goodness`. */
    method ApplyMood(d: MoodDraws)
      modifies this`adjustedGoodness
      ensures adjustedGoodness == MoodAdjusted(goodness, moodFactor, d)
    {
      var a := goodness;
      if d.roll < moodFactor {
        if d.raise {
          var up := goodness * (1.0 + d.adjustment);
          a := if up < 1.0 then up else 1.0;
        } else {
          var down := goodness * (1.0 - d.adjustment);
          a := if down > 0.0 then down else 0.0;
        }
      }
      adjustedGoodness := a;
    }
  }

  /** `vote`: refresh the mood, decide, and count the vote. */
  method CastVote(user: User, quality: real, d: VoteDraws) returns (v: Side)
    modifies user`adjustedGoodness, user`voteCount
    ensures user.adjustedGoodness == MoodAdjusted(user.goodness, user.moodFactor, d.mood)
    ensures v == Decide(quality, user.adjustedGoodness, d.uniform, d.fallback)
    ensures user.voteCount == old(user.voteCount) + 1
  {
    user.ApplyMood(d.mood);
    if quality >= 0.5 {
      v := if d.uniform < user.adjustedGoodness then Support else d.fallback;
    } else {
      v := if d.uniform < user.adjustedGoodness then Oppose else d.fallback;
    }
    user.voteCount := user.voteCount + 1;
  }

  /** The ratings of a list of users, in list order. */
  function Ratings(us: seq<User>): (r: seq<real>)
    reads (set u | u in us)`elo
    ensures |r| == |us|
    ensures forall i :: 0 <= i < |us| ==> r[i] == us[i].elo
  {
    if us == [] then [] else Ratings(us[..|us| - 1]) + [us[|us| - 1].elo]
  }

  /** What voting changes about a user: the rating, the adjusted goodness and the vote count. */
  datatype UserState = UserState(elo: real, adjustedGoodness: real, voteCount: nat)

  function StateOf(u: User): UserState
    reads u
  {
    UserState(u.elo, u.adjustedGoodness, u.voteCount)
  }

  /** The states of a list of users, in list order. */
  function States(us: seq<User>): (r: seq<UserState>)
    reads set u | u in us
    ensures |r| == |us|
  {
    if us == [] then [] else States(us[..|us| - 1]) + [StateOf(us[|us| - 1])]
  }

  lemma {:induction false} StatesAt(us: seq<User>)
    ensures forall i :: 0 <= i < |us| ==> States(us)[i] == StateOf(us[i])
  {
    if us != [] {
      StatesAt(us[..|us| - 1]);
    }
  }

  /**
   * Adjusted goodness stays in [0, 1] whatever the mood draws, given goodness in
   * [0, 1], and moves away from `goodness` by at most the drawn fraction of it.
   */
  lemma AdjustedGoodnessInRange(g: real, moodFactor: real, d: MoodDraws)
    requires 0.0 <= g <= 1.0 && 0.0 <= d.adjustment <= 0.25
    ensures 0.0 <= MoodAdjusted(g, moodFactor, d) <= 1.0
    ensures MoodAdjusted(g, moodFactor, d) - g <= g * d.adjustment
    ensures g - MoodAdjusted(g, moodFactor, d) <= g * d.adjustment
  {
    var p := g * d.adjustment;
    Common.MulBounds(g, d.adjustment);
    if d.roll < moodFactor {
      if d.raise {
        assert g * (1.0 + d.adjustment) == g + p;
      } else {
        assert g * (1.0 - d.adjustment) == g - p;
      }
    }
  }
}
