/**
 * One voting round (`stage_voting` in simulation.py) and the vote tally
 * (`count_votes`).
 *
 * A round lets every participant vote in order, splits the participants into
 * supporters and opposers, and, when one side has strictly more members and the
 * other side is not empty, moves every winner's rating up and every loser's
 * rating down by the team Elo update. `RoundRatings` says what the ratings
 * become, as a function of the ratings before the round and the votes.
 */
module Rounds {
  import opened Common
  import opened Elo
  import opened Agents

  /** Number of votes for side `s`. */
  function Count(votes: seq<Side>, s: Side): (n: nat)
    ensures n <= |votes|
  {
    if votes == [] then 0
    else Count(votes[..|votes| - 1], s) + (if votes[|votes| - 1] == s then 1 else 0)
  }

  /** Every vote is for one side or the other. */
  lemma {:induction false} CountPartition(votes: seq<Side>)
    ensures Count(votes, Support) + Count(votes, Oppose) == |votes|
  {
    if votes != [] {
      CountPartition(votes[..|votes| - 1]);
    }
  }

  /** A list of identical votes counts fully for its side and not at all for the other. */
  lemma {:induction false} CountUniform(votes: seq<Side>, s: Side)
    requires forall i :: 0 <= i < |votes| ==> votes[i] == s
    ensures Count(votes, s) == |votes| && Count(votes, Other(s)) == 0
  {
    if votes != [] {
      CountUniform(votes[..|votes| - 1], s);
    }
  }

  /** The elements of `xs` whose vote (at the same position) is for side `s`, in order. */
  function Filter<T>(xs: seq<T>, votes: seq<Side>, s: Side): (r: seq<T>)
    requires |xs| == |votes|
    ensures |r| == Count(votes, s)
    ensures forall x :: x in r ==> x in xs
  {
    if xs == [] then []
    else
      var n := |xs| - 1;
      Filter(xs[..n], votes[..n], s) + (if votes[n] == s then [xs[n]] else [])
  }

  /** Among distinct participants, one is a supporter (opposer) exactly when its vote is. */
  lemma {:induction false} FilterMember<T>(xs: seq<T>, votes: seq<Side>, s: Side, i: nat)
    requires |xs| == |votes| && Distinct(xs) && i < |xs|
    ensures xs[i] in Filter(xs, votes, s) <==> votes[i] == s
  {
    var n := |xs| - 1;
    if i < n {
      FilterMember(xs[..n], votes[..n], s, i);
      assert xs[n] != xs[i];
    } else {
      assert xs[n] !in xs[..n];
    }
  }

  lemma {:induction false} FilterDistinct<T>(xs: seq<T>, votes: seq<Side>, s: Side)
    requires |xs| == |votes| && Distinct(xs)
    ensures Distinct(Filter(xs, votes, s))
  {
    if xs != [] {
      var n := |xs| - 1;
      FilterDistinct(xs[..n], votes[..n], s);
      assert xs[n] !in xs[..n];
    }
  }

  lemma {:induction false} RatingsFilter(us: seq<User>, votes: seq<Side>, s: Side)
    requires |us| == |votes|
    ensures Ratings(Filter(us, votes, s)) == Filter(Ratings(us), votes, s)
  {
    if us != [] {
      var n := |us| - 1;
      RatingsFilter(us[..n], votes[..n], s);
      assert Ratings(us)[..n] == Ratings(us[..n]);
    }
  }

  /** The values `count_votes` returns. */
  datatype Tally = Tally(support: nat, oppose: nat, total: nat, majoritySupported: bool)

  /**
   * `count_votes`: the two counts add up to the number of votes, and the
   * majority flag holds exactly when supporters strictly outnumber opposers
   * (never for an empty list).
   */
  function CountVotes(votes: seq<Side>): (t: Tally)
    ensures t.support == Count(votes, Support) && t.oppose == Count(votes, Oppose)
    ensures t.support + t.oppose == t.total == |votes|
    ensures t.majoritySupported <==> t.support > t.oppose
    ensures votes == [] ==> !t.majoritySupported
  {
    CountPartition(votes);
    var support := Count(votes, Support);
    var oppose := Count(votes, Oppose);
    var total := |votes|;
    Tally(support, oppose, total, if total > 0 then support > oppose else false)
  }

  /** `stage_decision`: which side won the round, or "draw". */
  datatype RoundDecision = Won(side: Side) | Draw

  /** The branches of `stage_voting` that pick the winning team. */
  function Decision(votes: seq<Side>): (d: RoundDecision)
    ensures d == Draw <==> Count(votes, Support) == Count(votes, Oppose)
    ensures d == Won(Support) <==> Count(votes, Support) > Count(votes, Oppose)
    ensures d == Won(Oppose) <==> Count(votes, Oppose) > Count(votes, Support)
  {
    var supporters := Count(votes, Support);
    var opposers := Count(votes, Oppose);
    if supporters == 0 && opposers > 0 then Won(Oppose)
    else if opposers == 0 && supporters > 0 then Won(Support)
    else if supporters > opposers then Won(Support)
    else if opposers > supporters then Won(Oppose)
    else Draw
  }

  /** Adds `a` to the ratings of side `w` and `b` to all others. */
  function Shift(elos: seq<real>, votes: seq<Side>, w: Side, a: real, b: real): (r: seq<real>)
    requires |elos| == |votes|
    ensures |r| == |elos|
  {
    if elos == [] then []
    else
      var n := |elos| - 1;
      Shift(elos[..n], votes[..n], w, a, b) + [elos[n] + (if votes[n] == w then a else b)]
  }

  lemma {:induction false} ShiftAt(elos: seq<real>, votes: seq<Side>, w: Side, a: real, b: real, i: nat)
    requires |elos| == |votes| && i < |elos|
    ensures Shift(elos, votes, w, a, b)[i] == elos[i] + (if votes[i] == w then a else b)
  {
    var n := |elos| - 1;
    if i < n {
      ShiftAt(elos[..n], votes[..n], w, a, b, i);
    }
  }

  lemma {:induction false} SumShift(elos: seq<real>, votes: seq<Side>, w: Side, a: real, b: real)
    requires |elos| == |votes|
    ensures Sum(Shift(elos, votes, w, a, b))
         == Sum(elos) + Times(Count(votes, w), a) + Times(Count(votes, Other(w)), b)
  {
    if elos != [] {
      var n := |elos| - 1;
      SumShift(elos[..n], votes[..n], w, a, b);
      TimesSucc(Count(votes[..n], w), a);
      TimesSucc(Count(votes[..n], Other(w)), b);
    }
  }

  /**
   * The ratings of the participants after a round, given their ratings before it
   * and their votes: unchanged on a draw or a unanimous round; otherwise the team
   * update on the two sides' average ratings, applied to every member.
   */
  function RoundRatings(elos: seq<real>, votes: seq<Side>, k: real, score: Expectation): (r: seq<real>)
    requires |elos| == |votes|
    ensures |r| == |elos|
  {
    match Decision(votes)
    case Draw => elos
    case Won(w) =>
      var l := Other(w);
      var nw := Count(votes, w);
      var nl := Count(votes, l);
      if nl == 0 then elos
      else
        var deltas := TeamUpdate(Sum(Filter(elos, votes, w)) / (nw as real),
                                 Sum(Filter(elos, votes, l)) / (nl as real), k, nw, nl, score);
        Shift(elos, votes, w, deltas.0, deltas.1)
  }

  /** A round never creates or destroys rating: the participants' total is unchanged. */
  lemma RoundConservesTotal(elos: seq<real>, votes: seq<Side>, k: real, score: Expectation)
    requires |elos| == |votes|
    ensures Sum(RoundRatings(elos, votes, k, score)) == Sum(elos)
  {
    var d := Decision(votes);
    if d.Won? && Count(votes, Other(d.side)) != 0 {
      var w, l := d.side, Other(d.side);
      var nw, nl := Count(votes, w), Count(votes, l);
      var deltas := TeamUpdate(Sum(Filter(elos, votes, w)) / (nw as real),
                               Sum(Filter(elos, votes, l)) / (nl as real), k, nw, nl, score);
      assert RoundRatings(elos, votes, k, score) == Shift(elos, votes, w, deltas.0, deltas.1);
      SumShift(elos, votes, w, deltas.0, deltas.1);
      TeamUpdateZeroSum(Sum(Filter(elos, votes, w)) / (nw as real),
                        Sum(Filter(elos, votes, l)) / (nl as real), k, nw, nl, score);
    }
  }

  /** On a tie, or when one side is empty, no rating changes. */
  lemma RoundNeutral(elos: seq<real>, votes: seq<Side>, k: real, score: Expectation)
    requires |elos| == |votes|
    requires Count(votes, Support) == Count(votes, Oppose) || Count(votes, Support) == 0 || Count(votes, Oppose) == 0
    ensures RoundRatings(elos, votes, k, score) == elos
  {
  }

  /**
   * Otherwise every winner moves by one common amount and every loser by another;
   * winners never lose rating and losers never gain it (k >= 0, expected score in [0, 1]).
   */
  lemma RoundMovesWinnersUp(elos: seq<real>, votes: seq<Side>, k: real, score: Expectation)
    requires |elos| == |votes| && Decision(votes).Won?
    requires 0.0 <= k && ValidExpectation(score)
    ensures var r, w := RoundRatings(elos, votes, k, score), Decision(votes).side;
      && (forall i :: 0 <= i < |elos| && votes[i] == w ==> elos[i] <= r[i])
      && (forall i :: 0 <= i < |elos| && votes[i] != w ==> r[i] <= elos[i])
      && (forall i, j :: 0 <= i < |elos| && 0 <= j < |elos| && votes[i] == votes[j] ==> r[i] - elos[i] == r[j] - elos[j])
  {
    var r, w := RoundRatings(elos, votes, k, score), Decision(votes).side;
    var l := Other(w);
    var nw, nl := Count(votes, w), Count(votes, l);
    if nl != 0 {
      var deltas := TeamUpdate(Sum(Filter(elos, votes, w)) / (nw as real),
                               Sum(Filter(elos, votes, l)) / (nl as real), k, nw, nl, score);
      assert r == Shift(elos, votes, w, deltas.0, deltas.1);
      assert 0.0 <= deltas.0 && deltas.1 <= 0.0;
      forall i | 0 <= i < |elos| ensures r[i] == elos[i] + (if votes[i] == w then deltas.0 else deltas.1) {
        ShiftAt(elos, votes, w, deltas.0, deltas.1, i);
      }
    }
  }

  /**
   * `for user in team: user.elo += delta`, stated over any list `all` of users:
   * members of the team gain `delta`, everyone else keeps their rating.
   */
  method ApplyDelta(ghost all: seq<User>, team: seq<User>, delta: real)
    requires Distinct(team)
    modifies (set u | u in team)`elo
    ensures forall u :: u in team ==> u.elo == old(u.elo) + delta
    ensures forall j :: 0 <= j < |all| ==>
      Ratings(all)[j] == old(Ratings(all))[j] + (if all[j] in team then delta else 0.0)
  {
    ghost var before := Ratings(all);
    var i := 0;
    while i < |team|
      invariant 0 <= i <= |team|
      invariant forall j :: 0 <= j < i ==> team[j].elo == old(team[j].elo) + delta
      invariant forall j :: i <= j < |team| ==> team[j].elo == old(team[j].elo)
    {
      team[i].elo := team[i].elo + delta;
      i := i + 1;
    }
    forall j | 0 <= j < |all|
      ensures Ratings(all)[j] == before[j] + (if all[j] in team then delta else 0.0)
    {
      if all[j] in team {
        var m :| 0 <= m < |team| && team[m] == all[j];
      }
    }
  }

  /** Both team loops together move every stage rating by the change of the voter's team. */
  lemma TeamShift(stageUsers: seq<User>, votes: seq<Side>, w: Side, winning: seq<User>, losing: seq<User>,
                  before: seq<real>, mid: seq<real>, after: seq<real>, a: real, b: real)
    requires Distinct(stageUsers) && |votes| == |stageUsers|
    requires winning == Filter(stageUsers, votes, w) && losing == Filter(stageUsers, votes, Other(w))
    requires |before| == |mid| == |after| == |stageUsers|
    requires forall j :: 0 <= j < |stageUsers| ==> mid[j] == before[j] + (if stageUsers[j] in winning then a else 0.0)
    requires forall j :: 0 <= j < |stageUsers| ==> after[j] == mid[j] + (if stageUsers[j] in losing then b else 0.0)
    ensures after == Shift(before, votes, w, a, b)
  {
    var shifted := Shift(before, votes, w, a, b);
    forall j | 0 <= j < |stageUsers| ensures after[j] == shifted[j] {
      FilterMember(stageUsers, votes, w, j);
      FilterMember(stageUsers, votes, Other(w), j);
      ShiftAt(before, votes, w, a, b, j);
    }
  }

  /** Unfolds `RoundRatings` for a contested round, with the two averages named. */
  lemma RoundRatingsContested(elos: seq<real>, votes: seq<Side>, k: real, score: Expectation,
                              w: Side, winnerAvg: real, loserAvg: real)
    requires |elos| == |votes| && Decision(votes) == Won(w) && Count(votes, Other(w)) > 0
    requires winnerAvg == Sum(Filter(elos, votes, w)) / (Count(votes, w) as real)
    requires loserAvg == Sum(Filter(elos, votes, Other(w))) / (Count(votes, Other(w)) as real)
    ensures var deltas := TeamUpdate(winnerAvg, loserAvg, k, Count(votes, w), Count(votes, Other(w)), score);
      RoundRatings(elos, votes, k, score) == Shift(elos, votes, w, deltas.0, deltas.1)
  {
  }

  /**
   * The second half of `stage_voting`: split the voters into supporters and
   * opposers, pick the winning team, and apply the team update to both teams.
   */
  method SettleRound(stageUsers: seq<User>, votes: seq<Side>, k: real, score: Expectation)
    returns (decision: RoundDecision)
    requires Distinct(stageUsers) && |votes| == |stageUsers|
    modifies (set u | u in stageUsers)`elo
    ensures decision == Decision(votes)
    ensures Ratings(stageUsers) == RoundRatings(old(Ratings(stageUsers)), votes, k, score)
  {
    ghost var before := Ratings(stageUsers);
    var supporters := Filter(stageUsers, votes, Support);
    var opposers := Filter(stageUsers, votes, Oppose);
    var winning, losing, w;
    if |supporters| == 0 && |opposers| > 0 {
      winning, losing, w := opposers, supporters, Oppose;
    } else if |opposers| == 0 && |supporters| > 0 {
      winning, losing, w := supporters, opposers, Support;
    } else if |supporters| > |opposers| {
      winning, losing, w := supporters, opposers, Support;
    } else if |opposers| > |supporters| {
      winning, losing, w := opposers, supporters, Oppose;
    } else {
      return Draw;
    }
    decision := Won(w);
    assert winning == Filter(stageUsers, votes, w) && losing == Filter(stageUsers, votes, Other(w));
    if |losing| == 0 {
      // No rating change when the losing team is empty.
    } else {
      RatingsFilter(stageUsers, votes, w);
      RatingsFilter(stageUsers, votes, Other(w));
      assert Ratings(winning) == Filter(before, votes, w);
      var averageWinnerElo := Sum(Ratings(winning)) / (|winning| as real);
      var averageLoserElo := Sum(Ratings(losing)) / (|losing| as real);
      var deltas := TeamUpdate(averageWinnerElo, averageLoserElo, k, |winning|, |losing|, score);
      RoundRatingsContested(before, votes, k, score, w, averageWinnerElo, averageLoserElo);
      ApplyTeamDeltas(stageUsers, votes, w, winning, losing, deltas.0, deltas.1);
    }
  }

  /** The two loops at the end of `stage_voting`: every winner gets `a`, every loser `b`. */
  method ApplyTeamDeltas(stageUsers: seq<User>, votes: seq<Side>, w: Side, winning: seq<User>, losing: seq<User>,
                         a: real, b: real)
    requires Distinct(stageUsers) && |votes| == |stageUsers|
    requires winning == Filter(stageUsers, votes, w) && losing == Filter(stageUsers, votes, Other(w))
    modifies (set u | u in stageUsers)`elo
    ensures Ratings(stageUsers) == Shift(old(Ratings(stageUsers)), votes, w, a, b)
  {
    ghost var before := Ratings(stageUsers);
    FilterDistinct(stageUsers, votes, w);
    FilterDistinct(stageUsers, votes, Other(w));
    ApplyDelta(stageUsers, winning, a);
    ghost var mid := Ratings(stageUsers);
    ApplyDelta(stageUsers, losing, b);
    TeamShift(stageUsers, votes, w, winning, losing, before, mid, Ratings(stageUsers), a, b);
  }

  /** The ratings held in a list of user states. */
  function Elos(states: seq<UserState>): (r: seq<real>)
    ensures |r| == |states|
    ensures forall i :: 0 <= i < |states| ==> r[i] == states[i].elo
  {
    seq(|states|, i requires 0 <= i < |states| => states[i].elo)
  }

  /**
   * The votes `vote` casts for `users` in order, user `i` with draw record `i`:
   * the mood is refreshed from the user's fixed traits, then the decision drawn.
   */
  function Ballots(users: seq<User>, quality: real, draws: seq<VoteDraws>): (votes: seq<Side>)
    requires |draws| >= |users|
    ensures |votes| == |users|
  {
    seq(|users|, i requires 0 <= i < |users| =>
      Decide(quality, MoodAdjusted(users[i].goodness, users[i].moodFactor, draws[i].mood),
             draws[i].uniform, draws[i].fallback))
  }

  /**
   * The state of a round's users after it, from their state before it: ratings as
   * `RoundRatings` gives them for the users' ballots, the adjusted goodness left by
   * each user's own mood draw, and one more vote each.
   */
  function AfterRound(before: seq<UserState>, users: seq<User>, quality: real, draws: seq<VoteDraws>,
                      k: real, score: Expectation): (after: seq<UserState>)
    requires |before| == |users| <= |draws|
    ensures |after| == |users|
  {
    var elos := RoundRatings(Elos(before), Ballots(users, quality, draws), k, score);
    seq(|users|, i requires 0 <= i < |users| =>
      UserState(elos[i], MoodAdjusted(users[i].goodness, users[i].moodFactor, draws[i].mood),
                before[i].voteCount + 1))
  }

  /** A whole round keeps the sum of its users' ratings and adds one vote per user. */
  lemma AfterRoundTotals(before: seq<UserState>, users: seq<User>, quality: real, draws: seq<VoteDraws>,
                         k: real, score: Expectation)
    requires |before| == |users| <= |draws|
    ensures var after := AfterRound(before, users, quality, draws, k, score);
      && Sum(Elos(after)) == Sum(Elos(before))
      && forall i :: 0 <= i < |users| ==> after[i].voteCount == before[i].voteCount + 1
  {
    var votes := Ballots(users, quality, draws);
    var after := AfterRound(before, users, quality, draws, k, score);
    assert Elos(after) == RoundRatings(Elos(before), votes, k, score);
    RoundConservesTotal(Elos(before), votes, k, score);
  }

  /**
   * The voting loop of `stage_voting`: every participant votes once, in order, with
   * its own draw record; ratings are not touched.
   */
  method CastVotes(stageUsers: seq<User>, quality: real, draws: seq<VoteDraws>) returns (votes: seq<Side>)
    requires Distinct(stageUsers) && |draws| >= |stageUsers|
    modifies (set u | u in stageUsers)`adjustedGoodness, (set u | u in stageUsers)`voteCount
    ensures votes == Ballots(stageUsers, quality, draws)
    ensures forall i :: 0 <= i < |stageUsers| ==>
      && stageUsers[i].adjustedGoodness == MoodAdjusted(stageUsers[i].goodness, stageUsers[i].moodFactor, draws[i].mood)
      && stageUsers[i].voteCount == old(stageUsers[i].voteCount) + 1
  {
    votes := [];
    var i := 0;
    while i < |stageUsers|
      invariant 0 <= i <= |stageUsers| && votes == Ballots(stageUsers[..i], quality, draws)
      invariant forall j :: 0 <= j < i ==>
        && stageUsers[j].adjustedGoodness == MoodAdjusted(stageUsers[j].goodness, stageUsers[j].moodFactor, draws[j].mood)
        && stageUsers[j].voteCount == old(stageUsers[j].voteCount) + 1
      invariant forall j :: i <= j < |stageUsers| ==> stageUsers[j].voteCount == old(stageUsers[j].voteCount)
    {
      var v := CastVote(stageUsers[i], quality, draws[i]);
      votes := votes + [v];
      i := i + 1;
    }
    assert stageUsers[..i] == stageUsers;
  }

  /**
   * `stage_voting`: the participants vote in order (one draw record each); the
   * votes come back in participation order with the round's decision, and every
   * participant's new state is as `AfterRound` says. Users outside the round are untouched.
   */
  method StageVoting(stageUsers: seq<User>, quality: real, draws: seq<VoteDraws>, k: real, score: Expectation)
    returns (votes: seq<Side>, decision: RoundDecision)
    requires Distinct(stageUsers) && |draws| >= |stageUsers|
    modifies set u | u in stageUsers
    ensures votes == Ballots(stageUsers, quality, draws)
    ensures decision == Decision(votes)
    ensures States(stageUsers) == AfterRound(old(States(stageUsers)), stageUsers, quality, draws, k, score)
  {
    ghost var states := States(stageUsers);
    StatesAt(stageUsers);
    ghost var before := Ratings(stageUsers);
    assert Elos(states) == before;
    votes := CastVotes(stageUsers, quality, draws);
    assert Ratings(stageUsers) == before;
    decision := SettleRound(stageUsers, votes, k, score);
    StatesAt(stageUsers);
    NewStates(states, stageUsers, quality, draws, k, score, Ratings(stageUsers), States(stageUsers));
  }

  /** Assembles `AfterRound` from what the voting loop and the rating update each did. */
  lemma NewStates(before: seq<UserState>, users: seq<User>, quality: real, draws: seq<VoteDraws>,
                  k: real, score: Expectation, elos: seq<real>, now: seq<UserState>)
    requires |before| == |users| <= |draws| && |now| == |users|
    requires elos == RoundRatings(Elos(before), Ballots(users, quality, draws), k, score)
    requires forall i :: 0 <= i < |users| ==>
      now[i] == UserState(elos[i], MoodAdjusted(users[i].goodness, users[i].moodFactor, draws[i].mood),
                          before[i].voteCount + 1)
    ensures now == AfterRound(before, users, quality, draws, k, score)
  {
  }
}
