/**
 * The staged decision protocol (`multi_stage_voting` in simulation.py).
 *
 * Users are sorted by rating. Below 20 users one round decides. Otherwise the
 * sorted list is cut: the lower-rated part is the stage-1 pool, the rest the
 * stage-2 pool. Stage 2 runs only when stage 1 has strictly more support than
 * oppose votes, and a tie at any stage ends in "oppose".
 *
 * `random.sample` is an explicit input: one pick per seat, each read modulo the
 * number of candidates still left, so that any sequence of picks is a valid sample.
 */
module Staged {
  import opened Common
  import opened Elo
  import opened Agents
  import opened Ordering
  import opened Rounds

  /** Below this population one round decides. */
  const SmallPopulation: nat := 20

  /** The draws one stage consumes: the sample picks and one vote record per seat. */
  datatype StageDraws = StageDraws(picks: seq<nat>, votes: seq<VoteDraws>)

  /** The draws one call of `multi_stage_voting` consumes. */
  datatype DecisionDraws = DecisionDraws(stage1: StageDraws, stage2: StageDraws)

  /** The draws suffice for a stage that seats up to `quota` users. */
  predicate Covers(d: StageDraws, quota: nat) {
    |d.picks| >= quota && |d.votes| >= quota
  }

  /** Removing the element at `i` keeps the rest of the list, without that element. */
  lemma RemoveAt<T>(pool: seq<T>, i: nat)
    requires i < |pool|
    ensures forall x :: x in pool[..i] + pool[i + 1..] ==> x in pool
    ensures Distinct(pool) ==> pool[i] !in pool[..i] + pool[i + 1..] && Distinct(pool[..i] + pool[i + 1..])
  {
    var rest := pool[..i] + pool[i + 1..];
    forall x | x in rest ensures x in pool {
      var a :| 0 <= a < |rest| && rest[a] == x;
      var a' := if a < i then a else a + 1;
      assert rest[a] == pool[a'];
    }
    if Distinct(pool) {
      forall a, b | 0 <= a < |rest| && 0 <= b < |rest| && a != b ensures rest[a] != rest[b] {
        var a' := if a < i then a else a + 1;
        var b' := if b < i then b else b + 1;
        assert rest[a] == pool[a'] && rest[b] == pool[b'];
      }
      forall a | 0 <= a < |rest| ensures rest[a] != pool[i] {
        var a' := if a < i then a else a + 1;
        assert rest[a] == pool[a'];
      }
    }
  }

  /** `random.sample(pool, n)`: `n` distinct positions, each pick taken among those still left. */
  function Sample<T>(pool: seq<T>, n: nat, picks: seq<nat>): (r: seq<T>)
    requires n <= |pool| && |picks| >= n
    ensures |r| == n
    ensures forall x :: x in r ==> x in pool
    ensures Distinct(pool) ==> Distinct(r)
    decreases n
  {
    if n == 0 then []
    else
      var i := picks[0] % |pool|;
      RemoveAt(pool, i);
      [pool[i]] + Sample(pool[..i] + pool[i + 1..], n - 1, picks[1..])
  }

  /** The whole pool when it fits the quota, otherwise a sample of `quota` of its members. */
  function Select<T>(pool: seq<T>, quota: nat, picks: seq<nat>): (r: seq<T>)
    requires |picks| >= quota
    ensures |r| == Min(quota, |pool|)
    ensures forall x :: x in r ==> x in pool
    ensures Distinct(pool) ==> Distinct(r)
  {
    if |pool| <= quota then pool else Sample(pool, quota, picks)
  }

  /**
   * The cut index `int(split / 100.0 * n)`, taken here as the exact `split * n / 100`
   * rounded down.
   */
  function Cut(split: nat, n: nat): (c: nat)
    requires split <= 100
    ensures c <= n
    ensures split == 100 ==> c == n
  {
    (split * n) / 100
  }

  /** The users at the positions `order` lists. */
  function Permute(users: seq<User>, order: seq<nat>): (s: seq<User>)
    requires forall i :: 0 <= i < |order| ==> order[i] < |users|
    ensures |s| == |order|
    ensures forall i :: 0 <= i < |s| ==> s[i] == users[order[i]]
  {
    seq(|order|, i requires 0 <= i < |order| => users[order[i]])
  }

  /** `sorted(users, key=lambda u: u.elo)`: the users in stable rating order. */
  function SortedUsers(users: seq<User>): (s: seq<User>)
    reads (set u | u in users)`elo
    ensures |s| == |users|
    ensures forall i :: 0 <= i < |s| ==> s[i] in users
  {
    Permute(users, SortedOrder(Ratings(users)))
  }

  /**
   * The sorted list holds every user exactly once, and ratings never decrease
   * along it.
   */
  lemma SortedUsersFacts(users: seq<User>)
    requires Distinct(users)
    ensures var s := SortedUsers(users);
      && (forall u :: u in users ==> u in s)
      && Distinct(s)
      && (forall i, j :: 0 <= i <= j < |s| ==> s[i].elo <= s[j].elo)
  {
    var keys := Ratings(users);
    var order := SortedOrder(keys);
    SortedOrderFacts(keys, order);
    var s := SortedUsers(users);
    forall u | u in users ensures u in s {
      var j :| 0 <= j < |users| && users[j] == u;
      assert j in order;
      var i :| 0 <= i < |order| && order[i] == j;
      assert s[i] == u;
    }
    forall i, j | 0 <= i < |s| && 0 <= j < |s| && i != j ensures s[i] != s[j] {
      assert order[i] != order[j];
    }
    forall i, j | 0 <= i <= j < |s| ensures s[i].elo <= s[j].elo {
      assert keys[order[i]] <= keys[order[j]];
    }
  }

  /** The stage-1 pool (lower-rated prefix) and the stage-2 pool (the rest). */
  function Pools(users: seq<User>, split: nat): (p: (seq<User>, seq<User>))
    reads (set u | u in users)`elo
    requires split <= 100
    ensures p.0 + p.1 == SortedUsers(users)
    ensures |p.0| == Cut(split, |users|) && |p.1| == |users| - Cut(split, |users|)
  {
    var s := SortedUsers(users);
    var c := Cut(split, |users|);
    assert s[..c] + s[c..] == s;
    (s[..c], s[c..])
  }

  /** From 20 users on, a split of at least 5 and below 100 leaves both pools non-empty. */
  lemma CutLeavesBoth(split: nat, n: nat)
    requires 5 <= split < 100 && SmallPopulation <= n
    ensures 1 <= Cut(split, n) < n
  {
    assert 100 <= 5 * n <= split * n < 100 * n;
  }

  /** Cutting a list of distinct elements gives two disjoint lists that together hold every element. */
  lemma SplitDisjoint<T>(s: seq<T>, c: nat)
    requires Distinct(s) && c <= |s|
    ensures Distinct(s[..c]) && Distinct(s[c..])
    ensures forall x :: x in s <==> x in s[..c] || x in s[c..]
    ensures forall x :: x in s[..c] ==> x !in s[c..]
  {
    assert s == s[..c] + s[c..];
    forall x | x in s[..c] ensures x !in s[c..] {
      var i :| 0 <= i < c && s[i] == x;
      forall j | 0 <= j < |s| - c ensures s[c..][j] != x {
        assert s[c..][j] == s[c + j];
      }
    }
  }

  /**
   * The two pools are disjoint, together hold every user, and nobody in the
   * stage-1 pool is rated above anybody in the stage-2 pool.
   */
  lemma PoolsPartition(users: seq<User>, split: nat)
    requires Distinct(users) && split <= 100
    ensures var p := Pools(users, split);
      && Distinct(p.0) && Distinct(p.1)
      && (forall u :: u in users <==> u in p.0 || u in p.1)
      && (forall u :: u in p.0 ==> u !in p.1)
      && (forall u, v :: u in p.0 && v in p.1 ==> u.elo <= v.elo)
  {
    SortedUsersFacts(users);
    var s := SortedUsers(users);
    var c := Cut(split, |users|);
    SplitDisjoint(s, c);
    assert forall u :: u in users <==> u in s;
    forall u, v | u in s[..c] && v in s[c..] ensures u.elo <= v.elo {
      var i :| 0 <= i < c && s[i] == u;
      var j :| 0 <= j < |s| - c && s[c..][j] == v;
      assert s[c + j] == v;
    }
  }

  /**
   * Strictly more support than oppose votes: more than half of the votes support
   * the post, so never for no votes.
   */
  predicate Majority(votes: seq<Side>): (m: bool)
    ensures m <==> 2 * Count(votes, Support) > |votes|
    ensures m ==> 0 < Count(votes, Support)
  {
    CountPartition(votes);
    Count(votes, Support) > Count(votes, Oppose)
  }

  /** The users stage 1 samples from: everyone below 20 users, otherwise the lower-rated pool. */
  function Stage1Pool(users: seq<User>, split: nat): (pool: seq<User>)
    reads (set u | u in users)`elo
    requires split <= 100
    ensures |pool| == if |users| < SmallPopulation then |users| else Cut(split, |users|)
  {
    if |users| < SmallPopulation then SortedUsers(users) else Pools(users, split).0
  }

  /** The users seated in stage 1. */
  function Stage1Participants(users: seq<User>, split: nat, quota: nat, picks: seq<nat>): (r: seq<User>)
    reads (set u | u in users)`elo
    requires split <= 100 && |picks| >= quota
    ensures |r| == Min(quota, |Stage1Pool(users, split)|)
  {
    Select(Stage1Pool(users, split), quota, picks)
  }

  /** The users seated in stage 2 when it runs (20 users or more, stage-1 majority). */
  function Stage2Participants(users: seq<User>, split: nat, quota: nat, picks: seq<nat>): (r: seq<User>)
    reads (set u | u in users)`elo
    requires split <= 100 && |picks| >= quota
    ensures |r| == Min(quota, |Pools(users, split).1|)
  {
    Select(Pools(users, split).1, quota, picks)
  }

  /**
   * The seated users are distinct members of the population, at most the quota of
   * each stage. From 20 users on, the two stages seat different users, and every
   * stage-1 seat is rated no higher than any stage-2 seat.
   */
  lemma ParticipantsStratified(users: seq<User>, split: nat, q1: nat, q2: nat, picks1: seq<nat>, picks2: seq<nat>)
    requires Distinct(users) && split <= 100 && |picks1| >= q1 && |picks2| >= q2
    ensures var s1 := Stage1Participants(users, split, q1, picks1);
      && |s1| <= q1 && Distinct(s1) && (forall u :: u in s1 ==> u in users)
      && (|users| < SmallPopulation ==> |s1| == Min(q1, |users|))
    ensures |users| >= SmallPopulation ==>
      var s1 := Stage1Participants(users, split, q1, picks1);
      var s2 := Stage2Participants(users, split, q2, picks2);
      && |s2| <= q2 && Distinct(s2) && (forall u :: u in s2 ==> u in users)
      && (forall u :: u in s1 ==> u !in s2)
      && (forall u, v :: u in s1 && v in s2 ==> u.elo <= v.elo)
  {
    SortedUsersFacts(users);
    PoolsPartition(users, split);
    var p := Pools(users, split);
    var pool1 := Stage1Pool(users, split);
    assert Distinct(pool1) && forall u :: u in pool1 ==> u in users;
    var s1 := Stage1Participants(users, split, q1, picks1);
    assert s1 == Select(pool1, q1, picks1);
    if |users| >= SmallPopulation {
      assert pool1 == p.0;
      var s2 := Stage2Participants(users, split, q2, picks2);
      assert s2 == Select(p.1, q2, picks2);
      assert forall u :: u in s1 ==> u in p.0;
      assert forall u :: u in s2 ==> u in p.1;
    }
  }

  /** What `multi_stage_voting` returns: the last stage's votes, the decision, the sample size, the participants. */
  datatype DecisionRecord = DecisionRecord(votes: seq<Side>, decision: Side, sampleSize: nat,
                                           stage1: seq<User>, stage2: seq<User>)

  /**
   * The decision rule of `multi_stage_voting`, over values. Stage 1's votes are the
   * ballots of its seats. From 20 users on, a strict stage-1 majority sends the post
   * to stage 2, whose ballots then decide; otherwise stage 1's votes decide and
   * nobody sits in stage 2. The post is published exactly on a strict majority of
   * the deciding votes, and the sample size counts both stages.
   */
  ghost predicate Protocol(rec: DecisionRecord, votes1: seq<Side>, quality: real, d: DecisionDraws, population: nat) {
    && |rec.stage1| <= |d.stage1.votes| && |rec.stage2| <= |d.stage2.votes|
    && votes1 == Ballots(rec.stage1, quality, d.stage1.votes)
    && (if population >= SmallPopulation && Majority(votes1)
        then rec.votes == Ballots(rec.stage2, quality, d.stage2.votes)
        else rec.votes == votes1 && rec.stage2 == [])
    && (rec.decision == Support <==> Majority(rec.votes))
    && rec.sampleSize == |rec.stage1| + |rec.stage2|
  }

  /**
   * Who sat in each stage of a decision among `users`: as many as the quota allows
   * from the stage's pool (everyone below 20 users, otherwise the lower `Cut` for
   * stage 1 and the rest for stage 2, which seats nobody unless it ran), all of
   * them distinct members of the population.
   */
  ghost predicate Seated(rec: DecisionRecord, votes1: seq<Side>, users: seq<User>, q1: nat, q2: nat, split: nat)
    requires split <= 100
  {
    var n := |users|;
    && |rec.stage1| == Min(q1, if n < SmallPopulation then n else Cut(split, n))
    && |rec.stage2| == (if n >= SmallPopulation && Majority(votes1) then Min(q2, n - Cut(split, n)) else 0)
    && Distinct(rec.stage1 + rec.stage2)
    && forall u :: u in rec.stage1 + rec.stage2 ==> u in users
  }

  /**
   * The seats each stage would fill among `users`, as values: distinct members of
   * the population, as many as the quota and the stage's pool allow, the two
   * stages disjoint from 20 users on.
   */
  ghost predicate SeatsFit(s1: seq<User>, s2: seq<User>, users: seq<User>, q1: nat, q2: nat, split: nat)
    requires split <= 100
  {
    var n := |users|;
    && |s1| == Min(q1, if n < SmallPopulation then n else Cut(split, n))
    && Distinct(s1) && (forall u :: u in s1 ==> u in users)
    && (n >= SmallPopulation ==>
         && |s2| == Min(q2, n - Cut(split, n))
         && Distinct(s2) && (forall u :: u in s2 ==> u in users)
         && (forall u :: u in s1 ==> u !in s2))
  }

  /** The participants of both stages fit their pools. */
  lemma Seats(users: seq<User>, split: nat, q1: nat, q2: nat, picks1: seq<nat>, picks2: seq<nat>)
    returns (s1: seq<User>, s2: seq<User>)
    requires Distinct(users) && split <= 100 && |picks1| >= q1 && |picks2| >= q2
    ensures s1 == Stage1Participants(users, split, q1, picks1)
    ensures s2 == Stage2Participants(users, split, q2, picks2)
    ensures SeatsFit(s1, s2, users, q1, q2, split)
  {
    s1 := Stage1Participants(users, split, q1, picks1);
    s2 := Stage2Participants(users, split, q2, picks2);
    ParticipantsStratified(users, split, q1, q2, picks1, picks2);
  }

  /** A decision that seats the fitting participants, the second stage only when it ran, is seated. */
  lemma SeatedBy(rec: DecisionRecord, votes1: seq<Side>, users: seq<User>, q1: nat, q2: nat, split: nat,
                 s1: seq<User>, s2: seq<User>)
    requires split <= 100 && SeatsFit(s1, s2, users, q1, q2, split)
    requires rec.stage1 == s1
    requires rec.stage2 == if |users| >= SmallPopulation && Majority(votes1) then s2 else []
    ensures Seated(rec, votes1, users, q1, q2, split)
  {
    if rec.stage2 != [] {
      DistinctAppend(s1, s2);
    } else {
      assert rec.stage1 + rec.stage2 == s1;
    }
  }

  /** A post is published only after a strict stage-1 majority, so only when somebody voted for it. */
  lemma PublishedNeedsMajority(rec: DecisionRecord, votes1: seq<Side>, quality: real, d: DecisionDraws, population: nat)
    requires Protocol(rec, votes1, quality, d, population) && rec.decision == Support
    ensures Majority(votes1) && Majority(rec.votes) && 0 < Count(rec.votes, Support)
    ensures 0 < |rec.stage1| <= rec.sampleSize
    ensures population >= SmallPopulation ==> 0 < |rec.stage2| && rec.votes == Ballots(rec.stage2, quality, d.stage2.votes)
  {
    if !Majority(votes1) || population < SmallPopulation {
      assert rec.votes == votes1;
    }
    assert 0 < Count(votes1, Support) <= |votes1|;
    if population >= SmallPopulation {
      assert 0 < Count(rec.votes, Support) <= |rec.votes|;
    }
  }

  /** Every seated voter's uniform draw falls below its mood-adjusted goodness: each votes the correct side. */
  ghost predicate Honest(users: seq<User>, draws: seq<VoteDraws>) {
    && |users| <= |draws|
    && forall i :: 0 <= i < |users| ==>
         draws[i].uniform < MoodAdjusted(users[i].goodness, users[i].moodFactor, draws[i].mood)
  }

  /**
   * A jury of honest voters decides correctly: a good post is published and a bad one
   * rejected, as long as stage 1 seats somebody and, when a good post reaches stage 2,
   * stage 2 does too.
   */
  lemma HonestJuryDecidesCorrectly(rec: DecisionRecord, votes1: seq<Side>, quality: real, d: DecisionDraws,
                                   population: nat)
    requires Protocol(rec, votes1, quality, d, population)
    requires Honest(rec.stage1, d.stage1.votes) && Honest(rec.stage2, d.stage2.votes)
    requires rec.stage1 != []
    requires population >= SmallPopulation && quality >= 0.5 ==> rec.stage2 != []
    ensures rec.decision == CorrectSide(quality)
  {
    var side := CorrectSide(quality);
    CountUniform(votes1, side);
    if population >= SmallPopulation && Majority(votes1) {
      CountUniform(rec.votes, side);
    }
  }

  /**
   * One stage: a sample of `pool` votes in a round. Users outside the pool (the
   * ghost list `others` names those a caller cares about) are untouched.
   */
  method Stage(ghost others: seq<User>, pool: seq<User>, quota: nat, quality: real, d: StageDraws,
               k: real, score: Expectation)
    returns (seated: seq<User>, votes: seq<Side>)
    requires Distinct(pool) && Covers(d, quota)
    requires forall u :: u in others ==> u !in pool
    modifies set u | u in pool
    ensures seated == Select(pool, quota, d.picks)
    ensures votes == Ballots(seated, quality, d.votes)
    ensures States(seated) == AfterRound(old(States(Select(pool, quota, d.picks))), seated, quality, d.votes, k, score)
    ensures forall u :: u in others ==> StateOf(u) == old(StateOf(u))
    ensures forall u :: u in pool && u !in seated ==> StateOf(u) == old(StateOf(u))
  {
    seated := Select(pool, quota, d.picks);
    var roundDecision;
    votes, roundDecision := StageVoting(seated, quality, d.votes, k, score);
  }

  /** The single round below 20 users: a strict majority publishes, anything else rejects. */
  method SingleStage(sortedUsers: seq<User>, quota: nat, quality: real, d: StageDraws, k: real, score: Expectation)
    returns (rec: DecisionRecord, ghost votes1: seq<Side>)
    requires Distinct(sortedUsers) && Covers(d, quota)
    modifies set u | u in sortedUsers
    ensures rec.stage1 == Select(sortedUsers, quota, d.picks) && rec.stage2 == []
    ensures votes1 == Ballots(rec.stage1, quality, d.votes) && rec.votes == votes1
    ensures rec.sampleSize == |rec.stage1| && (rec.decision == Support <==> Majority(votes1))
    ensures States(rec.stage1) ==
      AfterRound(old(States(Select(sortedUsers, quota, d.picks))), rec.stage1, quality, d.votes, k, score)
    ensures forall u :: u in sortedUsers && u !in rec.stage1 ==> StateOf(u) == old(StateOf(u))
  {
    var sampleSize: nat := 0;
    var stageUsers, votes := Stage([], sortedUsers, quota, quality, d, k, score);
    sampleSize := sampleSize + |votes|;
    var t := CountVotes(votes);
    var decision;
    if t.total > 0 {
      decision := if t.majoritySupported then Support else Oppose;
    } else {
      decision := Oppose;
    }
    votes1 := votes;
    rec := DecisionRecord(votes, decision, sampleSize, stageUsers, []);
  }

  /**
   * What follows stage 1 from 20 users on: without a strict stage-1 majority the
   * decision is "oppose" on the stage-1 votes; with one, a stage-2 round in the
   * upper pool decides. The stage-1 seats are not in the upper pool and stay untouched.
   */
  method AfterFirstStage(ghost pool1: seq<User>, stage1: seq<User>, votes1: seq<Side>, pool2: seq<User>, q2: nat,
                         quality: real, d: DecisionDraws, k: real, score: Expectation)
    returns (rec: DecisionRecord)
    requires Distinct(pool2) && Covers(d.stage2, q2)
    requires |stage1| <= |d.stage1.votes| && votes1 == Ballots(stage1, quality, d.stage1.votes)
    requires forall u :: u in stage1 ==> u !in pool2
    requires forall u :: u in pool1 ==> u !in pool2
    modifies set u | u in pool2
    ensures rec.stage1 == stage1
    ensures rec.stage2 == if Majority(votes1) then Select(pool2, q2, d.stage2.picks) else []
    ensures Protocol(rec, votes1, quality, d, SmallPopulation)
    ensures Majority(votes1) ==>
      States(rec.stage2) ==
        AfterRound(old(States(Select(pool2, q2, d.stage2.picks))), rec.stage2, quality, d.stage2.votes, k, score)
    ensures States(stage1) == old(States(stage1))
    ensures forall u :: u in pool1 ==> StateOf(u) == old(StateOf(u))
    ensures forall u :: u in pool2 && u !in rec.stage2 ==> StateOf(u) == old(StateOf(u))
  {
    var sampleSize: nat := |votes1|;
    var t := CountVotes(votes1);
    if t.total > 0 && t.majoritySupported {
      var stage2Selected, v2 := Stage(stage1, pool2, q2, quality, d.stage2, k, score);
      assert States(stage1) == old(States(stage1));
      sampleSize := sampleSize + |v2|;
      var t2 := CountVotes(v2);
      var decision;
      if t2.total > 0 {
        decision := if t2.support > t2.oppose then Support else Oppose;
      } else {
        decision := Oppose;
      }
      rec := DecisionRecord(v2, decision, sampleSize, stage1, stage2Selected);
    } else {
      rec := DecisionRecord(votes1, Oppose, sampleSize, stage1, []);
    }
  }

  /**
   * The two stages from 20 users on: stage 1 samples the lower-rated pool, and only
   * a strict stage-1 majority sends the decision to a stage-2 round in the upper pool.
   */
  method TwoStages(pool1: seq<User>, pool2: seq<User>, q1: nat, q2: nat, quality: real,
                   d: DecisionDraws, k: real, score: Expectation)
    returns (rec: DecisionRecord, ghost votes1: seq<Side>)
    requires Distinct(pool1) && Distinct(pool2) && forall u :: u in pool1 ==> u !in pool2
    requires Covers(d.stage1, q1) && Covers(d.stage2, q2)
    modifies set u | u in pool1, set u | u in pool2
    ensures rec.stage1 == Select(pool1, q1, d.stage1.picks)
    ensures rec.stage2 == if Majority(votes1) then Select(pool2, q2, d.stage2.picks) else []
    ensures Protocol(rec, votes1, quality, d, SmallPopulation)
    ensures States(rec.stage1) ==
      AfterRound(old(States(Select(pool1, q1, d.stage1.picks))), rec.stage1, quality, d.stage1.votes, k, score)
    ensures Majority(votes1) ==>
      States(rec.stage2) ==
        AfterRound(old(States(Select(pool2, q2, d.stage2.picks))), rec.stage2, quality, d.stage2.votes, k, score)
    ensures forall u :: u in pool1 && u !in rec.stage1 ==> StateOf(u) == old(StateOf(u))
    ensures forall u :: u in pool2 && u !in rec.stage2 ==> StateOf(u) == old(StateOf(u))
  {
    ghost var upper := States(Select(pool2, q2, d.stage2.picks));
    var stage1Selected, v1 := Stage(pool2, pool1, q1, quality, d.stage1, k, score);
    assert States(Select(pool2, q2, d.stage2.picks)) == upper;
    votes1 := v1;
    rec := AfterFirstStage(pool1, stage1Selected, v1, pool2, q2, quality, d, k, score);
  }

  /**
   * `multi_stage_voting`. `votes1` is the stage-1 vote list, which the source
   * returns only when stage 2 did not run.
   */
  method MultiStageVoting(quality: real, users: seq<User>, stage1Users: nat, stage2Users: nat, k: real,
                          split: nat, score: Expectation, d: DecisionDraws)
    returns (rec: DecisionRecord, ghost votes1: seq<Side>)
    requires Distinct(users) && split <= 100
    requires Covers(d.stage1, stage1Users) && Covers(d.stage2, stage2Users)
    modifies set u | u in users
    // an empty population rejects without a vote
    ensures users == [] ==> rec == DecisionRecord([], Oppose, 0, [], []) && votes1 == []
    ensures rec.stage1 == old(Stage1Participants(users, split, stage1Users, d.stage1.picks))
    ensures rec.stage2 ==
      if |users| >= SmallPopulation && Majority(votes1)
      then old(Stage2Participants(users, split, stage2Users, d.stage2.picks)) else []
    ensures Protocol(rec, votes1, quality, d, |users|)
    // every participant's new state is its round's update of its old one
    ensures States(rec.stage1) == AfterRound(old(States(Stage1Participants(users, split, stage1Users, d.stage1.picks))),
                                             rec.stage1, quality, d.stage1.votes, k, score)
    ensures |users| >= SmallPopulation && Majority(votes1) ==>
      States(rec.stage2) == AfterRound(old(States(Stage2Participants(users, split, stage2Users, d.stage2.picks))),
                                       rec.stage2, quality, d.stage2.votes, k, score)
    ensures forall u :: u in users && u !in rec.stage1 && u !in rec.stage2 ==> StateOf(u) == old(StateOf(u))
  {
    if users == [] {
      return DecisionRecord([], Oppose, 0, [], []), [];
    }
    SortedUsersFacts(users);
    var sortedUsers := SortedUsers(users);
    var n := |sortedUsers|;
    if n < SmallPopulation {
      rec, votes1 := SingleStage(sortedUsers, stage1Users, quality, d.stage1, k, score);
    } else {
      PoolsPartition(users, split);
      var cut := Cut(split, n);
      assert sortedUsers[..cut] == Pools(users, split).0 && sortedUsers[cut..] == Pools(users, split).1;
      rec, votes1 := TwoStages(sortedUsers[..cut], sortedUsers[cut..], stage1Users, stage2Users, quality, d, k, score);
    }
  }
}
