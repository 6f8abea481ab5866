/**
 * The comment-ranking simulation (simulations/comments.py): users of fixed rating
 * judge pairs of comments, and the comment a user prefers wins a pairwise Elo
 * update against the other.
 *
 * As in the moderation model, every random draw is an input: the Gaussian rating
 * draw, the quality draws, the uniform draw a comparison tests against the
 * perception accuracy, the coin `random.choice([a, b])` flips, and the indices
 * `random.choice` picks (any natural number, read modulo the list length).
 */
module Comments {
  import opened Common
  import opened Elo
  import opened Ordering
  import Agents

  datatype Option<T> = None | Some(value: T)

  /** The rating a new comment starts with. */
  const StartingElo: real := 800.0
  /** `elo_update`'s default K factor, which the comment simulation never overrides. */
  const KFactor: real := 32.0
  /** How far, in rating points, comment B may be from comment A. */
  const EloRange: real := 100.0
  /** No comparison is more reliable than this. */
  const AccuracyCap: real := 0.99
  /** Only users rated strictly above this vote. */
  const VotingThreshold: real := 800.0
  /** Comparisons run after each new comment arrives. */
  const VotingRoundsPerComment: nat := 20

  class User {
    const id: nat
    const elo: real
    var voteCount: nat
    var percentileRank: Option<real>

    /** `User.__init__`: the Gaussian draw, floored at 0; no percentile yet. */
    constructor (id: nat, gaussian: real)
      ensures this.id == id && voteCount == 0 && percentileRank == None
      ensures 0.0 <= elo && (elo == gaussian || elo == 0.0)
      ensures 0.0 <= gaussian ==> elo == gaussian
    {
      this.id := id;
      elo := if gaussian > 0.0 then gaussian else 0.0;
      voteCount := 0;
      percentileRank := None;
    }

    /**
     * `get_voting_accuracy`: a coin flip (0.5) without a percentile, otherwise a
     * straight line from 0.5 at the 0th percentile to 1.0 at the 100th. The line
     * is one-to-one, so the percentile can be read back from the accuracy.
     */
    function GetVotingAccuracy(): (a: real)
      reads this`percentileRank
      ensures percentileRank == None ==> a == 0.5
      ensures percentileRank != None ==> percentileRank.value == (a - 0.5) * 200.0
      ensures percentileRank != None && 0.0 <= percentileRank.value <= 100.0 ==> 0.5 <= a <= 1.0
    {
      match percentileRank
      case None => 0.5
      case Some(p) => 0.5 + 0.5 * (p / 100.0)
    }
  }

  class Comment {
    const id: nat
    const quality: real
    var elo: real
    var upvotes: nat
    var downvotes: nat

    /** `Comment.__init__`: quality drawn like a user's goodness, rating 800, no votes. */
    constructor (id: nat, exponential: real, uniform: real)
      ensures this.id == id && quality == Agents.GenerateGoodness(exponential, uniform)
      ensures elo == StartingElo && upvotes == 0 && downvotes == 0
    {
      this.id := id;
      quality := Agents.GenerateGoodness(exponential, uniform);
      elo := StartingElo;
      upvotes := 0;
      downvotes := 0;
    }

    /** `get_total_votes`: every vote is an upvote or a downvote. */
    function GetTotalVotes(): (t: nat)
      reads this
      ensures upvotes <= t && downvotes <= t
      ensures t == 0 <==> upvotes == 0 && downvotes == 0
    {
      upvotes + downvotes
    }

    /**
     * `get_score`: net votes. It never exceeds the total in size, and together
     * with the total it gives back both counters.
     */
    function GetScore(): (s: int)
      reads this
      ensures -(GetTotalVotes() as int) <= s <= GetTotalVotes()
      ensures GetTotalVotes() + s == 2 * upvotes && GetTotalVotes() - s == 2 * downvotes
    {
      upvotes - downvotes
    }
  }

  /** The ratings of a list of comments, in list order. */
  function CommentElos(cs: seq<Comment>): (r: seq<real>)
    reads (set c | c in cs)`elo
    ensures |r| == |cs|
    ensures forall i :: 0 <= i < |cs| ==> r[i] == cs[i].elo
  {
    if cs == [] then [] else CommentElos(cs[..|cs| - 1]) + [cs[|cs| - 1].elo]
  }

  /** The (fixed) ratings of a list of users, in list order. */
  function UserElos(users: seq<User>): (r: seq<real>)
    ensures |r| == |users|
    ensures forall i :: 0 <= i < |users| ==> r[i] == users[i].elo
  {
    seq(|users|, i requires 0 <= i < |users| => users[i].elo)
  }

  /** The percentile of sorted position `p` among `n` users; a sole user sits at the 50th. */
  function RankAt(p: nat, n: nat): (r: real)
    requires p < n
    ensures 0.0 <= r <= 100.0
    ensures n == 1 ==> r == 50.0
    ensures n > 1 && p == 0 ==> r == 0.0
    ensures n > 1 && p == n - 1 ==> r == 100.0
  {
    if n > 1 then
      var f := p as real / (n - 1) as real;
      assert 0.0 <= f <= 1.0 by {
        assert f * (n - 1) as real == p as real;
      }
      f * 100.0
    else 50.0
  }

  /** Later sorted positions get strictly higher percentiles. */
  lemma RankAtIncreasing(p: nat, q: nat, n: nat)
    requires p < q < n
    ensures RankAt(p, n) < RankAt(q, n)
  {
    var d := (n - 1) as real;
    assert p as real / d < q as real / d by {
      assert (p as real / d) * d == p as real;
      assert (q as real / d) * d == q as real;
    }
  }

  /** Each user at sorted position `p` of `order` holds the percentile of that position. */
  ghost predicate Ranked(users: seq<User>, order: seq<nat>)
    reads set u | u in users
  {
    && |order| == |users|
    && InBounds(UserElos(users), order)
    && forall p :: 0 <= p < |order| ==> users[order[p]].percentileRank == Some(RankAt(p, |users|))
  }

  /**
   * `calculate_percentile_ranks`: walk the users in stable rating order and give
   * the i-th of them the i-th percentile. Only the percentiles change.
   */
  method CalculatePercentileRanks(users: seq<User>)
    requires Distinct(users)
    modifies (set u | u in users)`percentileRank
    ensures Ranked(users, SortedOrder(UserElos(users)))
  {
    var order := SortedOrder(UserElos(users));
    SortedOrderFacts(UserElos(users), order);
    var n := |users|;
    for p := 0 to n
      invariant forall q :: 0 <= q < p ==> users[order[q]].percentileRank == Some(RankAt(q, n))
    {
      assert forall q :: 0 <= q < p ==> users[order[q]] != users[order[p]];
      users[order[p]].percentileRank := Some(if n > 1 then (p as real / (n - 1) as real) * 100.0 else 50.0);
    }
  }

  /**
   * What the percentiles mean: all of them lie in [0, 100], so every user's
   * voting accuracy lies in [0.5, 1]; a sole user has the 50th, and otherwise a
   * lowest-rated user has the 0th and a highest-rated one the 100th.
   */
  lemma PercentileRanksRange(users: seq<User>)
    requires Ranked(users, SortedOrder(UserElos(users)))
    ensures forall i :: 0 <= i < |users| ==>
      users[i].percentileRank != None && 0.0 <= users[i].percentileRank.value <= 100.0
    ensures forall i :: 0 <= i < |users| ==> 0.5 <= users[i].GetVotingAccuracy() <= 1.0
    ensures |users| == 1 ==> users[0].percentileRank == Some(50.0)
    ensures |users| > 1 ==> exists i :: 0 <= i < |users| && users[i].percentileRank == Some(0.0) &&
                                        forall j :: 0 <= j < |users| ==> users[i].elo <= users[j].elo
    ensures |users| > 1 ==> exists i :: 0 <= i < |users| && users[i].percentileRank == Some(100.0) &&
                                        forall j :: 0 <= j < |users| ==> users[j].elo <= users[i].elo
  {
    var keys := UserElos(users);
    var order := SortedOrder(keys);
    var n := |users|;
    SortedOrderFacts(keys, order);
    forall i | 0 <= i < n
      ensures users[i].percentileRank != None && 0.0 <= users[i].percentileRank.value <= 100.0
    {
      assert i in order;
      var p :| 0 <= p < n && order[p] == i;
      assert users[order[p]].percentileRank == Some(RankAt(p, n));
    }
    if n == 1 {
      assert order[0] == 0;
      assert users[order[0]].percentileRank == Some(RankAt(0, n));
    }
    if n > 1 {
      assert users[order[0]].percentileRank == Some(RankAt(0, n));
      forall j | 0 <= j < n ensures users[order[0]].elo <= users[j].elo {
        assert j in order;
        var q :| 0 <= q < n && order[q] == j;
      }
      assert users[order[n - 1]].percentileRank == Some(RankAt(n - 1, n));
      forall j | 0 <= j < n ensures users[j].elo <= users[order[n - 1]].elo {
        assert j in order;
        var q :| 0 <= q < n && order[q] == j;
      }
    }
  }

  /**
   * Percentiles follow ratings: a higher rating always means a strictly higher
   * percentile, and no two users share one.
   */
  lemma PercentileRanksOrder(users: seq<User>)
    requires Ranked(users, SortedOrder(UserElos(users)))
    ensures forall i, j :: 0 <= i < |users| && 0 <= j < |users| && users[i].elo < users[j].elo ==>
      users[i].percentileRank != None && users[j].percentileRank != None &&
      users[i].percentileRank.value < users[j].percentileRank.value
    ensures forall i, j :: 0 <= i < |users| && 0 <= j < |users| && i != j ==>
      users[i].percentileRank != users[j].percentileRank
  {
    var keys := UserElos(users);
    var order := SortedOrder(keys);
    var n := |users|;
    SortedOrderFacts(keys, order);
    forall i, j | 0 <= i < n && 0 <= j < n && i != j
      ensures users[i].percentileRank != users[j].percentileRank
      ensures users[i].elo < users[j].elo ==>
        users[i].percentileRank != None && users[j].percentileRank != None &&
        users[i].percentileRank.value < users[j].percentileRank.value
    {
      assert i in order && j in order;
      var p :| 0 <= p < n && order[p] == i;
      var q :| 0 <= q < n && order[q] == j;
      assert users[i].percentileRank == Some(RankAt(p, n));
      assert users[j].percentileRank == Some(RankAt(q, n));
      if p < q {
        RankAtIncreasing(p, q, n);
      } else {
        RankAtIncreasing(q, p, n);
      }
    }
  }

  /**
   * The perception accuracy of a comparison: the voter's accuracy scaled by
   * `0.5 + |quality difference|`, capped at 0.99. It never drops below a quarter
   * for a voter whose accuracy is at least a coin flip.
   */
  function PerceptionAccuracy(votingAccuracy: real, qualityA: real, qualityB: real): (p: real)
    ensures p <= AccuracyCap && p <= votingAccuracy * (0.5 + Dist(qualityA, qualityB))
    ensures 0.5 <= votingAccuracy ==> 0.25 <= p
    ensures p == AccuracyCap || p == votingAccuracy * (0.5 + Dist(qualityA, qualityB))
  {
    var raw := votingAccuracy * (0.5 + Dist(qualityA, qualityB));
    assert 0.5 <= votingAccuracy ==> 0.25 <= raw by {
      if 0.5 <= votingAccuracy {
        assert votingAccuracy * 0.5 <= votingAccuracy * (0.5 + Dist(qualityA, qualityB));
      }
    }
    if AccuracyCap < raw then AccuracyCap else raw
  }

  /** A clearer quality gap never makes the comparison less reliable. */
  lemma PerceptionAccuracyMonotone(votingAccuracy: real, qa: real, qb: real, qc: real, qd: real)
    requires 0.0 <= votingAccuracy && Dist(qa, qb) <= Dist(qc, qd)
    ensures PerceptionAccuracy(votingAccuracy, qa, qb) <= PerceptionAccuracy(votingAccuracy, qc, qd)
  {
    var gap := Dist(qc, qd) - Dist(qa, qb);
    assert 0.0 <= votingAccuracy * gap;
    assert votingAccuracy * (0.5 + Dist(qc, qd)) == votingAccuracy * (0.5 + Dist(qa, qb)) + votingAccuracy * gap;
  }

  function Dist(x: real, y: real): (d: real)
    ensures 0.0 <= d && (d == x - y || d == y - x)
  {
    if x >= y then x - y else y - x
  }

  /** The better of two comments; `comment_b` when their qualities are equal. */
  function Higher(a: Comment, b: Comment): (h: Comment)
    ensures h == a || h == b
    ensures h.quality >= a.quality && h.quality >= b.quality
    ensures a.quality == b.quality ==> h == b
  {
    if a.quality > b.quality then a else b
  }

  /** The draws one comparison consumes: the uniform draw and the `random.choice([a, b])` coin. */
  datatype CompareDraws = CompareDraws(uniform: real, pickB: bool)

  /** The perception accuracy of `user` comparing `a` with `b`. */
  function Perceived(user: User, a: Comment, b: Comment): real
    reads user`percentileRank
  {
    PerceptionAccuracy(user.GetVotingAccuracy(), a.quality, b.quality)
  }

  /**
   * The comment a comparison with perception accuracy `accuracy` picks: the better
   * one when the draw falls below the accuracy, otherwise the one the coin names.
   */
  function Choice(a: Comment, b: Comment, accuracy: real, d: CompareDraws): (c: Comment)
    ensures c == a || c == b
    ensures d.uniform < accuracy ==> c == Higher(a, b)
    ensures accuracy <= d.uniform ==> c == (if d.pickB then b else a)
  {
    if d.uniform < accuracy then Higher(a, b) else if d.pickB then b else a
  }

  /**
   * `compare_comments`: with a draw below the perception accuracy the voter
   * picks the better comment, otherwise either one at random; the vote is counted.
   */
  method CompareComments(user: User, a: Comment, b: Comment, d: CompareDraws) returns (chosen: Comment)
    modifies user`voteCount
    ensures chosen == Choice(a, b, Perceived(user, a, b), d)
    ensures user.voteCount == old(user.voteCount) + 1
  {
    var higher := if a.quality > b.quality then a else b;
    var qualityDiff := if a.quality - b.quality >= 0.0 then a.quality - b.quality else b.quality - a.quality;
    var accuracy := user.GetVotingAccuracy() * (0.5 + qualityDiff);
    accuracy := if AccuracyCap < accuracy then AccuracyCap else accuracy;
    if d.uniform < accuracy {
      chosen := higher;
    } else {
      chosen := if d.pickB then b else a;
    }
    user.voteCount := user.voteCount + 1;
  }

  /** `max(1, int(n * 0.3))`: how many of the newest comments comment A is drawn from. */
  function NewestCount(n: nat): (c: nat)
    ensures 1 <= c
    ensures 1 <= n ==> c <= n
    ensures 10 * c <= 3 * n || c == 1
    ensures 3 * n < 10 * (c + 1)
  {
    var c := (3 * n) / 10;
    if c < 1 then 1 else c
  }

  /** Index of comment A: the pick reads into the newest `NewestCount` comments. */
  function PickA(n: nat, pick: nat): (a: nat)
    requires 1 <= n
    ensures n - NewestCount(n) <= a < n
  {
    n - NewestCount(n) + pick % NewestCount(n)
  }

  /** Indices of the comments other than `a` whose rating is within `EloRange` of A's, in list order. */
  function InRange(elos: seq<real>, a: nat, m: nat): (r: seq<nat>)
    requires a < |elos| && m <= |elos|
    ensures forall j :: j in r <==> 0 <= j < m && j != a && Dist(elos[j], elos[a]) <= EloRange
    ensures forall i :: 0 <= i < |r| ==> r[i] < m
  {
    if m == 0 then []
    else
      var rest := InRange(elos, a, m - 1);
      if m - 1 != a && Dist(elos[m - 1], elos[a]) <= EloRange then rest + [m - 1] else rest
  }

  /** Positions below `m` hold some comment other than `a`. */
  predicate HasOther(a: nat, m: nat) {
    m >= 2 || (m == 1 && a != 0)
  }

  /**
   * The first comment below position `m`, other than `a`, at the smallest rating
   * distance from A: what `sorted(..., key=distance)[0]` returns, since the sort
   * is stable.
   */
  function Closest(elos: seq<real>, a: nat, m: nat): (r: nat)
    requires a < |elos| && m <= |elos| && HasOther(a, m)
    ensures r < m && r != a
    ensures forall j :: 0 <= j < m && j != a ==> Dist(elos[r], elos[a]) <= Dist(elos[j], elos[a])
    ensures forall j :: 0 <= j < r && j != a ==> Dist(elos[r], elos[a]) < Dist(elos[j], elos[a])
  {
    var last := m - 1;
    if last == a then Closest(elos, a, m - 1)
    else if last == 0 || (last == 1 && a == 0) then last
    else
      var r := Closest(elos, a, m - 1);
      if Dist(elos[last], elos[a]) < Dist(elos[r], elos[a]) then last else r
  }

  /**
   * Index of comment B: a random comment within range of A if there is one,
   * otherwise the closest. B is never A.
   */
  function ChooseB(elos: seq<real>, a: nat, pick: nat): (b: nat)
    requires 2 <= |elos| && a < |elos|
    ensures b < |elos| && b != a
    ensures (exists j :: 0 <= j < |elos| && j != a && Dist(elos[j], elos[a]) <= EloRange) ==>
      Dist(elos[b], elos[a]) <= EloRange
    ensures forall j :: 0 <= j < |elos| && j != a ==>
      Dist(elos[b], elos[a]) <= EloRange || Dist(elos[b], elos[a]) <= Dist(elos[j], elos[a])
  {
    var candidates := InRange(elos, a, |elos|);
    if candidates == [] then Closest(elos, a, |elos|)
    else
      assert candidates[pick % |candidates|] in candidates;
      candidates[pick % |candidates|]
  }

  /** Every comment within range of A can be drawn as B: the pick ranges over all of them. */
  lemma ChooseBReachesRange(elos: seq<real>, a: nat, j: nat)
    requires 2 <= |elos| && a < |elos|
    requires j < |elos| && j != a && Dist(elos[j], elos[a]) <= EloRange
    ensures exists pick: nat :: ChooseB(elos, a, pick) == j
  {
    var candidates := InRange(elos, a, |elos|);
    assert j in candidates;
    var k :| 0 <= k < |candidates| && candidates[k] == j;
    assert k % |candidates| == k;
    assert ChooseB(elos, a, k) == j;
  }

  /**
   * The ratings after comment `w` beats comment `l`: only those two move, and
   * their sum is unchanged.
   */
  function PairStep(elos: seq<real>, w: nat, l: nat, score: Expectation): (r: seq<real>)
    requires w < |elos| && l < |elos| && w != l
    ensures |r| == |elos|
    ensures r[w] + r[l] == elos[w] + elos[l]
    ensures forall j :: 0 <= j < |elos| && j != w && j != l ==> r[j] == elos[j]
    ensures score(elos[w], elos[l]) <= 1.0 ==> elos[w] <= r[w] && r[l] <= elos[l]
  {
    var u := EloUpdate(elos[w], elos[l], KFactor, score);
    elos[w := u.0][l := u.1]
  }

  /** One comparison never changes the sum of all comment ratings. */
  lemma PairStepConservesTotal(elos: seq<real>, w: nat, l: nat, score: Expectation)
    requires w < |elos| && l < |elos| && w != l
    ensures Sum(PairStep(elos, w, l, score)) == Sum(elos)
  {
    var u := EloUpdate(elos[w], elos[l], KFactor, score);
    SumUpdate(elos, w, u.0);
    SumUpdate(elos[w := u.0], l, u.1);
  }

  /** `[user for user in all_users if user.elo > 800]`, in list order. */
  function VotingUsers(users: seq<User>): (v: seq<User>)
    ensures forall u :: u in v ==> u in users && u.elo > VotingThreshold
    ensures forall i :: 0 <= i < |users| && users[i].elo > VotingThreshold ==> users[i] in v
    ensures Distinct(users) ==> Distinct(v)
  {
    if users == [] then []
    else
      var rest := VotingUsers(users[..|users| - 1]);
      var last := users[|users| - 1];
      if last.elo > VotingThreshold then rest + [last] else rest
  }

  /** The draws one comparison round consumes: voter, comment A, comment B and the comparison. */
  datatype RoundDraws = RoundDraws(voter: nat, pickA: nat, pickB: nat, compare: CompareDraws)

  /**
   * One iteration of the voting loop: pick a voter, comment A among the newest,
   * comment B near A, let the voter compare them, and let the chosen comment win
   * the Elo update against the other.
   */
  method VotingRound(voters: seq<User>, comments: seq<Comment>, score: Expectation, d: RoundDraws)
    returns (a: nat, b: nat, chosen: Comment)
    requires |voters| > 0 && Distinct(voters) && 2 <= |comments| && Distinct(comments)
    modifies (set c | c in comments)`elo, {voters[d.voter % |voters|]}`voteCount
    ensures a == PickA(|comments|, d.pickA)
    ensures b == ChooseB(old(CommentElos(comments)), a, d.pickB)
    ensures chosen == Choice(comments[a], comments[b], Perceived(voters[d.voter % |voters|], comments[a], comments[b]),
                             d.compare)
    ensures CommentElos(comments) == if chosen == comments[a] then PairStep(old(CommentElos(comments)), a, b, score)
                                     else PairStep(old(CommentElos(comments)), b, a, score)
    ensures VoteCounts(voters) == Bumped(old(VoteCounts(voters)), d.voter % |voters|)
    ensures Counts(VoteCounts(voters)) == old(Counts(VoteCounts(voters))) + 1
  {
    var elos := CommentElos(comments);
    var v := d.voter % |voters|;
    a := PickA(|comments|, d.pickA);
    b := ChooseB(elos, a, d.pickB);
    chosen := Contest(voters, v, comments, a, b, score, d.compare);
  }

  /**
   * The voter at position `v` compares comments `a` and `b`, and the chosen one
   * wins the Elo update against the other.
   */
  method Contest(voters: seq<User>, v: nat, comments: seq<Comment>, a: nat, b: nat, score: Expectation, d: CompareDraws)
    returns (chosen: Comment)
    requires v < |voters| && Distinct(voters)
    requires a < |comments| && b < |comments| && a != b && Distinct(comments)
    modifies {comments[a], comments[b]}`elo, {voters[v]}`voteCount
    ensures chosen == Choice(comments[a], comments[b], Perceived(voters[v], comments[a], comments[b]), d)
    ensures CommentElos(comments) == if chosen == comments[a] then PairStep(old(CommentElos(comments)), a, b, score)
                                     else PairStep(old(CommentElos(comments)), b, a, score)
    ensures VoteCounts(voters) == Bumped(old(VoteCounts(voters)), v)
    ensures Counts(VoteCounts(voters)) == old(Counts(VoteCounts(voters))) + 1
  {
    chosen := Judge(voters, v, comments, comments[a], comments[b], d);
    Settle(voters, comments, a, b, chosen == comments[a], score);
  }

  /**
   * The chosen comment wins the Elo update against the other (the two branches
   * of `if chosen_comment == comment_a`).
   */
  method Settle(ghost voters: seq<User>, comments: seq<Comment>, a: nat, b: nat, aWins: bool, score: Expectation)
    requires a < |comments| && b < |comments| && a != b && Distinct(comments)
    modifies {comments[a], comments[b]}`elo
    ensures CommentElos(comments) == if aWins then PairStep(old(CommentElos(comments)), a, b, score)
                                     else PairStep(old(CommentElos(comments)), b, a, score)
    ensures VoteCounts(voters) == old(VoteCounts(voters))
  {
    if aWins {
      EloStep(comments, a, b, score);
    } else {
      EloStep(comments, b, a, score);
    }
  }

  /** `compare_comments` by the voter at position `v`: one more vote among all the voters. */
  method Judge(voters: seq<User>, v: nat, ghost comments: seq<Comment>, a: Comment, b: Comment, d: CompareDraws)
    returns (chosen: Comment)
    requires v < |voters| && Distinct(voters)
    modifies {voters[v]}`voteCount
    ensures chosen == Choice(a, b, Perceived(voters[v], a, b), d)
    ensures VoteCounts(voters) == Bumped(old(VoteCounts(voters)), v)
    ensures Counts(VoteCounts(voters)) == old(Counts(VoteCounts(voters))) + 1
    ensures CommentElos(comments) == old(CommentElos(comments))
  {
    ghost var counts := VoteCounts(voters);
    chosen := Vote(voters[v], comments, a, b, d);
    forall j | 0 <= j < |voters| && j != v ensures voters[j].voteCount == counts[j] {
      assert voters[j] != voters[v];
    }
    assert VoteCounts(voters) == counts[v := counts[v] + 1];
    assert VoteCounts(voters) == Bumped(counts, v);
    CountsBump(counts, v);
  }

  /** `compare_comments` seen from the caller: one of the two comments, and one more vote. */
  method Vote(user: User, ghost comments: seq<Comment>, a: Comment, b: Comment, d: CompareDraws)
    returns (chosen: Comment)
    modifies user`voteCount
    ensures chosen == Choice(a, b, Perceived(user, a, b), d)
    ensures user.voteCount == old(user.voteCount) + 1
    ensures CommentElos(comments) == old(CommentElos(comments))
  {
    chosen := CompareComments(user, a, b, d);
  }

  /** `elo_update` applied in place: comment `w` wins against comment `l`. */
  method EloStep(comments: seq<Comment>, w: nat, l: nat, score: Expectation)
    requires w < |comments| && l < |comments| && w != l && Distinct(comments)
    modifies {comments[w], comments[l]}`elo
    ensures CommentElos(comments) == PairStep(old(CommentElos(comments)), w, l, score)
  {
    var winner, loser := comments[w], comments[l];
    var u := EloUpdate(winner.elo, loser.elo, KFactor, score);
    winner.elo, loser.elo := u.0, u.1;
  }

  /** The vote counters of a list of users, in list order. */
  function VoteCounts(users: seq<User>): (r: seq<nat>)
    reads (set u | u in users)`voteCount
    ensures |r| == |users|
    ensures forall i :: 0 <= i < |users| ==> r[i] == users[i].voteCount
  {
    if users == [] then [] else VoteCounts(users[..|users| - 1]) + [users[|users| - 1].voteCount]
  }

  /** The counters with one more vote at position `v`. */
  function Bumped(counts: seq<nat>, v: nat): (r: seq<nat>)
    ensures |r| == |counts|
    ensures forall j :: 0 <= j < |counts| ==> r[j] == counts[j] + (if j == v then 1 else 0)
  {
    seq(|counts|, j requires 0 <= j < |counts| => counts[j] + (if j == v then 1 else 0))
  }

  /** The total of a list of counters. */
  function Counts(s: seq<nat>): nat {
    if s == [] then 0 else Counts(s[..|s| - 1]) + s[|s| - 1]
  }

  /** Counting one more vote at position `i` raises the total by one. */
  lemma {:induction false} CountsBump(s: seq<nat>, i: nat)
    requires i < |s|
    ensures Counts(s[i := s[i] + 1]) == Counts(s) + 1
  {
    var n := |s| - 1;
    if i == n {
      assert s[i := s[i] + 1][..n] == s[..n];
    } else {
      assert s[i := s[i] + 1][..n] == s[..n][i := s[i] + 1];
      CountsBump(s[..n], i);
    }
  }

  /** How many of the rounds `ds` drew voter `j` among `n` voters. */
  function Drawn(ds: seq<RoundDraws>, n: nat, j: nat): (c: nat)
    requires n > 0
    ensures c <= |ds|
  {
    if ds == [] then 0
    else Drawn(ds[..|ds| - 1], n, j) + (if ds[|ds| - 1].voter % n == j then 1 else 0)
  }

  /** The counters after the rounds `ds`: each voter's counter plus the rounds that drew it. */
  function Tallied(counts: seq<nat>, ds: seq<RoundDraws>): (r: seq<nat>)
    requires |counts| > 0
    ensures |r| == |counts|
    ensures forall j :: 0 <= j < |counts| ==> r[j] == counts[j] + Drawn(ds, |counts|, j)
  {
    seq(|counts|, j requires 0 <= j < |counts| => counts[j] + Drawn(ds, |counts|, j))
  }

  /** Tallying one more round bumps the counter of its drawn voter. */
  lemma TalliedSnoc(counts: seq<nat>, ds: seq<RoundDraws>, r: nat)
    requires |counts| > 0 && r < |ds|
    ensures Tallied(counts, ds[..r + 1]) == Bumped(Tallied(counts, ds[..r]), ds[r].voter % |counts|)
  {
    DrawnSnoc(ds, |counts|, r);
  }

  /** One more round counts for its drawn voter and for nobody else. */
  lemma DrawnSnoc(ds: seq<RoundDraws>, n: nat, r: nat)
    requires n > 0 && r < |ds|
    ensures forall j :: Drawn(ds[..r + 1], n, j) == Drawn(ds[..r], n, j) + (if ds[r].voter % n == j then 1 else 0)
  {
    assert ds[..r + 1][..r] == ds[..r];
  }

  /**
   * One round on values: comment A among the newest, comment B near A on the
   * current ratings, the voter's choice between them, and the chosen comment's win.
   * The sum of the ratings does not change.
   */
  function Play(accuracies: seq<real>, comments: seq<Comment>, elos: seq<real>, d: RoundDraws, score: Expectation)
    : (r: seq<real>)
    requires |accuracies| > 0 && 2 <= |comments| == |elos|
    ensures |r| == |elos| && Sum(r) == Sum(elos)
  {
    var a := PickA(|comments|, d.pickA);
    var b := ChooseB(elos, a, d.pickB);
    var accuracy := PerceptionAccuracy(accuracies[d.voter % |accuracies|], comments[a].quality, comments[b].quality);
    var chosen := Choice(comments[a], comments[b], accuracy, d.compare);
    var (w, l) := if chosen == comments[a] then (a, b) else (b, a);
    PairStepConservesTotal(elos, w, l, score);
    PairStep(elos, w, l, score)
  }

  /**
   * The rounds `ds`, played in order on ratings `elos` by voters of the given
   * accuracies; the sum of the ratings does not change.
   */
  function Replay(accuracies: seq<real>, comments: seq<Comment>, elos: seq<real>, ds: seq<RoundDraws>,
                  score: Expectation): (r: seq<real>)
    requires |accuracies| > 0 && 2 <= |comments| == |elos|
    ensures |r| == |elos| && Sum(r) == Sum(elos)
  {
    if ds == [] then elos
    else Play(accuracies, comments, Replay(accuracies, comments, elos, ds[..|ds| - 1], score), ds[|ds| - 1], score)
  }

  /** The voting accuracies of a list of users, in list order. */
  function VotingAccuracies(users: seq<User>): (r: seq<real>)
    reads (set u | u in users)`percentileRank
    ensures |r| == |users|
    ensures forall i :: 0 <= i < |users| ==> r[i] == users[i].GetVotingAccuracy()
  {
    if users == [] then [] else VotingAccuracies(users[..|users| - 1]) + [users[|users| - 1].GetVotingAccuracy()]
  }

  /**
   * The rounds of voting that follow each new comment (`for _ in range(20)`). The
   * voters are the users rated above 800. The ratings end as the twenty rounds
   * played in order, each drawing its comments on the ratings the rounds before it
   * left, so their sum is unchanged. Every round adds one vote to its drawn
   * voter's counter and advances both loop counters, so the voting rate
   * `total_voters / processed_count` stays 1.
   */
  method VoteOnNewComment(ghost allUsers: seq<User>, voters: seq<User>, comments: seq<Comment>, score: Expectation,
                          draws: seq<RoundDraws>, processed0: nat, total0: nat)
    returns (processed: nat, total: nat)
    requires voters == VotingUsers(allUsers) && |voters| > 0 && Distinct(voters)
    requires 2 <= |comments| && Distinct(comments)
    requires |draws| >= VotingRoundsPerComment
    modifies (set c | c in comments)`elo, (set u | u in voters)`voteCount
    ensures CommentElos(comments) == Replay(old(VotingAccuracies(voters)), comments, old(CommentElos(comments)),
                                            draws[..VotingRoundsPerComment], score)
    ensures VoteCounts(voters) == Tallied(old(VoteCounts(voters)), draws[..VotingRoundsPerComment])
    ensures processed == processed0 + VotingRoundsPerComment && total == total0 + VotingRoundsPerComment
  {
    processed, total := processed0, total0;
    ghost var elos0 := CommentElos(comments);
    ghost var counts0 := VoteCounts(voters);
    ghost var accuracies := VotingAccuracies(voters);
    assert draws[..0] == [];
    assert Tallied(counts0, draws[..0]) == counts0;
    for r := 0 to VotingRoundsPerComment
      invariant VotingAccuracies(voters) == accuracies
      invariant CommentElos(comments) == Replay(accuracies, comments, elos0, draws[..r], score)
      invariant VoteCounts(voters) == Tallied(counts0, draws[..r])
      invariant processed == processed0 + r && total == total0 + r
    {
      NextRound(accuracies, voters, comments, score, draws, r, elos0, counts0);
      processed := processed + 1;
      total := total + 1;
    }
  }

  /** Round `r` of the loop carries the replay and the tally of rounds `..r` to `..r + 1`. */
  method NextRound(ghost accuracies: seq<real>, voters: seq<User>, comments: seq<Comment>, score: Expectation,
                   draws: seq<RoundDraws>, r: nat, ghost elos0: seq<real>, ghost counts0: seq<nat>)
    requires |voters| > 0 && Distinct(voters) && 2 <= |comments| && Distinct(comments)
    requires accuracies == VotingAccuracies(voters) && r < |draws| && |counts0| == |voters| && |elos0| == |comments|
    requires CommentElos(comments) == Replay(accuracies, comments, elos0, draws[..r], score)
    requires VoteCounts(voters) == Tallied(counts0, draws[..r])
    modifies (set c | c in comments)`elo, (set u | u in voters)`voteCount
    ensures CommentElos(comments) == Replay(accuracies, comments, elos0, draws[..r + 1], score)
    ensures VoteCounts(voters) == Tallied(counts0, draws[..r + 1])
    ensures VotingAccuracies(voters) == accuracies
  {
    ReplaySnoc(accuracies, comments, elos0, draws, r, score);
    TalliedSnoc(counts0, draws, r);
    PlayRound(accuracies, voters, comments, score, draws[r]);
  }

  /**
   * One round of the loop, on the heap: the ratings move as `Play` says, and the
   * drawn voter's vote is counted.
   */
  method PlayRound(ghost accuracies: seq<real>, voters: seq<User>, comments: seq<Comment>, score: Expectation,
                   d: RoundDraws)
    requires |voters| > 0 && Distinct(voters) && 2 <= |comments| && Distinct(comments)
    requires accuracies == VotingAccuracies(voters)
    modifies (set c | c in comments)`elo, (set u | u in voters)`voteCount
    ensures CommentElos(comments) == Play(accuracies, comments, old(CommentElos(comments)), d, score)
    ensures VotingAccuracies(voters) == accuracies
    ensures VoteCounts(voters) == Bumped(old(VoteCounts(voters)), d.voter % |voters|)
    ensures Counts(VoteCounts(voters)) == old(Counts(VoteCounts(voters))) + 1
  {
    ghost var v := d.voter % |voters|;
    ghost var before := CommentElos(comments);
    var a, b, chosen := VotingRound(voters, comments, score, d);
    assert VotingAccuracies(voters) == accuracies;
    assert voters[v].GetVotingAccuracy() == accuracies[v];
    ghost var accuracy := PerceptionAccuracy(accuracies[v], comments[a].quality, comments[b].quality);
    assert chosen == Choice(comments[a], comments[b], accuracy, d.compare);
  }

  /** Tallying `r` rounds adds `r` votes to the total. */
  lemma {:induction false} TalliedTotal(counts: seq<nat>, ds: seq<RoundDraws>, r: nat)
    requires |counts| > 0 && r <= |ds|
    ensures Counts(Tallied(counts, ds[..r])) == Counts(counts) + r
  {
    if r == 0 {
      assert Tallied(counts, ds[..0]) == counts;
    } else {
      TalliedTotal(counts, ds, r - 1);
      TalliedSnoc(counts, ds, r - 1);
      var before := Tallied(counts, ds[..r - 1]);
      var v := ds[r - 1].voter % |counts|;
      assert Bumped(before, v) == before[v := before[v] + 1];
      CountsBump(before, v);
    }
  }

  /** Playing one more round extends the replay by that round. */
  lemma ReplaySnoc(accuracies: seq<real>, comments: seq<Comment>, elos: seq<real>, ds: seq<RoundDraws>, r: nat,
                   score: Expectation)
    requires |accuracies| > 0 && 2 <= |comments| == |elos| && r < |ds|
    ensures Replay(accuracies, comments, elos, ds[..r + 1], score)
         == Play(accuracies, comments, Replay(accuracies, comments, elos, ds[..r], score), ds[r], score)
  {
    assert ds[..r + 1][..r] == ds[..r];
  }
}
