/**
 * The growth and scoring loop of `run_simulation` in simulation.py.
 *
 * The population grows by `min(ceil(increment), max - |users|)` users a step, the
 * increment growing geometrically; every new user brings `postsPerUser` posts,
 * each decided by the staged protocol and scored against its quality.
 * The draws of user `i` and of post `i` are the `i`-th entries of two input lists.
 */
module Growth {
  import opened Common
  import opened Elo
  import opened Agents
  import opened Staged
  import opened Rounds

  /** A post: its identifier and the quality drawn when it was made. */
  datatype Post = Post(id: nat, quality: real)

  /** The draws post `i` consumes: its quality and the draws of its decision. */
  datatype PostDraws = PostDraws(quality: real, decision: DecisionDraws)

  /** What the loop records per post, in post order. */
  datatype PostOutcome = PostOutcome(postId: nat, decision: Side, sampleSize: nat,
                                     stage1Count: nat, stage2Count: nat,
                                     stage1PoolSize: nat, stage2PoolSize: nat, correct: bool)

  /** `math.ceil`: the least integer not below `x`. */
  function Ceil(x: real): (c: int)
    ensures x <= c as real < x + 1.0
  {
    if x.Floor as real == x then x.Floor else x.Floor + 1
  }

  /** The users one step adds: the rounded-up increment, capped by the room left. */
  function NewCount(increment: real, room: nat): (n: int)
    requires room > 0
    ensures n <= room
    ensures 0.0 < increment ==> 1 <= n
    ensures n == room || n == Ceil(increment)
  {
    var c := Ceil(increment);
    if c <= room then c else room
  }

  /**
   * `is_correct`: a "support" decision on a post of quality at least 0.5, or an
   * "oppose" decision on one below it; that is, the side an honest voter takes.
   */
  function IsCorrect(decision: Side, quality: real): (r: bool)
    ensures r <==> decision == CorrectSide(quality)
  {
    (decision == Support && quality >= 0.5) || (decision == Oppose && quality < 0.5)
  }

  /** The number of correctly decided posts. */
  function CorrectCount(outcomes: seq<PostOutcome>): (n: nat)
    ensures n <= |outcomes|
  {
    if outcomes == [] then 0
    else CorrectCount(outcomes[..|outcomes| - 1]) + (if outcomes[|outcomes| - 1].correct then 1 else 0)
  }

  /** The number of published posts. */
  function SupportedCount(outcomes: seq<PostOutcome>): (n: nat)
    ensures n <= |outcomes|
  {
    if outcomes == [] then 0
    else SupportedCount(outcomes[..|outcomes| - 1]) + (if outcomes[|outcomes| - 1].decision == Support then 1 else 0)
  }

  /** One more outcome adds one to the count it belongs to and leaves the others alone. */
  lemma CountsSnoc(outcomes: seq<PostOutcome>, o: PostOutcome)
    ensures CorrectCount(outcomes + [o]) == CorrectCount(outcomes) + (if o.correct then 1 else 0)
    ensures SupportedCount(outcomes + [o]) == SupportedCount(outcomes) + (if o.decision == Support then 1 else 0)
  {
    assert (outcomes + [o])[..|outcomes|] == outcomes;
  }

  /** How one post was decided: the record `multi_stage_voting` returned and the stage-1 votes. */
  datatype Deliberation = Deliberation(rec: DecisionRecord, votes1: seq<Side>)

  /** The outcome copies the decision, the sample size and the stage sizes of the record. */
  ghost predicate Recorded(o: PostOutcome, rec: DecisionRecord) {
    && o.decision == rec.decision && o.sampleSize == rec.sampleSize
    && o.stage1Count == |rec.stage1| && o.stage2Count == |rec.stage2|
  }

  /**
   * The work done for one post: the pool sizes the loop records, the staged
   * decision, and its score. The ghost `deliberation` is how the decision came about.
   */
  method DecidePost(post: Post, users: seq<User>, stage1Users: nat, stage2Users: nat, k: real, split: nat,
                    score: Expectation, d: DecisionDraws)
    returns (outcome: PostOutcome, ghost deliberation: Deliberation)
    requires Distinct(users) && split <= 100
    requires Covers(d.stage1, stage1Users) && Covers(d.stage2, stage2Users)
    modifies set u | u in users
    ensures outcome.postId == post.id
    ensures outcome.stage1PoolSize == Cut(split, |users|)
    ensures outcome.stage1PoolSize + outcome.stage2PoolSize == |users|
    ensures outcome.stage1Count <= stage1Users && outcome.stage2Count <= stage2Users
    ensures outcome.stage2Count > 0 ==> |users| >= SmallPopulation
    ensures outcome.correct <==> outcome.decision == CorrectSide(post.quality)
    ensures Recorded(outcome, deliberation.rec)
    ensures Protocol(deliberation.rec, deliberation.votes1, post.quality, d, |users|)
    ensures Seated(deliberation.rec, deliberation.votes1, users, stage1Users, stage2Users, split)
  {
    var stage1GroupSize := Cut(split, |users|);
    var stage2GroupSize := |users| - stage1GroupSize;
    ghost var s1, s2 := Seats(users, split, stage1Users, stage2Users, d.stage1.picks, d.stage2.picks);
    var rec, votes1 := MultiStageVoting(post.quality, users, stage1Users, stage2Users, k, split, score, d);
    SeatedBy(rec, votes1, users, stage1Users, stage2Users, split, s1, s2);
    var isCorrect := IsCorrect(rec.decision, post.quality);
    outcome := PostOutcome(post.id, rec.decision, rec.sampleSize, |rec.stage1|, |rec.stage2|,
                           stage1GroupSize, stage2GroupSize, isCorrect);
    deliberation := Deliberation(rec, votes1);
  }

  /** The result of `run_simulation`: the users, the posts and what was recorded about them. */
  datatype Report = Report(users: seq<User>, posts: seq<Post>, outcomes: seq<PostOutcome>,
                           populationSizes: seq<nat>, totalVotes: nat, correctVotes: nat, supportedPosts: nat)

  /**
   * The population sizes recorded after each step: never shrinking, never past `max`,
   * and, when `strict`, growing by at least one a step.
   */
  ghost predicate GrowthRecord(sizes: seq<nat>, max: nat, strict: bool) {
    && (forall i :: 0 <= i < |sizes| ==> 1 <= sizes[i] <= max)
    && (forall i, j :: 0 <= i < j < |sizes| ==> sizes[i] <= sizes[j] && (strict ==> sizes[i] < sizes[j]))
  }

  /** Posts `0 .. |posts| - 1`, each with the quality drawn for it. */
  ghost predicate PostsNumbered(posts: seq<Post>, postDraws: seq<PostDraws>) {
    && |posts| <= |postDraws|
    && forall i :: 0 <= i < |posts| ==> posts[i] == Post(i, postDraws[i].quality)
  }

  /**
   * One outcome, scored against its post's quality, within the stage quotas and the
   * population cap, and decided by the staged protocol with the post's own draws
   * among the first `population` users, those present at the time, seated as the
   * quotas and the pools allow.
   */
  ghost predicate Scored(o: PostOutcome, post: Post, delib: Deliberation, postDraws: seq<PostDraws>, users: seq<User>,
                         stage1Users: nat, stage2Users: nat, split: nat, maxPopulation: nat) {
    var population := o.stage1PoolSize + o.stage2PoolSize;
    && o.postId == post.id
    && (o.correct <==> o.decision == CorrectSide(post.quality))
    && o.sampleSize == o.stage1Count + o.stage2Count <= stage1Users + stage2Users
    && population <= maxPopulation && population <= |users| && split <= 100
    && o.stage1PoolSize == Cut(split, population)
    && Recorded(o, delib.rec)
    && post.id < |postDraws|
    && Protocol(delib.rec, delib.votes1, post.quality, postDraws[post.id].decision, population)
    && Seated(delib.rec, delib.votes1, users[..population], stage1Users, stage2Users, split)
  }

  /** The outcomes and their deliberations follow the posts one for one. */
  ghost predicate OutcomesScored(outcomes: seq<PostOutcome>, posts: seq<Post>, delibs: seq<Deliberation>,
                                 postDraws: seq<PostDraws>, users: seq<User>,
                                 stage1Users: nat, stage2Users: nat, split: nat, maxPopulation: nat) {
    && |outcomes| == |posts| == |delibs|
    && forall i {:trigger Scored(outcomes[i], posts[i], delibs[i], postDraws, users, stage1Users, stage2Users, split, maxPopulation)}
         :: 0 <= i < |outcomes| ==>
         Scored(outcomes[i], posts[i], delibs[i], postDraws, users, stage1Users, stage2Users, split, maxPopulation)
  }

  /**
   * Every published post was published by a strict majority: stage 1 had one, the
   * deciding votes had one, and at least one of them supported the post.
   */
  lemma PublishedByMajority(outcomes: seq<PostOutcome>, posts: seq<Post>, delibs: seq<Deliberation>,
                            postDraws: seq<PostDraws>, users: seq<User>,
                            stage1Users: nat, stage2Users: nat, split: nat, maxPopulation: nat, i: nat)
    requires OutcomesScored(outcomes, posts, delibs, postDraws, users, stage1Users, stage2Users, split, maxPopulation)
    requires i < |outcomes| && outcomes[i].decision == Support
    ensures 0 < outcomes[i].stage1Count <= outcomes[i].sampleSize
    ensures Majority(delibs[i].votes1) && 0 < Count(delibs[i].rec.votes, Support)
  {
    var o, b := outcomes[i], delibs[i];
    assert Scored(o, posts[i], b, postDraws, users, stage1Users, stage2Users, split, maxPopulation);
    PublishedNeedsMajority(b.rec, b.votes1, posts[i].quality, postDraws[posts[i].id].decision,
                           o.stage1PoolSize + o.stage2PoolSize);
  }

  /**
   * A post decided by honest voters only is decided correctly, provided the decision
   * had somebody to seat: at least one user present, positive quotas, and a split
   * that leaves both pools non-empty from 20 users on.
   */
  lemma HonestPostDecidedCorrectly(o: PostOutcome, post: Post, delib: Deliberation, postDraws: seq<PostDraws>,
                                   users: seq<User>, stage1Users: nat, stage2Users: nat, split: nat, maxPopulation: nat)
    requires Scored(o, post, delib, postDraws, users, stage1Users, stage2Users, split, maxPopulation)
    requires 0 < o.stage1PoolSize + o.stage2PoolSize
    requires 0 < stage1Users && 0 < stage2Users && 5 <= split < 100
    requires Honest(delib.rec.stage1, postDraws[post.id].decision.stage1.votes)
    requires Honest(delib.rec.stage2, postDraws[post.id].decision.stage2.votes)
    ensures o.correct
  {
    var n := o.stage1PoolSize + o.stage2PoolSize;
    if n >= SmallPopulation {
      CutLeavesBoth(split, n);
      if post.quality >= 0.5 {
        CountUniform(delib.votes1, Support);
      }
    }
    HonestJuryDecidesCorrectly(delib.rec, delib.votes1, post.quality, postDraws[post.id].decision, n);
  }

  /** The counters the loop keeps agree with the outcomes recorded so far. */
  ghost predicate Counted(outcomes: seq<PostOutcome>, totalVotes: nat, correctVotes: nat, supportedPosts: nat) {
    totalVotes == |outcomes| && correctVotes == CorrectCount(outcomes) && supportedPosts == SupportedCount(outcomes)
  }

  /**
   * `for post in new_posts`: decide and score each new post in turn, appending
   * its outcome and bumping the counters. `posts` are the posts decided before.
   */
  method ScorePosts(ghost posts: seq<Post>, newPosts: seq<Post>, users: seq<User>, stage1Users: nat, stage2Users: nat,
                    k: real, split: nat, score: Expectation, postDraws: seq<PostDraws>, ghost maxPopulation: nat,
                    outcomes0: seq<PostOutcome>, ghost delibs0: seq<Deliberation>,
                    totalVotes0: nat, correctVotes0: nat, supportedPosts0: nat)
    returns (outcomes: seq<PostOutcome>, ghost delibs: seq<Deliberation>,
             totalVotes: nat, correctVotes: nat, supportedPosts: nat)
    requires Distinct(users) && |users| <= maxPopulation && split <= 100
    requires forall i :: 0 <= i < |newPosts| ==> newPosts[i].id < |postDraws|
    requires forall i :: 0 <= i < |postDraws| ==>
      Covers(postDraws[i].decision.stage1, stage1Users) && Covers(postDraws[i].decision.stage2, stage2Users)
    requires OutcomesScored(outcomes0, posts, delibs0, postDraws, users, stage1Users, stage2Users, split, maxPopulation)
    requires Counted(outcomes0, totalVotes0, correctVotes0, supportedPosts0)
    modifies set u | u in users
    ensures OutcomesScored(outcomes, posts + newPosts, delibs, postDraws, users, stage1Users, stage2Users, split, maxPopulation)
    ensures Counted(outcomes, totalVotes, correctVotes, supportedPosts)
  {
    outcomes, totalVotes, correctVotes, supportedPosts := outcomes0, totalVotes0, correctVotes0, supportedPosts0;
    delibs := delibs0;
    var p := 0;
    assert users[..|users|] == users;
    while p < |newPosts|
      invariant 0 <= p <= |newPosts|
      invariant OutcomesScored(outcomes, posts + newPosts[..p], delibs, postDraws, users, stage1Users, stage2Users, split, maxPopulation)
      invariant Counted(outcomes, totalVotes, correctVotes, supportedPosts)
    {
      var post := newPosts[p];
      var outcome, delib := DecidePost(post, users, stage1Users, stage2Users, k, split, score, postDraws[post.id].decision);
      totalVotes := totalVotes + 1;
      if outcome.correct {
        correctVotes := correctVotes + 1;
      }
      if outcome.decision == Support {
        supportedPosts := supportedPosts + 1;
      }
      CountsSnoc(outcomes, outcome);
      ScoredSnoc(outcomes, outcome, posts + newPosts[..p], post, delibs, delib, postDraws,
                 users, stage1Users, stage2Users, split, maxPopulation);
      assert posts + newPosts[..p + 1] == posts + newPosts[..p] + [post];
      outcomes := outcomes + [outcome];
      delibs := delibs + [delib];
      p := p + 1;
    }
    assert newPosts[..p] == newPosts;
  }

  /** One more scored outcome for one more post keeps the outcomes following the posts. */
  lemma ScoredSnoc(outcomes: seq<PostOutcome>, o: PostOutcome, posts: seq<Post>, post: Post,
                   delibs: seq<Deliberation>, delib: Deliberation, postDraws: seq<PostDraws>, users: seq<User>,
                   stage1Users: nat, stage2Users: nat, split: nat, maxPopulation: nat)
    requires OutcomesScored(outcomes, posts, delibs, postDraws, users, stage1Users, stage2Users, split, maxPopulation)
    requires Scored(o, post, delib, postDraws, users, stage1Users, stage2Users, split, maxPopulation)
    ensures OutcomesScored(outcomes + [o], posts + [post], delibs + [delib], postDraws,
                           users, stage1Users, stage2Users, split, maxPopulation)
  {
    var all, allPosts, allDelibs := outcomes + [o], posts + [post], delibs + [delib];
    forall i | 0 <= i < |all|
      ensures Scored(all[i], allPosts[i], allDelibs[i], postDraws, users, stage1Users, stage2Users, split, maxPopulation)
    {
      if i < |outcomes| {
        assert all[i] == outcomes[i] && allPosts[i] == posts[i] && allDelibs[i] == delibs[i];
      }
    }
  }

  /** Users joining later leave every earlier decision seated among the users it was made by. */
  lemma OutcomesScoredGrow(outcomes: seq<PostOutcome>, posts: seq<Post>, delibs: seq<Deliberation>,
                           postDraws: seq<PostDraws>, users: seq<User>, newUsers: seq<User>,
                           stage1Users: nat, stage2Users: nat, split: nat, maxPopulation: nat)
    requires OutcomesScored(outcomes, posts, delibs, postDraws, users, stage1Users, stage2Users, split, maxPopulation)
    ensures OutcomesScored(outcomes, posts, delibs, postDraws, users + newUsers,
                           stage1Users, stage2Users, split, maxPopulation)
  {
    forall i | 0 <= i < |outcomes|
      ensures Scored(outcomes[i], posts[i], delibs[i], postDraws, users + newUsers,
                     stage1Users, stage2Users, split, maxPopulation)
    {
      var o := outcomes[i];
      assert Scored(o, posts[i], delibs[i], postDraws, users, stage1Users, stage2Users, split, maxPopulation);
      var n := o.stage1PoolSize + o.stage2PoolSize;
      assert (users + newUsers)[..n] == users[..n];
    }
  }

  /** A step that does not shrink the population keeps the record ordered; one that grows it keeps it strict. */
  lemma GrowthRecordAppend(sizes: seq<nat>, max: nat, strict: bool, size: nat)
    requires GrowthRecord(sizes, max, strict) && 1 <= size <= max
    requires sizes != [] ==> sizes[|sizes| - 1] <= size && (strict ==> sizes[|sizes| - 1] < size)
    ensures GrowthRecord(sizes + [size], max, strict)
  {
    var all := sizes + [size];
    forall i, j | 0 <= i < j < |all| ensures all[i] <= all[j] && (strict ==> all[i] < all[j]) {
      if j == |sizes| && i < |sizes| - 1 {
        assert sizes[i] <= sizes[|sizes| - 1] && (strict ==> sizes[i] < sizes[|sizes| - 1]);
      }
    }
  }

  /**
   * `population_increment *= 1 + growth_rate`: never zero for a rate other than -1;
   * it keeps its sign for a rate above -1 and flips it for a rate below.
   */
  function NextIncrement(increment: real, growthRate: real): (r: real)
    requires increment != 0.0 && growthRate != -1.0
    ensures r != 0.0
    ensures -1.0 < growthRate ==> (0.0 < r <==> 0.0 < increment)
    ensures growthRate < -1.0 ==> (0.0 < r <==> increment < 0.0)
  {
    var factor := 1.0 + growthRate;
    if 0.0 < increment then
      if 0.0 < factor then assert 0.0 < increment * factor; increment * factor
      else assert increment * factor < 0.0; increment * factor
    else
      if 0.0 < factor then assert increment * factor < 0.0; increment * factor
      else assert 0.0 < increment * factor; increment * factor
  }

  /**
   * `posts_per_user * n`, the number of posts `n` users bring, counted user by user
   * so that the loop's bookkeeping stays linear.
   */
  function PostsFor(postsPerUser: nat, n: nat): nat {
    if n == 0 then 0 else PostsFor(postsPerUser, n - 1) + postsPerUser
  }

  lemma {:induction false} PostsForIsProduct(postsPerUser: nat, n: nat)
    ensures PostsFor(postsPerUser, n) == postsPerUser * n
  {
    if n > 0 {
      PostsForIsProduct(postsPerUser, n - 1);
    }
  }

  /** The posts of two groups of users add up. */
  lemma {:induction false} PostsForAdd(postsPerUser: nat, a: nat, b: nat)
    ensures PostsFor(postsPerUser, a + b) == PostsFor(postsPerUser, a) + PostsFor(postsPerUser, b)
  {
    if b > 0 {
      PostsForAdd(postsPerUser, a, b - 1);
    }
  }

  /** `[Post(i) for i in range(start, start + count)]`, each with the quality drawn for it. */
  function NewPosts(start: nat, count: nat, postDraws: seq<PostDraws>): (posts: seq<Post>)
    requires start + count <= |postDraws|
    ensures |posts| == count
    ensures forall i :: 0 <= i < count ==> posts[i] == Post(start + i, postDraws[start + i].quality)
  {
    seq(count, i requires 0 <= i < count => Post(start + i, postDraws[start + i].quality))
  }

  /** Appending the next posts in numbering order keeps the posts numbered. */
  lemma PostsNumberedAppend(posts: seq<Post>, newPosts: seq<Post>, postDraws: seq<PostDraws>)
    requires PostsNumbered(posts, postDraws) && |posts| + |newPosts| <= |postDraws|
    requires forall i :: 0 <= i < |newPosts| ==> newPosts[i] == Post(|posts| + i, postDraws[|posts| + i].quality)
    ensures PostsNumbered(posts + newPosts, postDraws)
  {
    var all := posts + newPosts;
    forall i | 0 <= i < |all| ensures all[i] == Post(i, postDraws[i].quality) {
      if i >= |posts| {
        assert all[i] == newPosts[i - |posts|];
      }
    }
  }


  /** Users numbered from `start` on, each with the traits drawn for its number. */
  ghost predicate Enrolled(users: seq<User>, start: nat, userDraws: seq<UserDraws>) {
    forall i :: 0 <= i < |users| ==>
      && start + i < |userDraws|
      && users[i].id == start + i
      && users[i].goodness == GenerateGoodness(userDraws[start + i].exponential, userDraws[start + i].uniform)
      && users[i].moodFactor == userDraws[start + i].moodFactor
  }

  lemma EnrolledAppend(users: seq<User>, newUsers: seq<User>, userDraws: seq<UserDraws>)
    requires Enrolled(users, 0, userDraws) && Enrolled(newUsers, |users|, userDraws)
    ensures Enrolled(users + newUsers, 0, userDraws)
  {
    var all := users + newUsers;
    forall i | 0 <= i < |all| && i >= |users| ensures all[i] == newUsers[i - |users|] {
    }
  }

  /**
   * The loop of `run_simulation`. A growth rate of exactly -1 makes the increment
   * zero after the first step, and the source then loops forever, so it is excluded.
   * Below -1 the increment changes sign every step: a step with a negative increment
   * adds no users and no posts (a `range` of negative length is empty) and records
   * the same population size again, and the next step adds at least one user.
   * The model computes the population with exact reals. The source uses floats:
   * for a rate strictly between -2 and 0 the increment shrinks geometrically and
   * underflows to 0.0 (after about 1075 steps at -0.5). From then on `math.ceil`
   * gives 0 and the source loops forever if the maximum has not yet been reached.
   * The model terminates for every rate other than -1 only because its reals never underflow.
   */
  method RunSimulation(maxPopulation: nat, postsPerUser: nat, growthRate: real, stage1Users: nat, stage2Users: nat,
                       eloStart: real, k: real, split: nat, score: Expectation,
                       userDraws: seq<UserDraws>, postDraws: seq<PostDraws>)
    returns (r: Report, ghost delibs: seq<Deliberation>)
    requires split <= 100 && growthRate != -1.0
    requires |userDraws| >= maxPopulation && |postDraws| >= PostsFor(postsPerUser, maxPopulation)
    requires forall i :: 0 <= i < |postDraws| ==>
      Covers(postDraws[i].decision.stage1, stage1Users) && Covers(postDraws[i].decision.stage2, stage2Users)
    ensures |r.users| == maxPopulation && Distinct(r.users) && Enrolled(r.users, 0, userDraws)
    ensures forall i :: 0 <= i < |r.users| ==> fresh(r.users[i])
    ensures |r.posts| == PostsFor(postsPerUser, maxPopulation) && PostsNumbered(r.posts, postDraws)
    ensures OutcomesScored(r.outcomes, r.posts, delibs, postDraws, r.users, stage1Users, stage2Users, split, maxPopulation)
    ensures r.totalVotes == |r.posts|
    ensures Counted(r.outcomes, r.totalVotes, r.correctVotes, r.supportedPosts)
    ensures GrowthRecord(r.populationSizes, maxPopulation, -1.0 < growthRate)
    ensures maxPopulation > 0 ==> |r.populationSizes| > 0 && r.populationSizes[|r.populationSizes| - 1] == maxPopulation
  {
    var posts: seq<Post> := [];
    var outcomes: seq<PostOutcome> := [];
    delibs := [];
    var supportedPostsCount: nat := 0;
    var totalVotes: nat := 0;
    var correctVotes: nat := 0;
    var populationSizes: seq<nat> := [];
    var users: seq<User> := [];
    var populationIncrement: real := 1.0;

    while |users| < maxPopulation
      invariant |users| <= maxPopulation && populationIncrement != 0.0
      invariant -1.0 < growthRate ==> 0.0 < populationIncrement
      invariant |users| == 0 ==> populationIncrement == 1.0
      invariant Distinct(users) && Enrolled(users, 0, userDraws)
      invariant forall i :: 0 <= i < |users| ==> fresh(users[i])
      invariant |posts| == PostsFor(postsPerUser, |users|) && PostsNumbered(posts, postDraws)
      invariant OutcomesScored(outcomes, posts, delibs, postDraws, users, stage1Users, stage2Users, split, maxPopulation)
      invariant Counted(outcomes, totalVotes, correctVotes, supportedPostsCount)
      invariant GrowthRecord(populationSizes, maxPopulation, -1.0 < growthRate)
      invariant |populationSizes| > 0 ==> populationSizes[|populationSizes| - 1] == |users|
      invariant |populationSizes| == 0 <==> |users| == 0
      decreases maxPopulation - |users|, if 0.0 < populationIncrement then 0 else 1
    {
      var stepCount := NewCount(populationIncrement, maxPopulation - |users|);
      var newCount := if stepCount < 0 then 0 else stepCount;
      var newUsers := NewUsers(|users|, newCount, eloStart, userDraws);
      EnrolledAppend(users, newUsers, userDraws);
      DistinctAppend(users, newUsers);
      OutcomesScoredGrow(outcomes, posts, delibs, postDraws, users, newUsers,
                         stage1Users, stage2Users, split, maxPopulation);
      users := users + newUsers;

      PostsForAdd(postsPerUser, |users| - newCount, newCount);
      PostsForAdd(postsPerUser, |users|, maxPopulation - |users|);
      var newPostCount := PostsFor(postsPerUser, newCount);
      var newPosts := NewPosts(|posts|, newPostCount, postDraws);
      PostsNumberedAppend(posts, newPosts, postDraws);
      assert forall i :: 0 <= i < |users| ==> fresh(users[i]);
      assert |posts + newPosts| == PostsFor(postsPerUser, |users|);
      outcomes, delibs, totalVotes, correctVotes, supportedPostsCount :=
        ScorePosts(posts, newPosts, users, stage1Users, stage2Users, k, split, score, postDraws, maxPopulation,
                   outcomes, delibs, totalVotes, correctVotes, supportedPostsCount);
      posts := posts + newPosts;

      GrowthRecordAppend(populationSizes, maxPopulation, -1.0 < growthRate, |users|);
      populationSizes := populationSizes + [|users|];
      populationIncrement := NextIncrement(populationIncrement, growthRate);
    }
    r := Report(users, posts, outcomes, populationSizes, totalVotes, correctVotes, supportedPostsCount);
  }

  /** `[User(i, elo=elo_start) for i in range(start, start + count)]`. */
  method NewUsers(start: nat, count: int, eloStart: real, userDraws: seq<UserDraws>) returns (newUsers: seq<User>)
    requires 0 <= count && start + count <= |userDraws|
    ensures |newUsers| == count && Distinct(newUsers) && Enrolled(newUsers, start, userDraws)
    ensures forall i :: 0 <= i < count ==>
      fresh(newUsers[i]) && newUsers[i].elo == eloStart && newUsers[i].voteCount == 0
      && newUsers[i].adjustedGoodness == newUsers[i].goodness
  {
    newUsers := [];
    var i := 0;
    while i < count
      invariant 0 <= i <= count && |newUsers| == i && Distinct(newUsers) && Enrolled(newUsers, start, userDraws)
      invariant forall j :: 0 <= j < i ==>
        fresh(newUsers[j]) && newUsers[j].elo == eloStart && newUsers[j].voteCount == 0
        && newUsers[j].adjustedGoodness == newUsers[j].goodness
    {
      var u := new User(start + i, eloStart, userDraws[start + i]);
      newUsers := newUsers + [u];
      i := i + 1;
    }
  }
}
