# Staged community moderation and comment ranking, modelled in Dafny

This project models the core of the community-moderation simulations of the
Veridonia whitepaper.

The first simulation is `simulation.py`:
- Users have an honesty trait ("goodness") and an Elo rating.
- Users vote on posts in a staged jury.
- A random sample from the lower-rated part of the population votes first.
- If that stage has a majority for the post, a sample from the higher-rated part decides.
- After each stage with a winner, the winning side's ratings move up and the losing side's ratings move down by a zero-sum team Elo update.
- A stage that ends in a tie, or in which every vote went the same way, leaves all ratings unchanged.
- A growth loop adds users geometrically, creates posts and scores each decision against the post's quality.

The second simulation is `simulations/comments.py`:
- Users get a percentile rank from their Elo, and the rank sets their voting accuracy.
- After each new comment, 20 voting rounds follow.
- In each round, comment A is drawn from the newest 30% of the comments.
- Comment B is any other comment within 100 rating points of A, or the closest one if there is none.
- A random voter rated above 800 picks one of the two, and the pick wins a pairwise Elo update against the other.

Modules:
- `Common`: distinctness and sums.
- `Elo`: the pairwise and team updates.
- `Ordering`: Python's stable `sorted` by key, as an index permutation.
- `Agents`: users and how one votes.
- `Rounds`: counting votes and one stage's rating update.
- `Staged`: the one- and two-stage protocol.
- `Growth`: the population-growth and scoring loop.
- `Comments`: the comment-ranking simulation.

Objects the source updates in place are classes: users with their `elo`, `vote_count` and `adjusted_goodness`, and comments with their `elo`. Posts and decision records are datatypes.

Every random draw is an explicit input:
- Gaussian, exponential and uniform variates are real parameters.
- `random.sample` and index-valued `random.choice` calls are natural numbers, read as `pick % remaining`.
- Two-way choices are values of their own type: whether a mood raises or lowers goodness is a `bool`, the fallback vote is a `Side`, and the coin between comments A and B is a `bool`.

The Elo expected score `1 / (1 + 10 ** ((l - w) / 400))` is an arrow parameter. Properties that depend on it assume only that it lies in [0, 1].

## Model

| member | source | states |
|---|---|---|
| Elo.EloUpdate | simulation.py:42-46 | the winner's gain equals the loser's loss, so the pair's total rating is unchanged; with k >= 0 and an expected score in [0, 1] the winner does not lose, the loser does not gain, and the gain is at most k |
| Elo.TeamUpdate | simulation.py:113-120 | the winning team's members times their change plus the losing team's members times theirs is zero; with an expected score in [0, 1] winners gain and losers lose |
| Elo.TeamUpdateZeroSum | simulation.py:113-120 | the same zero sum of team totals, stated with the `Times` product of a team's size and its change, the form callers that sum ratings use |
| Ordering.SortedOrder | simulation.py:162 | the stable sort by key returns every index exactly once, ordered by key and, among equal keys, by original position (Python's stable `sorted`) |
| Ordering.SortedOrderFacts | simulations/comments.py:102 | the sorted order has no repeats and lists keys in non-decreasing order |
| Ordering.SortSorted | simulation.py:162 | insertion sort of increasing in-bounds indices by (key, index) yields a stable sort order of them |
| Agents.GenerateGoodness | simulation.py:20-24 | goodness is the exponential draw or the uniform redraw; with a uniform draw in [0, 1] and non-negative draws it lies in [0, 1] (1.0 itself is kept) |
| Agents.MoodAdjusted | simulation.py:26-33 | with a roll at or above the mood factor the adjusted goodness equals goodness, so nothing persists between votes |
| Agents.AdjustedGoodnessInRange | simulation.py:26-33 | for goodness in [0, 1] the adjusted goodness stays in [0, 1] and moves from goodness by at most goodness times the drawn adjustment |
| Agents.Decide | simulation.py:51-62 | a uniform draw below the adjusted goodness gives the correct side (support iff quality >= 0.5); otherwise the random fallback side |
| Agents.CorrectSide | simulation.py:51-58 | the correct side is support exactly when quality is at least 0.5 |
| Agents.User.constructor | simulation.py:11-18 | a new user has the given rating, goodness drawn by `generate_goodness`, adjusted goodness equal to goodness and no votes |
| Agents.User.ApplyMood | simulation.py:26-33 | the adjusted goodness is recomputed from goodness and the mood draws; nothing else changes |
| Agents.CastVote | simulation.py:49-64 | the vote is the mood-adjusted decision and the user's vote count goes up by one |
| Rounds.CountPartition | simulation.py:123-129 | support and oppose counts add up to the number of votes |
| Rounds.Count | simulation.py:125-126 | a side's count never exceeds the number of votes |
| Rounds.CountUniform | simulation.py:125-126 | when every vote is for one side, that side gets all the votes and the other none |
| Rounds.CountVotes | simulation.py:123-129 | the tally holds the support and oppose counts and the total; majority is supported exactly when support exceeds oppose; an empty vote list is never a majority |
| Rounds.Decision | simulation.py:73-92 | a stage is a draw exactly on equal counts and is won by the side with more votes |
| Rounds.Filter | simulation.py:73-74 | a team has as many members as there were votes for its side, all of them from the stage |
| Rounds.FilterMember | simulation.py:73-74 | a user is on a team exactly when they voted for that side |
| Rounds.FilterDistinct | simulation.py:73-74 | teams taken from distinct users are distinct |
| Rounds.RatingsFilter | simulation.py:97-98 | a team's ratings are the filtered ratings of the stage |
| Rounds.ShiftAt | simulation.py:106-109 | after the rating loops every user's rating moved by the change of their own team |
| Rounds.RoundConservesTotal | simulation.py:93-110 | one stage's rating update leaves the sum of the stage's ratings unchanged |
| Rounds.RoundNeutral | simulation.py:91-95 | a tie, or a stage where one side has no votes, changes no rating |
| Rounds.RoundMovesWinnersUp | simulation.py:83-109 | after a won stage no winner's rating goes down and no loser's goes up |
| Rounds.RoundRatings | simulation.py:83-109 | one stage's new ratings, one per user of the stage, from the old ratings and the votes; what they mean is stated by the lemmas ShiftAt, RoundConservesTotal, RoundNeutral and RoundMovesWinnersUp |
| Rounds.ApplyDelta | simulation.py:106-109 | every team member's rating moves by the given change, and every other user's rating is unchanged; only the `elo` fields of the team are written |
| Rounds.SettleRound | simulation.py:73-110 | the decision follows the counts, the stage's new ratings are the round update of the old ones, and only ratings are written |
| Rounds.ApplyTeamDeltas | simulation.py:106-109 | the ratings after both team loops are the old ratings shifted by each user's team change |
| Rounds.CastVotes | simulation.py:68-72 | the votes are the participants' ballots in order; each participant's adjusted goodness is the one its own mood draw gives, and its vote count goes up by one |
| Rounds.AfterRoundTotals | simulation.py:67-110 | a whole round keeps the sum of its users' ratings and adds exactly one vote per user |
| Rounds.StageVoting | simulation.py:67-110 | the votes are the participants' ballots, one per user with their own draws; the decision follows them; every participant's new state (rating, adjusted goodness, vote count) is `AfterRound` of the old one |
| Staged.Sample | simulation.py:195-199 | a sample of n draws n members of the pool, distinct when the pool is distinct |
| Staged.Select | simulation.py:195-199 | a stage takes min(quota, pool size) members of its pool, without repeats |
| Staged.Cut | simulation.py:194 | the split index lies within the population, and a split of 100 puts everyone in the first pool |
| Staged.SortedUsers | simulation.py:162 | the sorted population has the population's length and only its users |
| Staged.SortedUsersFacts | simulation.py:162 | sorting users by rating permutes them and lists ratings in non-decreasing order |
| Staged.Pools | simulation.py:194-212 | the two pools are the sorted population cut at the split index |
| Staged.PoolsPartition | simulation.py:194-212 | the pools are disjoint, together contain every user, and every stage-1 pool member is rated no higher than every stage-2 pool member |
| Staged.SplitDisjoint | simulation.py:194-212 | cutting a distinct list gives two distinct, disjoint halves that together hold every element |
| Staged.Majority | simulation.py:128 | a majority means more than half of the votes support the post, so it needs at least one supporting vote |
| Staged.Stage1Participants | simulation.py:170-199 | stage 1 seats min(quota, pool size) users from the stage-1 pool (the whole population when it is small) |
| Staged.Stage2Participants | simulation.py:212-217 | stage 2 seats min(quota, pool size) users from the stage-2 pool |
| Staged.ParticipantsStratified | simulation.py:192-217 | participants come from their own pool, no user sits in both stages, and every stage-1 participant is rated no higher than every stage-2 participant |
| Staged.Stage | simulation.py:195-202 | the seated users are the selection from the pool; their votes are their mood-adjusted ballots with their own draws; their new states are `AfterRound` of their old ones: ratings after the round update, adjusted goodness from their mood draw, one more vote each; every other user is unchanged |
| Staged.SingleStage | simulation.py:171-191 | a small population decides in one stage: the seated users are the selection, their votes are their ballots, the decision is support exactly on a strict majority of them, the seated users end as `AfterRound` says, and nobody else changes |
| Staged.AfterFirstStage | simulation.py:204-240 | without a stage-1 majority the post is rejected with no second stage; with one, the stage-2 selection votes its ballots, its majority decides, and its users end as `AfterRound` says; the record satisfies `Protocol`; stage-1 users and unseated users keep their state |
| Staged.TwoStages | simulation.py:194-240 | both stages seat their pool's selection; the record satisfies `Protocol` (stage-1 ballots, a second stage exactly after a stage-1 majority, the decision from the deciding ballots, the sample size of both); each stage's users end as `AfterRound` says; users who were not seated keep their state |
| Staged.MultiStageVoting | simulation.py:132-248 | an empty population gives an empty oppose record; otherwise the participants are the selections from the pre-state pools, the record satisfies `Protocol` for the population size, each stage's participants end as `AfterRound` says, and nobody else changes |
| Staged.PublishedNeedsMajority | simulation.py:204-240 | a post is published only after a stage-1 majority and a majority of the deciding votes, so at least one supporting vote; in a population of 20 or more it is published only by a second stage that ran |
| Staged.Stage1Pool | simulation.py:171-198 | the stage-1 pool holds every user below 20 users, and otherwise `int(split% * N)` of them |
| Staged.CutLeavesBoth | simulation.py:194-212 | with a split from 5 to 99 and 20 or more users, both the bottom group and the top group hold at least one user |
| Staged.Seats | simulation.py:171-216 | stage 1 seats min(quota, pool) distinct users of the population; from 20 users on, stage 2 seats min(quota, top group) distinct users, none of them also seated in stage 1 |
| Staged.SeatedBy | simulation.py:204-216 | a record whose stage 1 holds those seats, and whose stage 2 holds the stage-2 seats exactly when a stage-1 majority in a population of 20 or more opened it, satisfies `Seated` |
| Staged.HonestJuryDecidesCorrectly | simulation.py:171-240 | when every seated voter's draw falls below their adjusted goodness and the stages needed were seated, the decision is the correct side |
| Growth.Ceil | simulation.py:285 | the ceiling is the least integer not below its argument |
| Growth.NewCount | simulation.py:285-287 | the users added in a step never overflow the room left, are at least one while the increment is positive, and are either the rounded-up increment or all the room |
| Growth.IsCorrect | simulation.py:332-334 | a decision is correct exactly when it is the side an honest voter takes |
| Growth.CountsSnoc | simulation.py:336-345 | appending an outcome adds one to the correct count exactly when it is correct and one to the supported count exactly when it is supported |
| Growth.PublishedByMajority | simulation.py:343-344 | every published post had a stage-1 majority, at least one stage-1 participant and at least one supporting deciding vote |
| Growth.DecidePost | simulation.py:302-334 | the outcome has the post's id, pool sizes that partition the population, stage counts within quota, is marked correct exactly when the decision matches quality, and copies the decision, sample size and stage sizes of a record that satisfies `Protocol` with the post's draws; that record seats min(stage-1 quota, stage-1 pool) users in stage 1, min(stage-2 quota, top group) in stage 2 when a stage-1 majority in a population of 20 or more opened it and nobody otherwise, and no user twice, all from the population (`Seated`) |
| Growth.ScorePosts | simulation.py:300-348 | every new post gets one outcome, scored against its quality, decided by `Protocol` with its own draws and seated as `Seated` says among the users present when it was decided, and the running counters equal the counts over all outcomes |
| Growth.ScoredSnoc | simulation.py:300-348 | outcomes stay aligned with their posts and deliberations when one of each is appended |
| Growth.GrowthRecordAppend | simulation.py:351 | recorded population sizes stay within the maximum and never decrease, and stay strictly increasing when every step grows the population |
| Growth.NextIncrement | simulation.py:354 | the increment never becomes zero for a growth rate other than -1; it keeps its sign for a rate above -1 and changes sign for a rate below -1 |
| Growth.PostsForIsProduct | simulation.py:294-296 | the posts created for n users number posts-per-user times n |
| Growth.PostsForAdd | simulation.py:294 | post counts add up across steps |
| Growth.NewPosts | simulation.py:294-298 | the new posts are numbered consecutively from the running id and carry their drawn quality |
| Growth.PostsNumberedAppend | simulation.py:294-298 | post ids stay consecutive from 0 across steps |
| Growth.EnrolledAppend | simulation.py:288-292 | user ids stay consecutive from 0 across steps |
| Growth.NewUsers | simulation.py:288-292 | the new users are fresh and distinct, numbered from the current population size, start at the starting rating with drawn traits |
| Growth.OutcomesScoredGrow | simulation.py:288-292 | outcomes already scored stay scored when more users join, since each is tied to the users present when it was decided |
| Growth.HonestPostDecidedCorrectly | simulation.py:302-334 | with positive quotas, a split from 5 to 99 and draws that all follow each seated voter's adjusted goodness, the post is marked correct |
| Growth.RunSimulation | simulation.py:283-354 | the population ends at the maximum with distinct consecutive ids; there are posts-per-user times the maximum posts, numbered consecutively, each with one outcome decided by `Protocol` with its own draws and seated as `Seated` says among the users present then; the counters equal the counts over the outcomes; population sizes never decrease, end at the maximum, and rise strictly when the growth rate is above -1 |
| Comments.User.constructor | simulations/comments.py:11-16 | the rating is the Gaussian draw clipped at 0; no votes and no percentile rank yet |
| Comments.User.GetVotingAccuracy | simulations/comments.py:18-28 | 0.5 without a rank; otherwise the rank is the accuracy's distance above 0.5 scaled to 0-100, so ranks in [0, 100] give accuracies in [0.5, 1]; it depends on the rank alone |
| Comments.Comment.constructor | simulations/comments.py:32-47 | quality is drawn like goodness; the rating starts at 800 and there are no votes |
| Comments.Comment.GetTotalVotes | simulations/comments.py:52-53 | the total bounds both counts and is zero exactly when there are no votes |
| Comments.Comment.GetScore | simulations/comments.py:49-50 | the score lies between minus and plus the total, and total plus score is twice the upvotes, total minus score twice the downvotes |
| Comments.RankAt | simulations/comments.py:106-107 | a rank lies in [0, 100]; a sole user gets 50; otherwise the first position gets 0 and the last 100 |
| Comments.RankAtIncreasing | simulations/comments.py:106-107 | later positions get strictly higher ranks |
| Comments.CalculatePercentileRanks | simulations/comments.py:97-107 | every user's rank is the rank of their position in the stable sort by rating |
| Comments.PercentileRanksRange | simulations/comments.py:97-107 | every user has a rank in [0, 100] and an accuracy in [0.5, 1]; a sole user gets 50; with more users a lowest-rated user gets 0 and a highest-rated user 100 |
| Comments.PercentileRanksOrder | simulations/comments.py:97-107 | a strictly higher rating gives a strictly higher rank, and no two users share a rank |
| Comments.PerceptionAccuracy | simulations/comments.py:127-135 | the perception accuracy is at most 0.99 and at most accuracy times (0.5 + quality gap), is one of the two, and is at least 0.25 for accuracies of at least 0.5 |
| Comments.PerceptionAccuracyMonotone | simulations/comments.py:127-135 | a wider quality gap never lowers the perception accuracy |
| Comments.Higher | simulations/comments.py:119-124 | the higher-quality comment is one of the two and at least as good as both, and on equal quality it is the second |
| Comments.CompareComments | simulations/comments.py:110-147 | the choice is the higher-quality comment when the draw is below the perception accuracy, otherwise the one the coin names (`Choice`); the user's vote count goes up by one |
| Comments.NewestCount | simulations/comments.py:196 | the newest window holds at least one comment, no more than there are, and is 30 percent rounded down |
| Comments.PickA | simulations/comments.py:196-197 | comment A lies in the newest window |
| Comments.InRange | simulations/comments.py:201-206 | an index is in range exactly when it is another comment within 100 rating points of A |
| Comments.Closest | simulations/comments.py:209-214 | the fallback is another comment at minimal rating distance from A, the first such in list order |
| Comments.ChooseB | simulations/comments.py:199-217 | comment B differs from A; it is within 100 points whenever any comment is, and otherwise it is a closest comment |
| Comments.ChooseBReachesRange | simulations/comments.py:202-217 | every comment within range of A can be picked as B |
| Comments.PairStep | simulations/comments.py:222-230 | a contest moves only the two comments' ratings, keeps their total, and does not lower the winner's rating |
| Comments.PairStepConservesTotal | simulations/comments.py:222-230 | a contest leaves the sum of all comment ratings unchanged |
| Comments.Play | simulations/comments.py:192-230 | one round on values (A, B, the voter's choice, the chosen comment's win) keeps the number and the sum of the comment ratings |
| Comments.Replay | simulations/comments.py:191-230 | the rounds played in order keep the number and the sum of the comment ratings |
| Comments.PlayRound | simulations/comments.py:192-232 | one round on the heap moves the comment ratings as `Play` says, leaves the voters' accuracies alone, and adds one to the drawn voter's counter and to nobody else's (`Bumped`) |
| Comments.VotingUsers | simulations/comments.py:162 | the voters are exactly the users rated above 800, without repeats |
| Comments.CountsBump | simulations/comments.py:145 | one more vote by one user adds one to the total vote count |
| Comments.EloStep | simulations/comments.py:223-230 | the comment ratings after the update are the contest step applied to the old ratings |
| Comments.Settle | simulations/comments.py:222-230 | the winner named by the comparison gets the contest step |
| Comments.Judge | simulations/comments.py:220 | the voter's choice follows `Choice` with their perception accuracy; their counter goes up by one and nobody else's (`Bumped`), so the total goes up by one; no comment rating changes |
| Comments.Vote | simulations/comments.py:220 | the voter's choice follows `Choice` with their perception accuracy; their own vote count goes up by one and no comment rating changes |
| Comments.Contest | simulations/comments.py:219-230 | the choice follows `Choice` with the voter's perception accuracy; ratings follow the contest step for whichever won; the voter's counter, and nobody else's, goes up by one |
| Comments.VotingRound | simulations/comments.py:192-230 | A is in the newest window; B is chosen on the old ratings; the drawn voter's choice follows `Choice`; the new ratings are the contest step for the chosen comment; the drawn voter's counter, and nobody else's, goes up by one |
| Comments.VoteOnNewComment | simulations/comments.py:191-234 | for voters who are the users rated above 800, the comment ratings end as `Replay` of the twenty rounds' draws on the old ratings (each round drawing on the ratings the rounds before it left), so their sum is unchanged (`Replay`); every voter's counter ends at its old value plus the number of the twenty rounds that drew that voter (`Tallied`), twenty votes in all (`TalliedTotal`); both loop counters rise by twenty |
| Comments.NextRound | simulations/comments.py:191-232 | one pass of the loop carries the ratings from the replay of the earlier rounds to the replay that includes this round, and the counters from the earlier rounds' tally to the tally that includes it, leaving the voters' accuracies alone |
| Comments.Bumped | simulations/comments.py:145 | one more vote at a position: the same number of counters, that one up by one, every other unchanged |
| Comments.Drawn | simulations/comments.py:193 | a voter is drawn by at most as many rounds as were played |
| Comments.DrawnSnoc | simulations/comments.py:192-193 | one more round adds one to the draw count of exactly the voter it drew |
| Comments.Tallied | simulations/comments.py:145 | after a list of rounds, every counter is its old value plus the number of rounds that drew that voter |
| Comments.TalliedSnoc | simulations/comments.py:191-193 | tallying one more round bumps the counter of the voter that round drew |
| Comments.TalliedTotal | simulations/comments.py:191-232 | r rounds add exactly r votes to the total |

## Left out

- Plotting, command-line parsing, progress bars and printed reports are not part of this model. `calculate_sorting_quality` is left out too: it uses scipy's Spearman correlation, which is floating-point statistics.
- Random distributions are not modelled. Their draws are inputs, and the properties hold for every draw.
- The Elo expected score is an abstract function. Floating-point rounding of all real arithmetic is not modelled.
- Staged.Cut: computes `int(split / 100.0 * N)` exactly as `(split * N) / 100`. Floating point can give one less (for example N = 90, split = 70 gives 62 instead of 63).
- Comments.NewestCount: computes `max(1, int(n * 0.3))` exactly as `max(1, (3 * n) / 10)`. The same floating-point caveat applies.
- Staged.MultiStageVoting: with no users the source returns a six-element tuple where the other paths return five. The model returns the five-field record with an empty oppose decision.
- Staged.MultiStageVoting: requires a split of at most 100, the documented range of the percentage.
- Growth.RunSimulation: requires a growth rate other than -1. At exactly -1 the increment becomes zero after the first step, and the source then loops without end.
- Growth.RunSimulation: computes the population with exact reals, so it ends for every rate other than -1. The source's floats do not. For a rate strictly between -2 and 0, the increment shrinks geometrically and underflows to 0.0 (after about 1075 steps at a rate of -0.5). From then on `math.ceil` gives 0, and the source loops forever if the maximum population has not been reached. Float underflow is not modelled.
- Growth.NextIncrement: states the sign of the increment, not how fast it grows.
- Growth.ScorePosts: does not state the users' ratings, adjusted goodness or vote counts after each post. Each post's `MultiStageVoting` states them, but carrying them through the loop, with every post seeing the ratings the posts before it left, is not modelled.
- Growth.DecidePost: states the decision record through `Protocol`, but not the participants' new states that `MultiStageVoting` gives.
- Comments.CalculatePercentileRanks: requires distinct users, as the simulation always passes.
- Comments.VotingRound: requires at least one voter and two comments. With no voter `random.choice` raises; the source's loop always holds at least two comments when it votes.
- The comment loop that appends new comments (simulations/comments.py:184-188) is not modelled. VoteOnNewComment models the voting for one new comment.
- The comment simulation's final shuffle and sort are not modelled, and neither are its sorting-quality metrics.
- `upvotes` and `downvotes` of a comment are never changed by the source. The model keeps them constant after construction.
- `elo_update` in both files is one function, Elo.EloUpdate. The comment simulation uses k = 32.

## Notes

- Agents.GenerateGoodness: the code redraws only when the exponential draw exceeds 1. A draw of exactly 1.0 is kept, so goodness lies in [0, 1], not [0, 1). The model follows the code.
- The command-line help (simulation.py:665) describes the split as the share of high-rated users that form stage 1. The code takes stage 1 from the lower-rated part of the sorted population, and the model follows the code.
