# Verification of the freelancer bot's matching, deduplication and discovery logic

This project models the decision-making core of a bot that turns Telegram messages into
ranked opportunities for specialists, and proves what that core keeps over every input,
every run and every interleaving. `dafny verify dfyconfig.toml` checks all of it.

## What is modelled

**Matching.** `LexicalMatching` pairs labels greedily by similarity and measures the pairing
with an F1 score. `Matching` is the hard filter and the candidate narrowing in front of it.
`Scoring` computes component scores, relevance and the structured score, and `ScoreBounds` says
which policies keep them in [0, 1]. `MatchDecisions` ages matches, judges and ranks them per
profile, and derives the batch's idempotency key. Scores are integers in units of 0.0001 with half-even rounding (`Decimals`); policy weights
and quality ratings carry a scale, so any number of decimal places is covered. Timestamps are
natural numbers, UUIDs integers. `Sequences` and `Ordering` hold shared facts about
`dict.fromkeys`, comprehensions, permutations and Python's stable sort.

**Deduplication and analysis.** `MessagePrefilter` is a transition system: any number of
workers run the prefilter transaction statement by statement, any of which may crash and be
retried, while messages keep arriving and the clock runs. `OpportunityAnalysis` holds the
analyzers, their routing and the envelopes they cache, `MatchingDelivery` the fan-out key and
`AnalysisTables` what one persisted analysis adds to the tables. `AnalysisReplay` runs attempts
at analysis jobs, under any mix of configurations: each reads, calls the analyzer, reads again,
stores its envelope (waiting for an uncommitted rival), then persists and commits, and other
attempts, new routes and crashes come between any two of these. The message list may be as old
as any earlier statement; from the dedup lock to the commit an attempt is one step, because that
advisory lock admits one transaction at a time. `EndToEnd` runs both systems over one database,
and `CacheConflict` is a run of both that ends with a refused store. The database is assumed to do
what the repositories ask of it: inserts are if-absent on their unique keys and wait for an
uncommitted rival, reads see committed rows, an advisory lock lasts until its transaction ends, and
`now()` is the transaction's start. In these tables a hash stands for the text it digests.

**Runtime loops.** `LoadEvaluation` is a stage's worker pool and `SourceDiscoveryLoop` the
source-discovery loop with its wake event, both stepping between `await` points.

**Selection and accounting.** `CandidateFunnel` and `WebDiscovery` are the Web discovery
provider and its reference accounting. `CalibrationSample`, `SourceSelection` and
`QueryCollapse` are the round-robin sample, the two quota selectors and the query collapse.

Methods follow the source's loops and are proved equal to a specification function or
relation; the lemmas then state what that specification guarantees. The rules that methods and
specifications share are pinned down on their inputs: `LabelRules` (similarity and overlap),
`FilterRules` (hard filters), `ScoringRules` (scores and penalties), `DecisionRules` (verdicts and
ranks), `AnalyzerRules` (versions and identities) and `PrefilterOutcome` (what a finished prefilter
transaction leaves).

## Where the code does not keep a promise

- Relevance and the structured score can exceed 1. When policy weights have more than four
  decimal places the rounded contributions can sum to more than 1.0000, and one valid policy gives
  a concrete candidate 1.0002 in both (`ScoreBounds.ScoresCanExceedOne`). Every scored candidate's
  relevance stays in [0, 1] exactly when the weights rounded to four places sum to at most 1
  (`ScoreBounds.RelevanceBoundedIff`), and its structured score exactly when what the relevance
  weight makes of that sum beyond 1 is at most half of the last place
  (`ScoreBounds.StructuredBoundedIff`).
- After `finalize_candidate_funnel` the terminal buckets need not sum to the valid references.
  A reference not observed because 1000 references already are is valid and in no bucket, and one
  discovery can meet that many (`WebDiscovery.OneDiscoveryLosesReference`); so is one met again
  after its bucket was settled, when a provider is used again
  (`CandidateFunnel.LateReferenceIsLost`). The buckets are complete exactly when no such reference
  occurred (`CandidateFunnel.FinalizedIffNoneLost`), and always at the first finalize with room left
  (`CandidateFunnel.FirstFinalizeResolvesAll`).
- Two overlapping runs of one key need not return one result. A run whose transaction reads
  the rival's committed entry returns its own analysis, not the cached one, and later runs repeat it
  exactly when the two analyses are equal and its configuration accepts the stored envelope
  (`AnalysisReplay.CommittedRunReplays`). A run that reads too early and stores after a rival
  committed a different envelope fails with the cache conflict, exactly then
  (`AnalysisReplay.ConflictIffRivalCommitted`), and two runs whose model calls differ in anything
  that is cached reach that from empty tables (`CacheConflict.ConflictIsReachable`). The tables stay
  sound throughout, and a retry replays the rival's entry (`AnalysisReplay.CachedAnalysisIsFinal`).

## Model

| member | source | states |
|---|---|---|
| LexicalMatching.LabelMatches | freelancer_bot/lexical_matching.py:147-171 | the candidate list, sort and used-sets loop compute the greedy pairing of the de-duplicated labels |
| LexicalMatching.GreedyConceptMatches | freelancer_bot/lexical_matching.py:225-244 | the concept loop computes the greedy pairing of equivalent tokens |
| LexicalMatching.LabelMatchingSound | freelancer_bot/lexical_matching.py:155-171 | each label is used at most once per side, pairs are input labels with their true positive similarity, and similarities lie in (0, 1] |
| LexicalMatching.LabelMatchingMaximal | freelancer_bot/lexical_matching.py:161-171 | every similar pair is chosen or blocked by a pair sharing an end and at least as similar, so no similar pair has both ends free |
| LexicalMatching.LabelMatchingHalfOptimal | freelancer_bot/lexical_matching.py:147-171 | total similarity is at least half that of any other matching of the same labels |
| LexicalMatching.ConceptMatchingHalfOptimal | freelancer_bot/lexical_matching.py:225-244 | the token pairing finds at least half of the largest possible number of equivalent pairs |
| LexicalMatching.LabelMatchingIgnoresOrder | freelancer_bot/lexical_matching.py:153-171 | the pairing and its F1 depend only on the two sets of labels, not on order or repetition |
| LexicalMatching.F1IsHarmonicMean | freelancer_bot/lexical_matching.py:247-258 | the score is 2m/(L+R) rounded half-even to four places |
| LexicalMatching.F1Range | freelancer_bot/lexical_matching.py:247-258 | the score lies in [0, 1] and is 1 when everything is matched |
| LexicalMatching.F1PerfectOnlyWhenAllMatched | freelancer_bot/lexical_matching.py:247-258 | the unrounded score is 1 exactly when m = L = R |
| LexicalMatching.SimilarityRange | freelancer_bot/lexical_matching.py:121-144 | similarity lies in [0, 1] and a label is fully similar to itself |
| LexicalMatching.LabelsF1Range | freelancer_bot/lexical_matching.py:216-222 | the F1 of two label collections lies in [0, 1] |
| LexicalMatching.SharedLabelOverlaps | freelancer_bot/lexical_matching.py:174-213 | a label with a non-generic concept present on both sides always makes an overlap, whatever the pairing did with it |
| LexicalMatching.OverlapNeedsSimilarPair | freelancer_bot/lexical_matching.py:177-179 | without one similar pair there is no overlap |
| LabelRules.AlikeIsFullySimilar | freelancer_bot/lexical_matching.py:121-139 | labels that normalize alike, or of which one abbreviates the words of the other, are fully similar |
| LabelRules.SimilarityCountsTokens | freelancer_bot/lexical_matching.py:140-144 | any other labels are 2m/(L+R) similar, for m paired tokens, of which there is one exactly when some token of the one is equivalent to one of the other |
| LabelRules.WeakPairsDoNotOverlap | freelancer_bot/lexical_matching.py:174-213 | where both sides name something specific, pairs that are under 0.6 similar, or share only generic concepts, make no overlap |
| LabelRules.BestPairOverlaps | freelancer_bot/lexical_matching.py:174-213 | a pair more similar than any other with one of its labels is an overlap if it is at least 0.6 similar and shares a specific concept, or is fully similar and names something specific |
| LabelRules.GenericSideOverlaps | freelancer_bot/lexical_matching.py:201-213 | where one side is wholly generic one similar pair is an overlap |
| LabelRules.SingleTargetsOverlapIff | freelancer_bot/lexical_matching.py:174-213 | for one label on each side, exactly when they overlap |
| Matching.EvaluateHardFilters | freelancer_bot/matching.py:232-357 | the branch-by-branch evaluation yields the decision with its failures and unknowns in order; it reports a code exactly when that rule, stated on its own, is violated, and is eligible exactly when none is |
| Matching.FailuresReportViolations | freelancer_bot/matching.py:232-357 | the ordered failure lists hold a code exactly when its rule is violated, whichever stage of the filter checks it |
| Matching.EligibleIffAcceptable | freelancer_bot/matching.py:232-357 | a candidate is eligible exactly when no rule is violated |
| Matching.ExclusionIsHardFailure | freelancer_bot/matching.py:788-819 | a work-type, language or geography exclusion is a hard-filter failure of the same name; otherwise the targets do not overlap |
| Matching.EligibleSurvivesNarrowing | freelancer_bot/matching.py:360-404 | passing narrowing and then the hard filters equals passing the one simple filter |
| Matching.NarrowAndFilterCandidates | freelancer_bot/matching.py:360-404 | eligible profiles are, in input order, exactly those acceptable with overlapping or empty targets; decisions, exclusions and counts match |
| Matching.SharedTargetNeverDropped | freelancer_bot/matching.py:811-819 | a specific target named on both sides is never excluded for lack of overlap |
| Matching.CompatibilityIgnoresOrder | freelancer_bot/matching.py:882-902 | whether targets overlap depends only on the two sets of targets, not on order or repetition |
| LabelRules.WeakTargetsExclude | freelancer_bot/matching.py:788-819 | a profile that breaks no type or term rule is excluded for lack of overlap when no pair of targets is more than weak |
| FilterRules.BudgetRule | freelancer_bot/matching.py:332-350 | a known budget is refused exactly when its upper or only bound is below the minimum in the same currency |
| FilterRules.ExplicitBudgetRule | freelancer_bot/matching.py:322-331 | an unknown budget is refused exactly when an explicit one is required and none is given |
| FilterRules.WorkTypeRule | freelancer_bot/matching.py:837-841 | a restriction on work types admits unknown types and those it names, never a consultation |
| FilterRules.WorkModeRule | freelancer_bot/matching.py:844-849 | a stated work mode is refused exactly when the accepted modes leave it out |
| FilterRules.TermRules | freelancer_bot/matching.py:852-879 | language and location must be among the accepted terms and the category not among the excluded ones, by their normalized text and only when it says something |
| FilterRules.OpportunityTargetsAre | freelancer_bot/matching.py:882-887 | an opportunity's targets are its category, role and skills, normalized, where they say something |
| FilterRules.ExclusionRule | freelancer_bot/matching.py:788-819 | the first of type, language, location and targets that is not met names the exclusion |
| FilterRules.OnlyCurrentProfilesCount | freelancer_bot/matching.py:364-369 | a narrowing counts the active, confirmed profiles and is the same as if there were no others |
| Scoring.RelevanceWithinThreeQuanta | freelancer_bot/matching.py:436-445 | relevance is within 0.0003 of the exact weighted sum of the component scores |
| Scoring.ScoresWithinUnit | freelancer_bot/matching.py:407-469 | with weights that are multiples of 0.0001 relevance and structured score stay in [0, 1] |
| Scoring.StructuredWithinUnit | freelancer_bot/matching.py:446-455 | whatever the weights, a relevance in [0, 1] gives a structured score in [0, 1] |
| Scoring.StructuredMonotone | freelancer_bot/matching.py:446-455 | more red flags, or less relevance, quality or source quality, never raise the structured score, despite the rounding and the clamp |
| Scoring.RedFlagsNeverHelp | freelancer_bot/matching.py:407-469 | adding red flags to an opportunity never raises a candidate's structured score and leaves relevance alone |
| ScoringRules.NearestStructured | freelancer_bot/matching.py:436-455 | the structured score is the nearest four-place value to the weighed relevance, quality and source quality less the penalty, or 0, and the penalty the nearest to the flags' charge up to the maximum |
| ScoringRules.RedFlagsCost | freelancer_bot/matching.py:443-455 | with four-place weights n flags lower the structured score by exactly their charge, capped at the maximum and down to 0; an odd charge can move the last place of a score rounded from a tie by one |
| ScoringRules.RedFlagsCostCandidates | freelancer_bot/matching.py:407-469 | the same of a scored candidate and the one with its flags removed |
| ScoringRules.NearestQuality | freelancer_bot/matching.py:729-739 | opportunity quality is the nearest four-place value to the mean of its four ratings |
| ScoringRules.NearestSourceQuality | freelancer_bot/matching.py:742-752 | source quality is the nearest to 0.6 of the yield and 0.4 of the buyer intent, less the weighed share of sellers, spam and duplicates, clamped |
| ScoringRules.RoleScoreRule | freelancer_bot/matching.py:492-523 | the role scores its best similarity to a profile role, or 0.6 where they only share a family and the skills overlap |
| ScoringRules.SkillsScoreRule | freelancer_bot/matching.py:526-556 | the skills score 2m/(L+R) for m pairs, raised to 0.5 where the skills overlap and the roles agree |
| ScoringRules.SkillOverlapRule | freelancer_bot/matching.py:572-598 | a best pair of skills of at least 0.75, both specific, is a skill overlap, and without such a pair there is none |
| ScoringRules.RolesAgreeIff | freelancer_bot/matching.py:601-612 | the roles agree when the opportunity's resembles a profile role at all or shares a family with one |
| ScoringRules.CategoryScoreRule | freelancer_bot/matching.py:615-640 | the category scores its best similarity to a profile category |
| ScoringRules.TermComponents | freelancer_bot/matching.py:643-726 | past the filters work type, budget and preferences are scored exactly where there is something to compare, and then 1 but for an unknown budget |
| ScoringRules.LabelComponents | freelancer_bot/matching.py:417-435 | the six components come in order, each under its own weight |
| Scoring.PreferencesComponent | freelancer_bot/matching.py:686-726 | the loop over stated preferences computes their average score |
| Scoring.FilteredComponents | freelancer_bot/matching.py:643-726 | past the hard filters work type and preferences are absent or 1, and budget is absent, 1, 0.75 or 0.5, and 0.75 when a required explicit budget is unknown |
| ScoreBounds.PerfectScore | freelancer_bot/matching.py:407-469 | a concrete candidate passes the filters, scores 1 in every component, and gets the rounded weights' sum as its relevance |
| ScoreBounds.NoneAbovePerfect | freelancer_bot/matching.py:407-469 | whatever the policy, no candidate scores below 0 or above that one |
| ScoreBounds.RelevanceBoundedIff | freelancer_bot/matching.py:759-777 | a policy keeps every scored candidate's relevance in [0, 1] exactly when its rounded weights sum to at most 1, wherever some label's identity is not empty |
| ScoreBounds.StructuredBoundedIff | freelancer_bot/matching.py:446-455 | a policy keeps every scored candidate's structured score in [0, 1] exactly when what the relevance weight makes of the rounded weights' sum beyond 1 is at most half of the last place, wherever some label's identity is not empty |
| ScoreBounds.ScoresCanExceedOne | freelancer_bot/matching.py:166-193 | under a policy the constructor accepts, a concrete candidate's relevance and structured score are both 1.0002 |
| MatchDecisions.TraceAgreesWithFilter | freelancer_bot/match_decisions.py:252-260 | a trace is hard-eligible exactly when its profile passes the one filter and is among the eligible profiles |
| MatchDecisions.AgeingNeverHelps | freelancer_bot/match_decisions.py:322-341 | neither freshness nor the final rank score rises with evaluation time, and eligibility once lost is never regained |
| MatchDecisions.FreshnessAntitone | freelancer_bot/match_decisions.py:456-465 | the rounded, clamped freshness never rises with age |
| MatchDecisions.BucketMonotone | freelancer_bot/match_decisions.py:554-559 | bucketing keeps the order of evaluation times |
| DecisionRules.BucketRule | freelancer_bot/match_decisions.py:554-559 | evaluation time is cut down to a whole number of buckets, less than one bucket earlier |
| DecisionRules.TraceAges | freelancer_bot/match_decisions.py:456-465 | a trace's age is the whole seconds since the opportunity was last seen, and its freshness the nearest value to what is left of the maximum age |
| DecisionRules.TraceRankScore | freelancer_bot/match_decisions.py:322-327 | the final rank is the nearest value to combined score and freshness as weighed, for exactly the scored traces past the filters |
| DecisionRules.TraceVerdict | freelancer_bot/match_decisions.py:321-341 | the first of filters, expiry, relevance and final rank that a trace fails names its decision; it is eligible exactly when it fails none |
| DecisionRules.TraceReportsDecision | freelancer_bot/match_decisions.py:305-318 | a trace reports exactly the rules its profile violates and its own exclusion, and is past the filters when there are none |
| MatchDecisions.RankEligible | freelancer_bot/match_decisions.py:427-453 | the per-profile sort and enumeration give each trace the last place its opportunity holds on its profile's ladder, and every other trace none, for any list of traces |
| MatchDecisions.PlaceIsRank | freelancer_bot/match_decisions.py:427-453 | with one trace for each opportunity and profile that place is one more than the number of eligible traces with a better key |
| MatchDecisions.RanksAreOneToN | freelancer_bot/match_decisions.py:427-453 | within a profile the ranks of eligible traces are exactly 1..n and other traces have none |
| MatchDecisions.RanksFollowKeyOrder | freelancer_bot/match_decisions.py:427-453 | ranks follow the lexicographic score order, and no two traces of a profile share one |
| DecisionRules.RanksFollowScores | freelancer_bot/match_decisions.py:427-453 | ranks follow final rank, then relevance, then freshness, then when last seen, then the smaller opportunity id |
| MatchDecisions.DecideAndRankMatches | freelancer_bot/match_decisions.py:174-241 | rejects with the first offending input or mixed policies, and otherwise returns the ranked batch |
| DecisionRules.BatchRanksByScore | freelancer_bot/match_decisions.py:174-241 | in a returned batch a profile's eligible traces have distinct ranks in the order of those scores |
| DecisionRules.BatchCarriesInputs | freelancer_bot/match_decisions.py:211-241 | a batch carries the policy asked for, its bucket and the one configuration of its inputs |
| MatchDecisions.NoRejection | freelancer_bot/match_decisions.py:188-197 | the input loop rejects nothing exactly when each input belongs to its own opportunity, lists distinct profiles and no opportunity comes twice |
| MatchDecisions.PermutedInputsSameBatch | freelancer_bot/match_decisions.py:211-241 | permuting the scoring inputs gives the same idempotency key and the same traces |
| MatchDecisions.KeyIdentifiesContent | freelancer_bot/match_decisions.py:228-236 | unless a hash collides on what the two batches hold, their idempotency keys are equal exactly when policy, bucket, scoring configuration and traces are |
| MessagePrefilter.DedupSafety | freelancer_bot/message_prefilter.py:147-339 | in every reachable database: one row a message, rejected for exactly the prefilter's reason; a job for every passed row; each duplicate points at a recent canonical row with its key and job; canonical rows of one key more than the window apart; one normalized input a job |
| MessagePrefilter.StepKeeps | freelancer_bot/message_prefilter.py:251-339 | every statement of every worker keeps the invariant behind that |
| PrefilterOutcome.FinishedMessagesAreRecorded | freelancer_bot/message_prefilter.py:147-235 | whatever ran in between, a transaction that ends other than by a crash leaves its message with a row, unless it was never ingested or replies to itself |
| PrefilterOutcome.DuplicateJoinsItsCanonical | freelancer_bot/message_prefilter.py:302-324 | a worker whose search found a canonical row ends, if it writes, with an exact-duplicate row on that row's job pointing at it |
| PrefilterOutcome.NewTextStartsItsJob | freelancer_bot/message_prefilter.py:326-339 | a worker whose search found nothing ends, if it writes, with a canonical row under a job filed for its own message |
| PrefilterOutcome.RowsNameTheirParents | freelancer_bot/message_prefilter.py:237-249 | in every reachable database a row's parent is the message its own message replies to, in the same source |
| PrefilterOutcome.ParentReadIsRecorded | freelancer_bot/message_prefilter.py:237-249 | the row a transaction writes names the parent it read |
| PrefilterOutcome.IngestedOnce | migrations/versions/20260809_0009_raw_messages.py:103-107 | source and external identifier tell any two ingested messages apart |
| PrefilterOutcome.RowRecordedMeanwhile | freelancer_bot/message_prefilter.py:274-300 | a row recorded while waiting for the lock decides: its route is taken, with no new job, or the transaction ends |
| PrefilterOutcome.RecordedTwice | freelancer_bot/persistence/message_prefilter.py:162-221 | recording a message that has a row gives that row back exactly if all but its creation time agrees |
| PrefilterOutcome.RowsGiveTheReason | freelancer_bot/message_prefilter.py:97-109 | service events are rejected as such, other blank messages as empty, and every other message passes |
| PrefilterOutcome.InputsTellParentsApart | freelancer_bot/message_prefilter.py:412-414 | with one current text inputs tell parent texts apart, but for a missing parent and one that reads `<none>` |
| PrefilterOutcome.NoDeadlock | freelancer_bot/message_prefilter.py:147-339 | while any transaction is open some transaction can go on, and any may crash |
| MessagePrefilter.CommitStore | freelancer_bot/persistence/message_prefilter.py:162-221 | committing a row found new under its lock keeps the tables consistent |
| MessagePrefilter.CommitKeepsSearch | freelancer_bot/persistence/message_prefilter.py:115-160 | while a worker holds a key's lock no other commit adds a canonical row its search would have found |
| MessagePrefilter.InputDeterminesParent | freelancer_bot/message_prefilter.py:412-414 | with equal current text, equal analysis inputs have equal parent texts |
| MessagePrefilter.ReturnedRowIsStored | freelancer_bot/message_prefilter.py:189-235 | the row a finished run returns is stored and is the message's only row |
| MessagePrefilter.CommittedIsPermanent | freelancer_bot/persistence/message_prefilter.py:197-223 | no later step changes or removes a committed row or job |
| MessagePrefilter.LoadServesEveryRow | freelancer_bot/message_prefilter.py:354-381 | loading succeeds for exactly the queued jobs, and its texts are those of every message routed to the job |
| OpportunityAnalysis.RoutedCallIsAccepted | freelancer_bot/opportunity_analysis.py:822-878 | whichever route answers, the call is one the configured analyzer accepts; the fallback speaks exactly for a primary answer below the threshold |
| AnalyzerRules.RoutedAnswer | freelancer_bot/opportunity_analysis.py:822-848 | which route's analysis is answered, for every confidence and every outcome of the fallback |
| AnalyzerRules.JobsBegunAreOwn | freelancer_bot/opportunity_classifier.py:208-226 | a run begins exactly for a job under this configuration's own version and digest, its plain primary's, or the bare default, and a schema it knows |
| AnalyzerRules.ForeignJobIsRefused | freelancer_bot/opportunity_classifier.py:86-96 | a job under any other version is refused before the analyzer is asked and nothing is written |
| AnalyzerRules.PlainsDoNotShareJobs | freelancer_bot/opportunity_classifier.py:208-226 | two plain configurations with different digests never both begin one job, but for the default route |
| AnalyzerRules.AnswersTakenAreOwn | freelancer_bot/opportunity_classifier.py:228-236 | an answer is taken exactly when grounded, of the current schema, and under the identity of a configured route |
| AnalyzerRules.EnvelopesReplayedAreOwn | freelancer_bot/opportunity_classifier.py:238-272 | a cached envelope is replayed exactly when it names the configuration's own identity or a route of it in its routing version |
| AnalyzerRules.RoutesShareVersions | freelancer_bot/opportunity_analysis.py:763-785 | whichever route answered, the versions are those of the configuration's identity |
| AnalyzerRules.StoredEnvelopeIsCall | freelancer_bot/opportunity_classifier.py:97-103 | what is stored is the call taken, under the job's version |
| AnalyzerRules.SoundConfigurations | freelancer_bot/opportunity_analysis.py:763-785 | a routed configuration is accepted exactly for a primary on the current schema and a fallback on the same versions |
| AnalyzerRules.AttemptsAreSound | freelancer_bot/opportunity_analysis.py:763-785 | in every reachable state an attempt under way has a sound configuration |
| AnalyzerRules.AttemptsGoOn | freelancer_bot/opportunity_classifier.py:86-179 | while any attempt is open some attempt can go on, and any may crash: there is no deadlock |
| AnalysisTables.FileMessages | freelancer_bot/persistence/opportunities.py:367-391 | the linking loop files every message under the opportunity, or reports a conflict exactly when one belongs to another |
| AnalysisTables.PersistOpportunity | freelancer_bot/opportunity_classifier.py:181-206 | linking, filing and queueing the fan-out on the transaction's own copy |
| AnalysisTables.PersistKeeps | freelancer_bot/opportunity_classifier.py:181-206 | on sound tables persisting any listing of a job's messages cannot fail, keeps the tables sound and rewrites nothing |
| AnalysisReplay.AnalysisDatabase.Process | freelancer_bot/opportunity_classifier.py:86-179 | a run nothing overlaps takes the steps of an interleaved one in order, replaying or analyzing and storing; a crash or error leaves the tables unchanged |
| AnalysisReplay.StepKeeps | freelancer_bot/opportunity_classifier.py:86-206 | every step of any interleaving, down to a transaction's read, its store and its commit, keeps the tables sound, keeps what every running attempt relies on, and rewrites no entry, link or filed message |
| AnalysisReplay.FailuresAreKnown | freelancer_bot/opportunity_classifier.py:86-179 | in a reachable state a step fails exactly for a job the configuration does not know or support, for the analyzer's answer, for a different committed envelope at the store, or for a cached envelope the configuration does not accept; the link conflict is unreachable |
| AnalysisReplay.ConflictIffRivalCommitted | freelancer_bot/persistence/message_prefilter.py:249-296 | a store is refused exactly when another attempt committed a different envelope for the key between this transaction's read and its store |
| CacheConflict.ConflictHappens | freelancer_bot/opportunity_classifier.py:104-125 | two attempts at one key, both read before either stores, end with the second refused whenever their envelopes differ at all |
| CacheConflict.ConflictIsReachable | freelancer_bot/opportunity_classifier.py:86-125 | from empty tables a run of prefilter and classifier reaches that: one text routed twice, a window apart, and both jobs attempted at once |
| AnalysisReplay.CachedAnalysisIsFinal | freelancer_bot/opportunity_classifier.py:154-179 | once a key is cached, a later run under any configuration succeeds exactly when it supports the job and accepts the envelope, and then returns the cached analysis without an analyzer call |
| AnalysisReplay.CommitIsReplayable | freelancer_bot/opportunity_classifier.py:229-272 | a committed run leaves an entry its own configuration accepts, holding the analysis it returned, exactly when it agrees with whoever stored the key first |
| AnalysisReplay.CommittedRunReplays | freelancer_bot/opportunity_classifier.py:86-206 | after a commit every later run of the job with the same configuration returns the same analysis, entry and opportunity, whatever happens in between and whatever the analyzer would say, exactly when the committed run agreed with whoever stored the key first, as one that stored the key itself or met an identical row always does |
| AnalysisReplay.OneOpportunityOneFanout | freelancer_bot/opportunity_classifier.py:181-206 | in every reachable state a job's messages are under one opportunity, and fan-out jobs match opportunities one to one, no more than cache entries |
| MatchingDelivery.FanoutKeyDecodes | freelancer_bot/matching_delivery.py:29-39 | decoding a fan-out key gives back the opportunity |
| MatchingDelivery.ClaimAcceptedIffQueuedKey | freelancer_bot/matching_delivery.py:88-96 | a claimed key is accepted for an opportunity exactly when it is the key that opportunity was queued under |
| EndToEnd.RoutedJobsPartition | freelancer_bot/persistence/message_prefilter.py:101-113 | every reachable prefilter database routes each message to at most one job and every job has a message |
| EndToEnd.RoutedJobsGrow | freelancer_bot/persistence/message_prefilter.py:101-113 | further prefilter steps only add messages to a job and never change its key |
| EndToEnd.ListingLists | freelancer_bot/persistence/message_prefilter.py:101-113 | every sound prefilter database has such a listing: each job with its canonical row's key and exactly the messages routed to it |
| EndToEnd.AlikeMessagesShareAnOpportunity | freelancer_bot/opportunity_classifier.py:86-206 | however prefilter and classifier workers interleave, crash and retry: one row a message, one fan-out job an opportunity, and two filed messages of one job have the same normalized input and the same opportunity |
| CandidateFunnel.FunnelAccounting | freelancer_bot/global_web_discovery.py:283-352 | for every history: raw = valid + rejected, valid = direct + extracted, at most 1000 observations, occurrences plus dropped = raw, buckets plus pending plus lost = valid |
| CandidateFunnel.OccurrencesSumToRaw | freelancer_bot/global_web_discovery.py:298-326 | under 1000 observations the occurrence counts sum to the raw references |
| CandidateFunnel.FinalizedIffNoneLost | freelancer_bot/global_web_discovery.py:328-352 | after a finalize the buckets sum to the valid references exactly when none was dropped or met again after settling |
| CandidateFunnel.FirstFinalizeResolvesAll | freelancer_bot/global_web_discovery.py:328-352 | a first finalize with room left resolves every valid reference, each bucket counting exactly the references resolved to it |
| CandidateFunnel.LateReferenceIsLost | freelancer_bot/global_web_discovery.py:298-300 | a reference met again after a finalize is valid but ends up in no bucket |
| CandidateFunnel.FullListLosesReference | freelancer_bot/global_web_discovery.py:298-308 | after a malformed reference and 1000 keys, 1000 references are valid and 999 are in buckets |
| CandidateFunnel.FinalizeIsIdempotent | freelancer_bot/global_web_discovery.py:342-352 | a second finalize changes nothing |
| CandidateFunnel.BucketOf | freelancer_bot/global_web_discovery.py:345-347 | the bucket is never blank |
| CandidateFunnel.FinalizeGivesBuckets | freelancer_bot/global_web_discovery.py:342-352 | a finalize gives every waiting reference the bucket named for it, or `OTHER_REJECTION` when none or a blank one is |
| WebDiscovery.GlobalWebDiscoveryProvider.RecordValidReference | freelancer_bot/global_web_discovery.py:283-308 | the counters and the first observation of the hash change as the funnel's rule says |
| WebDiscovery.GlobalWebDiscoveryProvider.RecordInvalidReference | freelancer_bot/global_web_discovery.py:310-326 | a malformed reference is rejected and observed with its bucket |
| WebDiscovery.GlobalWebDiscoveryProvider.FinalizeCandidateFunnel | freelancer_bot/global_web_discovery.py:328-352 | the loop resolves every pending observation and tallies it |
| WebDiscovery.GlobalWebDiscoveryProvider.SearchWithFallback | freelancer_bot/global_web_discovery.py:217-246 | the first answering backend's results, or failure of all, with every attempt counted |
| WebDiscovery.GlobalWebDiscoveryProvider.Discover | freelancer_bot/global_web_discovery.py:101-215 | the nested loops replay the scan's events on the books, and candidates are the observed keys in order, merged from their sightings |
| WebDiscovery.ScanStaysWithinCaps | freelancer_bot/global_web_discovery.py:104-159 | observed keys and page fetches stay within their caps, and a discovery that neither aborts nor fills up observes every direct reference |
| WebDiscovery.DiscoveryKeepsBooks | freelancer_bot/global_web_discovery.py:101-165 | on top of any history a discovery keeps the caps and the accounting |
| WebDiscovery.OneDiscoveryLosesReference | freelancer_bot/global_web_discovery.py:101-159 | under the largest candidate cap one discovery, scanning a malformed result and a page, meets just those references and ends with one valid reference in no bucket |
| WebDiscovery.MergeObserved | freelancer_bot/global_web_discovery.py:430-450 | the loop unites domains and pages and appends only new evidence keys |
| WebDiscovery.MergedMeaning | freelancer_bot/global_web_discovery.py:430-450 | a candidate keeps its first sighting, every domain and page, and one evidence item per distinct key in order of appearance |
| WebDiscovery.CandidateCounts | freelancer_bot/global_web_discovery.py:173-215 | a candidate reports its first sighting, how many distinct domains and pages it was sighted on, and the first fifty distinct evidence items |
| WebDiscovery.EvidenceIsByPlace | freelancer_bot/global_web_discovery.py:453-455 | sightings are one piece of evidence exactly for one key on one page of one domain |
| WebDiscovery.LinksAreSightedInPlace | freelancer_bot/global_web_discovery.py:409-427 | an extracted link is sighted on its own page and domain |
| LoadEvaluation.StageResult | freelancer_bot/load_evaluation.py:505-563 | under every interleaving each index is handled exactly once, completed + failed = requested, the final backlog is 0, the maximum is the request, and the observations are the completed outputs |
| LoadEvaluation.StageReportsFailures | freelancer_bot/load_evaluation.py:523-541 | failed are exactly the items whose handler raised or returned something foreign, reported by kind, and observed exactly the calls the others returned |
| LoadEvaluation.InFlightBound | freelancer_bot/load_evaluation.py:543-543 | at most min(concurrency, requested) items are in flight, none twice and none already handled |
| LoadEvaluation.StageTerminates | freelancer_bot/load_evaluation.py:523-541 | every run ends within three steps an index and one a worker |
| LoadEvaluation.StuckMeansDone | freelancer_bot/load_evaluation.py:525-529 | the pool stops exactly when every worker has returned |
| SourceDiscoveryLoop.NoWakeUpIsLost | freelancer_bot/app.py:1497-1551 | a signal no cycle has answered never leaves the loop to its timer, only such a signal cuts the wait short, and the first-cycle event is set exactly by a finished cycle or the loop's return |
| SourceDiscoveryLoop.SignalIsServed | freelancer_bot/app.py:1501-1538 | from an unserved signal, under every interleaving with cycles, further signals and timeouts: a cycle has started or the loop has stopped, or the loop can go on without its timer and takes fewer than five steps before the cycle |
| SourceDiscoveryLoop.OnlySignalsCutTheWait | freelancer_bot/app.py:1520-1538 | a waiting loop without an unserved signal can only be signalled, cancelled or timed out |
| SourceDiscoveryLoop.FatalFailureEnds | freelancer_bot/app.py:1501-1551 | a configured loop ends by itself exactly for a failure it treats as fatal; any other failed cycle is waited out |
| SourceDiscoveryLoop.NextSteps | freelancer_bot/app.py:1497-1551 | what can come next at each `await` |
| SourceDiscoveryLoop.CycleRules | freelancer_bot/app.py:1501-1538 | a cycle that finds something reloads before it waits; a wake-up clears the event again and a timeout does not |
| SourceDiscoveryLoop.BeginRules | freelancer_bot/app.py:1497-1511 | a configured loop clears the event and starts a cycle, an unconfigured one ends at once |
| SourceDiscoveryLoop.KeysTellSourcesApart | freelancer_bot/app.py:1934-1938 | when two sources are one to a reload and when to the handlers |
| SourceDiscoveryLoop.SourceRegistry.RegisterSourceHandlers | freelancer_bot/app.py:1176-1220 | active sources are the resolvable ones in order, and each handler key (the identifier, or the lookup when it is missing or 0) gets one listener, ever |
| SourceDiscoveryLoop.SourceRegistry.ReloadApprovedSources | freelancer_bot/app.py:1553-1594 | the newly active sources are those whose identity key (the identifier, even 0, or the lookup) was not active before, and only they are caught up on |
| SourceDiscoveryLoop.AddedAreNew | freelancer_bot/app.py:1556-1569 | an active source counts as new exactly when no source active before has its identifier, or its lookup when neither has one |
| CalibrationSample.DiverseCalibrationSample | freelancer_bot/operator_cli.py:2275-2298 | exactly min(limit, matching) rows, each profile's an initial part of its own, no profile more than one ahead of another with rows left, in round and name order |
| CalibrationSample.SampleIsUnique | freelancer_bot/operator_cli.py:2275-2298 | that contract fixes every row and its place: two samples of one size meeting it are equal |
| CalibrationSample.SelectionSize | freelancer_bot/operator_cli.py:2281-2284 | group prefixes never exceed the matching rows and equal them once every group is exhausted |
| SourceSelection.WeightedMonitoringScheduler.Choose | freelancer_bot/global_source_library.py:354-366 | a negative limit is refused; otherwise exploration up to its share, exploitation up to the limit, and exploration again with what is left |
| SourceSelection.ChoiceTakesSortedPrefixes | freelancer_bot/global_source_library.py:357-366 | exactly min(limit, due) candidates, a sorted prefix of each class, tiers C and D getting at least min(their number, floor(limit * share)) |
| SourceSelection.ChoiceRepeatsNothing | freelancer_bot/global_source_library.py:354-366 | nothing is chosen that was not offered and due, nor more often than offered |
| SourceSelection.ChoicePrefersBetter | freelancer_bot/global_source_library.py:354-366 | within tiers A and B, and within C and D, no due candidate is left out for one with a later tier, due time or identifier |
| SourceSelection.ExplorationIsCapped | freelancer_bot/global_source_library.py:357-366 | with tiers A and B enough for all slots, C and D get the whole slots of their share and no more |
| SourceSelection.SelectCandidateCanary | freelancer_bot/operator_cli.py:957-986 | the quota picks and the fill loop give the canary, for any identifiers |
| SourceSelection.CanaryIsFairAndFull | freelancer_bot/operator_cli.py:957-986 | with distinct ids: exactly min(limit, available) distinct input candidates, an initial part of every priority class |
| SourceSelection.CanaryLeavesNoneOut | freelancer_bot/operator_cli.py:973-986 | with repeated ids too, the canary is full or has a candidate of every id there is |
| SourceSelection.CanaryMeetsQuotas | freelancer_bot/operator_cli.py:966-971 | with a limit of at least 1 the high and medium classes get their quotas |
| SourceSelection.CanaryShares | freelancer_bot/operator_cli.py:966-971 | the high class gets three fifths of the limit and the medium class a quarter, in whole slots, as far as they have candidates |
| SourceSelection.CanarySharesExact | freelancer_bot/operator_cli.py:966-971 | with enough of every class those shares are exact |
| QueryCollapse.CollapseCampaignQueries | freelancer_bot/global_source_library.py:253-270 | the two-stage loop keeps a query unless its key was seen or a kept query is its near duplicate |
| QueryCollapse.NearDuplicatesAreExact | freelancer_bot/global_source_library.py:253-294 | for queries built by `_query` that equals keeping the first of each key: the near-duplicate scan removes nothing more |
| QueryCollapse.FirstsAreSubsequence | freelancer_bot/global_source_library.py:253-270 | the result is an order-preserving subsequence with distinct keys, one for every key present, each its earliest |
| QueryCollapse.CollapseKeepsSubsequence | freelancer_bot/global_source_library.py:253-270 | for any queries the kept ones are an order-preserving subsequence without repeated keys or near duplicates, and each query left out shares its key with a kept one or with a query that is a near duplicate of a kept one |
| QueryCollapse.CollapseIsIdempotent | freelancer_bot/global_source_library.py:253-270 | collapsing a collapsed list changes nothing, whatever the queries |
| QueryCollapse.NormIgnoresStrip | freelancer_bot/global_source_library.py:273-298 | stripping a text does not change its normalized key |
| QueryCollapse.SameNormIffSameWords | freelancer_bot/global_source_library.py:297-298 | two texts have one normalized key exactly when they have the same words in the same order |
| QueryCollapse.RepeatsIffSameWords | freelancer_bot/global_source_library.py:273-294 | a query repeats another exactly for equal campaign, family and language, the same words in the text and the same non-empty set of words in the topic |
| QueryCollapse.StripRule | freelancer_bot/global_source_library.py:273-283 | stripping takes off the white space around a text and nothing else |
| QueryCollapse.BuiltQueryRule | freelancer_bot/global_source_library.py:273-283 | a built query keeps what it was built from, with the key of its text |

## Left out

- Decimal's 28-digit context: intermediate quotients are exact rationals here and only the four-place quantization rounds.
- Unicode normalization, token suffixes, transliteration and the regular expressions: tokens, concepts, identities and normalized texts are functions of a label. QueryCollapse models case folding per character.
- SHA-256 and JSON canonicalization: in the database the digested text itself, in the batch key any function without a collision among what is compared; in the funnel, hashes of source keys and of rejected URLs never collide.
- Semantic scores: given, one for each profile, and the semantic policy's digest with them.
- Evidence texts inside score components and card texts: presentation only.
- Float products in the quotas and due times: exact fractions and integers.
- Binary float confidence in the analyzer route: counted in units of 0.0001.
- The database engine: no deadlock detection, no serialization failures; lock waits are steps that are not yet enabled, and any transaction may abort.
- Statements between the dedup lock and the commit of one attempt are one step: no other transaction can be in that part, and the raw-message rows it locks are never written by the others.
- Deletion of messages, rows or jobs: retention is not modelled.
- Opportunity near-duplicate search: any opportunity on record may be found; lifecycle events, preferred sources and first and last seen times are not kept.
- Strict parsing of a cached envelope: every stored envelope is one the program wrote.
- Matching delivery after the claimed key is checked: match generation and delivery scheduling are not part of this model.
- LexicalMatching.F1PerfectOnlyWhenAllMatched: a rounded score of 1 implies full matching only below 20000 labels in all; beyond that a single miss rounds away.
- Aliasing of observed references: the dictionary's entries are values here, replaced on merge, since the source shares none of them.
- Per-backend usage, costs and failure classes in Web discovery: counters beside the ones modelled.
- Latency percentiles, throughput, cost projection and report assembly of a load run: arithmetic on the stage results.
- Delivery sending, entitlements, configuration checks, profile texts and callback codecs: not part of this model.
