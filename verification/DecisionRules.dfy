/** What a trace and its rank mean in terms of the scores, ages and thresholds they come from. */
module DecisionRules {
  import opened Decimals
  import opened Sequences
  import opened Matching
  import opened MatchDecisions

  // --- age and freshness ---------------------------------------------------------

  /** Evaluation time is cut down to whole buckets since the epoch. */
  lemma BucketRule(evaluatedAt: nat, bucket: int)
    requires bucket > 0
    ensures var seconds := BucketedTime(evaluatedAt, bucket);
            seconds % bucket == 0 && seconds * 1_000_000 <= evaluatedAt < (seconds + bucket) * 1_000_000
  {
    var timestamp := evaluatedAt / 1_000_000;
    var k := timestamp / bucket;
    assert BucketedTime(evaluatedAt, bucket) == k * bucket;
    MultipleOf(k, bucket);
  }

  lemma MultipleOf(k: int, bucket: int)
    requires bucket > 0
    ensures k * bucket % bucket == 0
  {
    var q, r := k * bucket / bucket, k * bucket % bucket;
    if k < q {
      StepUp(k, q, bucket);
    } else if q < k {
      StepUp(q, k, bucket);
    }
  }

  /** A trace's age is the whole seconds since the opportunity was last seen, never negative, and its
      freshness the nearest four-place value to what is left of the maximum age. */
  lemma TraceAges(text: Text, input: MatchScoringInput, p: Profile, reference: nat, policy: DecisionPolicy)
    ensures var t := ProfileTrace(text, input, p, reference, policy);
            var elapsed := reference * 1_000_000 - input.opportunity.lastSeenAt;
            && t.lastSeenAt == input.opportunity.lastSeenAt && t.evaluatedAt == reference
            && t.opportunityId == input.opportunity.id && t.profileId == p.id
            && (if elapsed < 0 then t.age == 0 else t.age * 1_000_000 <= elapsed < (t.age + 1) * 1_000_000)
            && (t.age >= policy.maximumAge ==> t.freshness == 0)
            && (t.age < policy.maximumAge ==>
                  -policy.maximumAge
                  <= 2 * (t.freshness * policy.maximumAge - (policy.maximumAge - t.age) * 10_000)
                  <= policy.maximumAge)
  {
    hide Decide, Judge, RoundHalfEven;
    RoundExact(0, policy.maximumAge);
  }

  // --- the verdict -----------------------------------------------------------------

  /** The final rank is the nearest four-place value to combined score and freshness, weighed and
      clamped to [0, 1]; there is one exactly for a scored trace past the filters. */
  lemma TraceRankScore(text: Text, input: MatchScoringInput, p: Profile, reference: nat, policy: DecisionPolicy)
    ensures var t := ProfileTrace(text, input, p, reference, policy);
            && (t.verdict.finalRank.Some? <==> t.hardEligible && t.semantic.Some?)
            && (t.verdict.finalRank.Some? ==>
                  var unit, w := 10_000 * policy.scale, policy.freshnessWeight;
                  var exact := t.semantic.value.combinedScore * (unit - w) + t.freshness * w;
                  && (exact <= 0 ==> t.verdict.finalRank.value == 0)
                  && (exact >= 10_000 * unit ==> t.verdict.finalRank.value == 10_000)
                  && (0 <= exact <= 10_000 * unit ==>
                        -unit <= 2 * (t.verdict.finalRank.value * unit - exact) <= unit))
  {
    hide Decide, FreshnessScore, RoundHalfEven;
    RoundExact(0, policy.Unit());
    RoundExact(10_000, policy.Unit());
  }

  /** The first rule a trace breaks names its decision: the filters and the semantic score, expiry,
      relevance, final rank; it is eligible exactly when it breaks none. */
  lemma TraceVerdict(text: Text, input: MatchScoringInput, p: Profile, reference: nat, policy: DecisionPolicy)
    ensures var t := ProfileTrace(text, input, p, reference, policy);
            var scored := t.hardEligible && t.semantic.Some?;
            var expired := policy.suppressExpired && policy.maximumAge <= t.age;
            var irrelevant := scored && t.semantic.value.combinedRelevance * policy.scale < policy.minimumRelevance;
            var low := scored && t.verdict.finalRank.Some?
                       && t.verdict.finalRank.value * policy.scale < policy.minimumRank;
            && (t.verdict.code == HardRejected <==> !scored)
            && (t.verdict.code == FreshnessExpired <==> scored && expired)
            && (t.verdict.code == BelowRelevance <==> scored && !expired && irrelevant)
            && (t.verdict.code == BelowRankScore <==> scored && !expired && !irrelevant && low)
            && (t.verdict.code == IsEligible <==> scored && !expired && !irrelevant && !low)
  {
    hide Decide, FreshnessScore, FinalRankScore;
  }

  /** A trace past the filters is one whose own decision allows it and that no narrowing excluded. */
  lemma TraceReportsDecision(text: Text, input: MatchScoringInput, p: Profile, reference: nat, policy: DecisionPolicy)
    requires input.candidates == Narrowing(text, input.opportunity, input.profiles)
    requires DistinctListedIds(input.profiles) && p in input.profiles && Listed(p)
    ensures var t := ProfileTrace(text, input, p, reference, policy);
            && (forall code :: (exists f :: f in t.failures && f.code == code)
                               <==> Violates(text, input.opportunity, p, code))
            && t.narrowing == (if !input.opportunity.lifecycle.Active? then None
                               else ExclusionOf(text, input.opportunity.analysis, p))
            && (t.hardEligible <==> t.failures == [] && t.narrowing.None?)
  {
    FoundDecisionIsOwn(text, input.opportunity, input.profiles, p);
    FoundExclusionIsOwn(text, input.opportunity, input.profiles, p);
    forall code
      ensures (exists f :: f in Failures(text, input.opportunity, p) && f.code == code)
              <==> Violates(text, input.opportunity, p, code)
    {
      FailuresReportViolations(text, input.opportunity, p, code);
    }
    hide ExclusionOf, Exclusions, Decisions, Violates, Failures, Judge, FreshnessScore, KindUnknowns, PlaceUnknowns;
  }

  // --- ranks by score ----------------------------------------------------------------

  /** By final rank, then relevance, then freshness, then when it was last seen, and at last the
      smaller opportunity id. */
  predicate ScoredAbove(t: Trace, u: Trace)
    requires t.verdict.finalRank.Some? && u.verdict.finalRank.Some? && t.semantic.Some? && u.semantic.Some?
  {
    var a, b := t.verdict.finalRank.value, u.verdict.finalRank.value;
    var c, d := t.semantic.value.combinedRelevance, u.semantic.value.combinedRelevance;
    || a > b
    || (a == b && c > d)
    || (a == b && c == d && t.freshness > u.freshness)
    || (a == b && c == d && t.freshness == u.freshness && t.lastSeenAt > u.lastSeenAt)
    || (a == b && c == d && t.freshness == u.freshness && t.lastSeenAt == u.lastSeenAt
        && t.opportunityId < u.opportunityId)
  }

  lemma LexStep(x: int, a: seq<int>, y: int, b: seq<int>)
    ensures LexLe([x] + a, [y] + b) <==> x < y || (x == y && LexLe(a, b))
  {
    assert ([x] + a)[1..] == a && ([y] + b)[1..] == b;
  }

  lemma KeyOrderByScore(t: Trace, u: Trace)
    requires t.verdict.finalRank.Some? && u.verdict.finalRank.Some? && t.semantic.Some? && u.semantic.Some?
    ensures KeyLe(t, u) <==> !ScoredAbove(u, t)
  {
    var a, b := KeyOf(t), KeyOf(u);
    assert a == [a[0]] + ([a[1]] + ([a[2]] + ([a[3]] + ([a[4]] + []))));
    assert b == [b[0]] + ([b[1]] + ([b[2]] + ([b[3]] + ([b[4]] + []))));
    LexStep(a[4], [], b[4], []);
    LexStep(a[3], [a[4]] + [], b[3], [b[4]] + []);
    LexStep(a[2], [a[3]] + ([a[4]] + []), b[2], [b[3]] + ([b[4]] + []));
    LexStep(a[1], [a[2]] + ([a[3]] + ([a[4]] + [])), b[1], [b[2]] + ([b[3]] + ([b[4]] + [])));
    LexStep(a[0], [a[1]] + ([a[2]] + ([a[3]] + ([a[4]] + []))), b[0], [b[1]] + ([b[2]] + ([b[3]] + ([b[4]] + []))));
    hide LexLe;
  }

  /** Over distinct pairs, ranks within a profile follow the scores. */
  lemma RanksFollowScores(ts: seq<Trace>, t: Trace, u: Trace)
    requires DistinctPairs(ts) && t in ts && u in ts && t.IsRankable() && u.IsRankable() && t.profileId == u.profileId
    requires t.verdict.finalRank.Some? && u.verdict.finalRank.Some? && t.semantic.Some? && u.semantic.Some?
    ensures RankOf(ts, t).value < RankOf(ts, u).value <==> ScoredAbove(t, u)
  {
    KeyOrderByScore(t, u);
    KeyOrderByScore(u, t);
    hide KeyLe, RankOf, DistinctPairs;
    RanksFollowKeyOrder(ts, t, u);
  }

  /** Every eligible trace of a batch has been scored. */
  lemma {:induction false} EligibleIsScored(text: Text, inputs: seq<MatchScoringInput>, reference: nat,
                                            policy: DecisionPolicy, t: Trace)
    requires t in AllTraces(text, inputs, reference, policy) && t.verdict.code == IsEligible
    ensures t.verdict.finalRank.Some? && t.semantic.Some?
  {
    if t in OpportunityTraces(text, inputs[0], reference, policy) {
      var ts := OpportunityTraces(text, inputs[0], reference, policy);
      var i :| 0 <= i < |ts| && ts[i] == t;
      var p := Filter(inputs[0].profiles, Listed)[i];
      TraceVerdict(text, inputs[0], p, reference, policy);
      TraceRankScore(text, inputs[0], p, reference, policy);
      hide ProfileTrace;
      assert t == ProfileTrace(text, inputs[0], p, reference, policy);
    } else {
      EligibleIsScored(text, inputs[1..], reference, policy, t);
    }
  }

  lemma RankedOrigin(ts: seq<Trace>, t: Trace) returns (s: Trace)
    requires t in Ranked(ts)
    ensures s in ts && t == s.(rank := RankOf(ts, s))
  {
    var i :| 0 <= i < |Ranked(ts)| && Ranked(ts)[i] == t;
    s := ts[i];
    assert Ranker(ts)(s) == s.(rank := RankOf(ts, s));
    hide RankOf;
  }

  /** In a returned batch the ranks of a profile's eligible traces are distinct and follow the scores. */
  lemma BatchRanksByScore(text: Text, hashing: Hashing, inputs: seq<MatchScoringInput>, evaluatedAt: nat,
                          policy: DecisionPolicy, t: Trace, u: Trace)
    requires WellFormed(inputs)
    requires var batch := BatchOf(text, hashing, inputs, evaluatedAt, policy); t in batch.traces && u in batch.traces
    requires t.verdict.code == u.verdict.code == IsEligible && t.profileId == u.profileId
    ensures t.verdict.finalRank.Some? && t.semantic.Some? && u.verdict.finalRank.Some? && u.semantic.Some?
    ensures t.rank.Some? && u.rank.Some? && (t.rank.value < u.rank.value <==> ScoredAbove(t, u))
    ensures t.rank == u.rank ==> t == u
  {
    var reference := BucketedTime(evaluatedAt, policy.bucket);
    var ts := AllTraces(text, inputs, reference, policy);
    hide AllTraces, Ranked, RankOf, DistinctPairs;
    var s := RankedOrigin(ts, t);
    var v := RankedOrigin(ts, u);
    FreshGivesDistinctPairs(text, inputs, {}, reference, policy);
    EligibleIsScored(text, inputs, reference, policy, s);
    EligibleIsScored(text, inputs, reference, policy, v);
    EligibleHasRank(ts, s);
    EligibleHasRank(ts, v);
    RanksFollowScores(ts, s, v);
    RanksFollowKeyOrder(ts, s, v);
  }

  lemma EligibleHasRank(ts: seq<Trace>, t: Trace)
    ensures t.verdict.code == IsEligible ==> RankOf(ts, t).Some?
  {
  }

  /** A batch carries the policy it was asked for, its bucket, and the one configuration of its inputs. */
  lemma BatchCarriesInputs(text: Text, hashing: Hashing, inputs: seq<MatchScoringInput>, evaluatedAt: nat,
                           policy: DecisionPolicy)
    requires WellFormed(inputs)
    ensures var batch := BatchOf(text, hashing, inputs, evaluatedAt, policy);
            && batch.policy == policy
            && batch.evaluatedAt * 1_000_000 <= evaluatedAt < (batch.evaluatedAt + policy.bucket) * 1_000_000
            && (forall input :: input in inputs ==> batch.scoringConfig == input.scoringConfig)
            && (forall t :: t in batch.traces ==>
                  exists input :: input in inputs && t.opportunityId == input.opportunity.id)
            && |batch.traces| == |AllTraces(text, inputs, batch.evaluatedAt, policy)|
  {
    var reference := BucketedTime(evaluatedAt, policy.bucket);
    var batch := BatchOf(text, hashing, inputs, evaluatedAt, policy);
    var ts := AllTraces(text, inputs, reference, policy);
    assert batch.traces == Ranked(ts) && batch.evaluatedAt == reference && batch.policy == policy;
    assert |Ranked(ts)| == |ts|;
    ConfigIsShared(inputs);
    assert batch.scoringConfig == ConfigOf(inputs);
    BucketRule(evaluatedAt, policy.bucket);
    hide BatchOf, AllTraces, Ranked, RankOf, WellFormed, ConfigOf, BucketedTime;
    forall t | t in Ranked(ts)
      ensures exists input :: input in inputs && t.opportunityId == input.opportunity.id
    {
      RankedInput(text, inputs, reference, policy, t);
    }
  }

  lemma ConfigIsShared(inputs: seq<MatchScoringInput>)
    requires WellFormed(inputs)
    ensures forall input :: input in inputs ==> input.scoringConfig == ConfigOf(inputs)
  {
    hide Fresh;
    forall input | input in inputs
      ensures input.scoringConfig == ConfigOf(inputs)
    {
      var i :| 0 <= i < |inputs| && inputs[i] == input;
      assert inputs[i].scoringConfig == inputs[0].scoringConfig;
    }
  }

  lemma RankedInput(text: Text, inputs: seq<MatchScoringInput>, reference: nat, policy: DecisionPolicy, t: Trace)
    requires t in Ranked(AllTraces(text, inputs, reference, policy))
    ensures exists input :: input in inputs && t.opportunityId == input.opportunity.id
  {
    hide AllTraces, Ranked, RankOf;
    var s := RankedOrigin(AllTraces(text, inputs, reference, policy), t);
    TraceOrigin(text, inputs, reference, policy, s);
    var i :| 0 <= i < |inputs| && s.opportunityId == inputs[i].opportunity.id;
    assert inputs[i] in inputs;
  }
}
