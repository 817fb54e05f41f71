/** Decision traces, their ranking, and the content-derived identity of a batch. */
module MatchDecisions {
  import opened Decimals
  import opened Sequences
  import opened Ordering
  import opened Matching

  // --- entities --------------------------------------------------------------

  /** Thresholds and the freshness weight in units of 1/(10000 * scale). */
  datatype DecisionPolicyFields = DecisionPolicyFields(
    scale: int, minimumRelevance: int, minimumRank: int, freshnessWeight: int,
    maximumAge: int, suppressExpired: bool, bucket: int)
  {
    function Unit(): int { ONE * scale }
  }

  predicate ValidDecisionPolicy(p: DecisionPolicyFields) {
    && p.scale > 0
    && 0 <= p.minimumRelevance <= p.Unit() && 0 <= p.minimumRank <= p.Unit() && 0 <= p.freshnessWeight <= p.Unit()
    && p.maximumAge >= 60 && 60 <= p.bucket <= 86400 && p.maximumAge % p.bucket == 0
  }

  type DecisionPolicy = p: DecisionPolicyFields | ValidDecisionPolicy(p)
    witness DecisionPolicyFields(1, 3000, 4000, 1000, 604800, true, 3600)

  datatype SemanticScore = SemanticScore(profileId: nat, combinedRelevance: int, combinedScore: int)

  datatype MatchScoringInput = MatchScoringInput(
    opportunity: Opportunity, profiles: seq<Profile>,
    candidates: NarrowingResult, scores: seq<SemanticScore>, scoringConfig: string)

  datatype DecisionCode = IsEligible | HardRejected | FreshnessExpired | BelowRelevance | BelowRankScore

  datatype Verdict = Verdict(finalRank: Option<int>, code: DecisionCode)

  datatype Trace = Trace(
    opportunityId: nat, profileId: nat, lastSeenAt: int,
    hardEligible: bool, failures: seq<HardFilterFailure>, narrowing: Option<ExclusionCode>, unknowns: seq<UnknownField>,
    semantic: Option<SemanticScore>, age: nat, freshness: int, verdict: Verdict,
    evaluatedAt: nat, rank: Option<nat>)
  {
    predicate IsRankable() { verdict.code.IsEligible? }

    function FinalRank(): int { if verdict.finalRank.Some? then verdict.finalRank.value else 0 }

    function Relevance(): int { if semantic.Some? then semantic.value.combinedRelevance else 0 }
  }

  // --- time ------------------------------------------------------------------

  /** Instants are microseconds since the epoch; a bucketed time is in whole seconds. */
  const MICROS: int := 1_000_000

  function BucketedTime(evaluatedAt: nat, bucket: int): nat
    requires bucket > 0
  {
    var timestamp := evaluatedAt / MICROS;
    timestamp - timestamp % bucket
  }

  /** Whole seconds between the two instants, truncated toward zero, never negative. */
  function AgeSeconds(lastSeenAt: int, reference: nat): nat {
    var elapsed := reference * MICROS - lastSeenAt;
    if elapsed < 0 then 0 else elapsed / MICROS
  }

  function FreshnessScore(age: nat, maximumAge: int): int
    requires maximumAge > 0
  {
    RoundHalfEven((maximumAge - Min(age, maximumAge)) * ONE, maximumAge)
  }

  function FinalRankScore(policy: DecisionPolicy, combined: int, freshness: int): int {
    var unit := policy.Unit();
    RoundHalfEven(Clamp(combined * (unit - policy.freshnessWeight) + freshness * policy.freshnessWeight, ONE * unit),
                  unit)
  }

  function Judge(policy: DecisionPolicy, hardEligible: bool, semantic: Option<SemanticScore>, age: nat,
                 freshness: int): Verdict {
    if !hardEligible || semantic.None? then Verdict(None, HardRejected)
    else
      var score := semantic.value;
      var finalRank := FinalRankScore(policy, score.combinedScore, freshness);
      var code :=
        if policy.suppressExpired && age >= policy.maximumAge then FreshnessExpired
        else if score.combinedRelevance * policy.scale < policy.minimumRelevance then BelowRelevance
        else if finalRank * policy.scale < policy.minimumRank then BelowRankScore
        else IsEligible;
      Verdict(Some(finalRank), code)
  }

  // --- traces ----------------------------------------------------------------

  /** `{decision.profile.id: decision}`: the last decision under an id wins. */
  function DecisionFor(ds: seq<HardFilterDecision>, id: nat): (r: Option<HardFilterDecision>)
    ensures r.Some? ==> r.value in ds && r.value.profile.id == id
    ensures r.None? ==> forall d :: d in ds ==> d.profile.id != id
  {
    if ds == [] then None
    else if ds[|ds| - 1].profile.id == id then Some(ds[|ds| - 1])
    else
      assert ds == ds[..|ds| - 1] + [ds[|ds| - 1]];
      DecisionFor(ds[..|ds| - 1], id)
  }

  function ExclusionFor(es: seq<CandidateExclusion>, id: nat): (r: Option<ExclusionCode>)
    ensures r.Some? ==> CandidateExclusion(id, r.value) in es
    ensures r.None? ==> forall e :: e in es ==> e.profileId != id
  {
    if es == [] then None
    else if es[|es| - 1].profileId == id then Some(es[|es| - 1].code)
    else
      assert es == es[..|es| - 1] + [es[|es| - 1]];
      ExclusionFor(es[..|es| - 1], id)
  }

  function ScoreFor(ss: seq<SemanticScore>, id: nat): (r: Option<SemanticScore>)
    ensures r.Some? ==> r.value in ss && r.value.profileId == id
    ensures r.None? ==> forall s :: s in ss ==> s.profileId != id
  {
    if ss == [] then None
    else if ss[|ss| - 1].profileId == id then Some(ss[|ss| - 1])
    else
      assert ss == ss[..|ss| - 1] + [ss[|ss| - 1]];
      ScoreFor(ss[..|ss| - 1], id)
  }

  function ProfileTrace(text: Text, input: MatchScoringInput, p: Profile, reference: nat,
                        policy: DecisionPolicy): Trace {
    var o := input.opportunity;
    var found := DecisionFor(input.candidates.decisions, p.id);
    var decision := if found.Some? then found.value else Decide(text, o, p);
    var narrowing := ExclusionFor(input.candidates.exclusions, p.id);
    var hardEligible := decision.eligible && narrowing.None?;
    var semantic := ScoreFor(input.scores, p.id);
    var age := AgeSeconds(o.lastSeenAt, reference);
    var freshness := FreshnessScore(age, policy.maximumAge);
    Trace(o.id, p.id, o.lastSeenAt, hardEligible, decision.failures, narrowing, decision.unknowns,
          semantic, age, freshness, Judge(policy, hardEligible, semantic, age, freshness), reference, None)
  }

  function TracesOf(text: Text, input: MatchScoringInput, ps: seq<Profile>, reference: nat,
                    policy: DecisionPolicy): (r: seq<Trace>)
    ensures |r| == |ps|
    ensures forall i :: 0 <= i < |r| ==> r[i] == ProfileTrace(text, input, ps[i], reference, policy)
  {
    seq(|ps|, i requires 0 <= i < |ps| => ProfileTrace(text, input, ps[i], reference, policy))
  }

  function OpportunityTraces(text: Text, input: MatchScoringInput, reference: nat, policy: DecisionPolicy): seq<Trace> {
    TracesOf(text, input, Filter(input.profiles, Listed), reference, policy)
  }

  function AllTraces(text: Text, inputs: seq<MatchScoringInput>, reference: nat, policy: DecisionPolicy): seq<Trace> {
    if inputs == [] then []
    else OpportunityTraces(text, inputs[0], reference, policy) + AllTraces(text, inputs[1..], reference, policy)
  }

  // --- a trace agrees with the filter it reports -------------------------------

  predicate DistinctListedIds(profiles: seq<Profile>) {
    var ps := Filter(profiles, Listed);
    forall i, j | 0 <= i < j < |ps| :: ps[i].id != ps[j].id
  }

  lemma SameListedProfile(profiles: seq<Profile>, p: Profile, q: Profile)
    requires DistinctListedIds(profiles) && p in profiles && q in profiles && Listed(p) && Listed(q) && p.id == q.id
    ensures p == q
  {
    var ps := Filter(profiles, Listed);
    assert p in ps && q in ps;
    var i, j :| 0 <= i < |ps| && 0 <= j < |ps| && ps[i] == p && ps[j] == q;
  }

  lemma {:induction false} ExclusionsListed(text: Text, o: Opportunity, ps: seq<Profile>, e: CandidateExclusion)
    ensures e in Exclusions(text, o, ps) <==>
            exists p :: p in ps && Listed(p) && o.lifecycle.Active? && p.id == e.profileId
                        && ExclusionOf(text, o.analysis, p) == Some(e.code)
  {
    hide ExclusionOf;
    if ps != [] {
      ExclusionsListed(text, o, ps[1..], e);
      assert ps == [ps[0]] + ps[1..];
    }
  }

  /** With distinct ids, the decision found for a listed profile is its own. */
  lemma FoundDecisionIsOwn(text: Text, o: Opportunity, ps: seq<Profile>, p: Profile)
    requires DistinctListedIds(ps) && p in ps && Listed(p)
    ensures var found := DecisionFor(Narrowing(text, o, ps).decisions, p.id);
            found.Some? ==> found.value == Decide(text, o, p)
  {
    hide Decide, ExclusionOf, Eligible, Exclusions;
    var narrowed := Filter(ps, q => Narrowed(text, o, q));
    var ds := Narrowing(text, o, ps).decisions;
    var found := DecisionFor(ds, p.id);
    if found.Some? {
      var i :| 0 <= i < |ds| && ds[i] == found.value;
      assert ds[i] == Decide(text, o, narrowed[i]);
      assert narrowed[i] in narrowed;
      SameListedProfile(ps, p, narrowed[i]);
    }
  }

  /** With distinct ids, the exclusion found for a listed profile is its own. */
  lemma FoundExclusionIsOwn(text: Text, o: Opportunity, ps: seq<Profile>, p: Profile)
    requires DistinctListedIds(ps) && p in ps && Listed(p)
    ensures ExclusionFor(Exclusions(text, o, ps), p.id) ==
            if o.lifecycle.Active? then ExclusionOf(text, o.analysis, p) else None
  {
    hide ExclusionOf, Exclusions;
    var found := ExclusionFor(Exclusions(text, o, ps), p.id);
    if found.Some? {
      ExclusionsListed(text, o, ps, CandidateExclusion(p.id, found.value));
      var q :| q in ps && Listed(q) && o.lifecycle.Active? && q.id == p.id && ExclusionOf(text, o.analysis, q) == found;
      SameListedProfile(ps, p, q);
    } else if ExclusionOf(text, o.analysis, p).Some? {
      ExclusionsListed(text, o, ps, CandidateExclusion(p.id, ExclusionOf(text, o.analysis, p).value));
    }
  }

  /** A trace is hard-eligible exactly when its profile passes the one filter. */
  lemma TraceAgreesWithFilter(text: Text, input: MatchScoringInput, p: Profile, reference: nat, policy: DecisionPolicy)
    requires input.candidates == Narrowing(text, input.opportunity, input.profiles)
    requires DistinctListedIds(input.profiles) && p in input.profiles && Listed(p)
    ensures ProfileTrace(text, input, p, reference, policy).hardEligible <==> Eligible(text, input.opportunity, p)
    ensures ProfileTrace(text, input, p, reference, policy).hardEligible <==> p in input.candidates.eligibleProfiles
  {
    var o, ps := input.opportunity, input.profiles;
    EligibleSurvivesNarrowing(text, o, p);
    FoundDecisionIsOwn(text, o, ps, p);
    FoundExclusionIsOwn(text, o, ps, p);
    if !o.lifecycle.Active? {
      InactiveRejects(text, o, p);
    }
    hide Decide, ExclusionOf, Eligible, Exclusions, Decisions;
    assert p in input.candidates.eligibleProfiles <==> Eligible(text, o, p);
  }

  lemma InactiveRejects(text: Text, o: Opportunity, p: Profile)
    requires !o.lifecycle.Active?
    ensures !Decide(text, o, p).eligible
  {
    EligibleIffAcceptable(text, o, p);
    assert Violates(text, o, p, OpportunityNotActive);
  }

  // --- ageing ----------------------------------------------------------------

  lemma BucketMonotone(a: nat, b: nat, bucket: int)
    requires bucket > 0 && a <= b
    ensures BucketedTime(a, bucket) <= BucketedTime(b, bucket)
  {
    var s, t := a / MICROS, b / MICROS;
    FloorMonotone(s, t, bucket);
  }

  lemma FloorMonotone(s: nat, t: nat, k: int)
    requires k > 0 && s <= t
    ensures s - s % k <= t - t % k
  {
    var p, q := s / k, t / k;
    assert s - s % k == p * k && t - t % k == q * k;
    if q < p {
      StepUp(q, p, k);
    }
  }

  lemma FreshnessAntitone(younger: nat, older: nat, maximumAge: int)
    requires maximumAge > 0 && younger <= older
    ensures 0 <= FreshnessScore(older, maximumAge) <= FreshnessScore(younger, maximumAge) <= ONE
  {
    RoundMonotone((maximumAge - Min(older, maximumAge)) * ONE, (maximumAge - Min(younger, maximumAge)) * ONE,
                  maximumAge);
    RoundWithinUnit((maximumAge - Min(older, maximumAge)) * ONE, maximumAge);
    RoundWithinUnit((maximumAge - Min(younger, maximumAge)) * ONE, maximumAge);
  }

  lemma ClampRoundMonotone(a: int, b: int, unit: int)
    requires unit > 0 && a <= b
    ensures 0 <= ONE * unit
    ensures 0 <= RoundHalfEven(Clamp(a, ONE * unit), unit) <= RoundHalfEven(Clamp(b, ONE * unit), unit) <= ONE
  {
    RoundMonotone(Clamp(a, ONE * unit), Clamp(b, ONE * unit), unit);
    RoundWithinUnit(Clamp(a, ONE * unit), unit);
    RoundWithinUnit(Clamp(b, ONE * unit), unit);
  }

  lemma FinalRankMonotone(policy: DecisionPolicy, combined: int, low: int, high: int)
    requires low <= high
    ensures FinalRankScore(policy, combined, low) <= FinalRankScore(policy, combined, high)
    ensures 0 <= FinalRankScore(policy, combined, low) <= ONE
  {
    var unit, w := policy.Unit(), policy.freshnessWeight;
    WeightedMonotone(w, low, high);
    var base := combined * (unit - w);
    ClampRoundMonotone(base + low * w, base + high * w, unit);
  }

  lemma WeightedMonotone(w: int, low: int, high: int)
    requires w >= 0 && low <= high
    ensures low * w <= high * w
  {
    assert (high - low) * w >= 0;
  }

  /** Neither freshness nor the final rank rises with evaluation time, and eligibility is never regained. */
  lemma AgeingNeverHelps(text: Text, input: MatchScoringInput, p: Profile, earlier: nat, later: nat,
                         policy: DecisionPolicy)
    requires earlier <= later
    ensures var a := ProfileTrace(text, input, p, BucketedTime(earlier, policy.bucket), policy);
            var b := ProfileTrace(text, input, p, BucketedTime(later, policy.bucket), policy);
            && a.age <= b.age && b.freshness <= a.freshness
            && a.verdict.finalRank.Some? == b.verdict.finalRank.Some? && b.FinalRank() <= a.FinalRank()
            && (b.IsRankable() ==> a.IsRankable())
  {
    var s, t := BucketedTime(earlier, policy.bucket), BucketedTime(later, policy.bucket);
    BucketMonotone(earlier, later, policy.bucket);
    var a, b := AgeSeconds(input.opportunity.lastSeenAt, s), AgeSeconds(input.opportunity.lastSeenAt, t);
    assert a <= b;
    FreshnessAntitone(a, b, policy.maximumAge);
    var semantic := ScoreFor(input.scores, p.id);
    if semantic.Some? {
      FinalRankMonotone(policy, semantic.value.combinedScore, FreshnessScore(b, policy.maximumAge),
                        FreshnessScore(a, policy.maximumAge));
      var fa := FinalRankScore(policy, semantic.value.combinedScore, FreshnessScore(a, policy.maximumAge));
      var fb := FinalRankScore(policy, semantic.value.combinedScore, FreshnessScore(b, policy.maximumAge));
      assert fb * policy.scale <= fa * policy.scale by { MulOrder(policy.scale, fb, fa); }
    }
    hide Decide, FreshnessScore, FinalRankScore;
  }

  // --- ranking ---------------------------------------------------------------

  /** The sort key: final rank, relevance, freshness and recency descending, then opportunity id. */
  function KeyOf(t: Trace): seq<int> {
    [-t.FinalRank(), -t.Relevance(), -t.freshness, -t.lastSeenAt, t.opportunityId]
  }

  predicate LexLe(a: seq<int>, b: seq<int>) {
    a == [] || (b != [] && (a[0] < b[0] || (a[0] == b[0] && LexLe(a[1..], b[1..]))))
  }

  predicate KeyLe(a: Trace, b: Trace) { LexLe(KeyOf(a), KeyOf(b)) }

  /** a ranks strictly before b within a profile. */
  predicate Ahead(a: Trace, b: Trace) { KeyLe(a, b) && !KeyLe(b, a) }

  lemma {:induction false} LexTotal(a: seq<int>, b: seq<int>)
    ensures LexLe(a, b) || LexLe(b, a)
  {
    if a != [] && b != [] && a[0] == b[0] { LexTotal(a[1..], b[1..]); }
  }

  lemma {:induction false} LexTransitive(a: seq<int>, b: seq<int>, c: seq<int>)
    requires LexLe(a, b) && LexLe(b, c)
    ensures LexLe(a, c)
  {
    if a != [] && b != [] && c != [] && a[0] == b[0] == c[0] { LexTransitive(a[1..], b[1..], c[1..]); }
  }

  lemma {:induction false} LexAntisymmetric(a: seq<int>, b: seq<int>)
    requires LexLe(a, b) && LexLe(b, a)
    ensures a == b
  {
    if a != [] && b != [] {
      LexAntisymmetric(a[1..], b[1..]);
      assert a == [a[0]] + a[1..] && b == [b[0]] + b[1..];
    }
  }

  lemma KeyOrder()
    ensures TotalPreorder(KeyLe)
  {
    forall a, b ensures KeyLe(a, b) || KeyLe(b, a) { LexTotal(KeyOf(a), KeyOf(b)); }
    forall a, b, c | KeyLe(a, b) && KeyLe(b, c) ensures KeyLe(a, c) { LexTransitive(KeyOf(a), KeyOf(b), KeyOf(c)); }
  }

  lemma TiedOpportunity(a: Trace, b: Trace)
    requires KeyLe(a, b) && KeyLe(b, a)
    ensures a.opportunityId == b.opportunityId
  {
    LexAntisymmetric(KeyOf(a), KeyOf(b));
    assert KeyOf(a)[4] == KeyOf(b)[4];
  }

  /** One trace for each opportunity and profile. */
  ghost predicate DistinctPairs(ts: seq<Trace>) {
    forall i, j :: 0 <= i < j < |ts| ==>
      (ts[i].opportunityId, ts[i].profileId) != (ts[j].opportunityId, ts[j].profileId)
  }

  predicate Ranks(t: Trace, profileId: int) { t.profileId == profileId && t.IsRankable() }

  /** The eligible traces of t's profile that come before t. */
  ghost function AheadOf(ts: seq<Trace>, t: Trace): set<Trace> {
    set u | u in ts && Ranks(u, t.profileId) && Ahead(u, t)
  }

  /** An eligible trace ranks one place after the eligible traces of its profile that beat it. */
  ghost function RankOf(ts: seq<Trace>, t: Trace): Option<nat> {
    if t.IsRankable() then Some(1 + |AheadOf(ts, t)|) else None
  }

  ghost function Ranker(ts: seq<Trace>): Trace -> Trace {
    (t: Trace) => t.(rank := RankOf(ts, t))
  }

  ghost function Ranked(ts: seq<Trace>): seq<Trace> {
    Map(Ranker(ts), ts)
  }

  function Ladder(ts: seq<Trace>, profileId: int): seq<Trace> {
    SortBy(Filter(ts, t => Ranks(t, profileId)), KeyLe)
  }

  lemma DistinctTraces(ts: seq<Trace>)
    requires DistinctPairs(ts)
    ensures NoDup(ts)
  {
  }

  lemma SamePair(ts: seq<Trace>, a: Trace, b: Trace)
    requires DistinctPairs(ts) && a in ts && b in ts && a.opportunityId == b.opportunityId && a.profileId == b.profileId
    ensures a == b
  {
    var i, j :| 0 <= i < |ts| && 0 <= j < |ts| && ts[i] == a && ts[j] == b;
  }

  /** The ladder lists the profile's eligible traces once each, every rung strictly ahead of the next. */
  lemma LadderStrict(ts: seq<Trace>, profileId: int)
    requires DistinctPairs(ts)
    ensures NoDup(Ladder(ts, profileId))
    ensures forall t :: t in Ladder(ts, profileId) <==> t in ts && Ranks(t, profileId)
    ensures var s := Ladder(ts, profileId); forall i, j :: 0 <= i < j < |s| ==> Ahead(s[i], s[j])
  {
    var eligible := Filter(ts, t => Ranks(t, profileId));
    var s := Ladder(ts, profileId);
    DistinctTraces(ts);
    FilterNoDup(ts, t => Ranks(t, profileId));
    PermutationMembers(eligible, s);
    KeyOrder();
    SortSorted(eligible, KeyLe);
    forall i, j | 0 <= i < j < |s|
      ensures Ahead(s[i], s[j])
    {
      assert s[i] in s && s[j] in s && s[i] != s[j];
      if KeyLe(s[j], s[i]) {
        TiedOpportunity(s[i], s[j]);
        SamePair(ts, s[i], s[j]);
      }
    }
  }

  lemma NoDupPrefix(s: seq<Trace>, k: nat)
    requires NoDup(s) && k <= |s|
    ensures NoDup(s[..k])
  {
  }

  /** On a strict ladder, what is ahead of a rung is what comes before it. */
  lemma RungsBelow(s: seq<Trace>, k: nat, u: Trace)
    requires k < |s| && forall i, j :: 0 <= i < j < |s| ==> Ahead(s[i], s[j])
    ensures u in s && Ahead(u, s[k]) <==> u in s[..k]
  {
    hide Ahead;
    if u in s && Ahead(u, s[k]) {
      var j :| 0 <= j < |s| && s[j] == u;
      AheadIrreflexive(u, s[k]);
      assert j < k;
      assert s[..k][j] == u;
    }
  }

  /** The k-th rung has exactly the rungs before it ahead of it. */
  lemma LadderRank(ts: seq<Trace>, profileId: int, k: nat)
    requires DistinctPairs(ts) && k < |Ladder(ts, profileId)|
    ensures RankOf(ts, Ladder(ts, profileId)[k]) == Some(k + 1)
  {
    var s := Ladder(ts, profileId);
    LadderStrict(ts, profileId);
    hide Ladder, Ahead;
    assert s[k] in s && Ranks(s[k], profileId);
    forall u
      ensures u in AheadOf(ts, s[k]) <==> u in s && Ahead(u, s[k])
      ensures u in s && Ahead(u, s[k]) <==> u in s[..k]
    {
      RungsBelow(s, k, u);
    }
    hide AheadOf, DistinctPairs;
    assert AheadOf(ts, s[k]) == Elements(s[..k]);
    NoDupPrefix(s, k);
    NoDupCardinality(s[..k]);
  }

  /** Each eligible trace stands on the rung its rank names. */
  lemma RungOf(ts: seq<Trace>, t: Trace) returns (k: nat)
    requires DistinctPairs(ts) && t in ts && t.IsRankable()
    ensures k < |Ladder(ts, t.profileId)| && Ladder(ts, t.profileId)[k] == t && RankOf(ts, t) == Some(k + 1)
  {
    var s := Ladder(ts, t.profileId);
    LadderStrict(ts, t.profileId);
    assert t in s;
    k :| 0 <= k < |s| && s[k] == t;
    LadderRank(ts, t.profileId, k);
  }

  /** Within a profile the ranks of eligible traces are exactly 1..n; other traces have none. */
  lemma RanksAreOneToN(ts: seq<Trace>, profileId: int)
    requires DistinctPairs(ts)
    ensures var n := |Filter(ts, t => Ranks(t, profileId))|;
            && (forall t :: t in ts && Ranks(t, profileId) ==> RankOf(ts, t).Some? && 1 <= RankOf(ts, t).value <= n)
            && (forall k :: 1 <= k <= n ==> exists t :: t in ts && Ranks(t, profileId) && RankOf(ts, t) == Some(k))
    ensures forall t :: t in ts && !t.IsRankable() ==> RankOf(ts, t).None?
  {
    var s := Ladder(ts, profileId);
    LadderStrict(ts, profileId);
    assert |s| == |Filter(ts, t => Ranks(t, profileId))|;
    assert forall t :: t in ts && !t.IsRankable() ==> RankOf(ts, t).None?;
    hide AheadOf, Ahead, Ladder, RankOf, DistinctPairs, Filter;
    forall t | t in ts && Ranks(t, profileId)
      ensures RankOf(ts, t).Some? && 1 <= RankOf(ts, t).value <= |s|
    {
      var k := RungOf(ts, t);
    }
    forall k | 1 <= k <= |s|
      ensures exists t :: t in ts && Ranks(t, profileId) && RankOf(ts, t) == Some(k)
    {
      LadderRank(ts, profileId, k - 1);
      assert s[k - 1] in s;
    }
  }

  /** Ranks follow the lexicographic key order, so no two traces of a profile share one. */
  lemma RanksFollowKeyOrder(ts: seq<Trace>, t: Trace, u: Trace)
    requires DistinctPairs(ts) && t in ts && u in ts && t.IsRankable() && u.IsRankable() && t.profileId == u.profileId
    ensures RankOf(ts, t).value < RankOf(ts, u).value <==> Ahead(t, u)
    ensures RankOf(ts, t) == RankOf(ts, u) ==> t == u
  {
    var i := RungOf(ts, t);
    var j := RungOf(ts, u);
    LadderStrict(ts, t.profileId);
    AheadIrreflexive(t, u);
    hide AheadOf, Ahead, RankOf, Ladder;
    var s := Ladder(ts, t.profileId);
    assert i < j ==> Ahead(s[i], s[j]);
    assert j < i ==> Ahead(s[j], s[i]);
  }

  lemma AheadIrreflexive(t: Trace, u: Trace)
    ensures Ahead(t, u) ==> !Ahead(u, t) && t != u
  {
  }

  function ProfileIds(ts: seq<Trace>): seq<int> {
    seq(|ts|, i requires 0 <= i < |ts| => ts[i].profileId)
  }

  function PairOf(t: Trace): (nat, nat) { (t.opportunityId, t.profileId) }

  /** The last place, counted from 1, at which a pair stands. */
  function LastPlace(s: seq<Trace>, key: (nat, nat)): Option<nat> {
    if s == [] then None
    else if PairOf(s[|s| - 1]) == key then Some(|s|)
    else LastPlace(s[..|s| - 1], key)
  }

  function Lookup(ranks: map<(nat, nat), nat>, key: (nat, nat)): Option<nat> {
    if key in ranks then Some(ranks[key]) else None
  }

  /** `for rank, trace in enumerate(eligible, start=1)` */
  method Enumerate(eligible: seq<Trace>, ranks: map<(nat, nat), nat>) returns (after: map<(nat, nat), nat>)
    ensures forall key :: Lookup(after, key) == var place := LastPlace(eligible, key);
                                                if place.Some? then place else Lookup(ranks, key)
  {
    after := ranks;
    for i := 0 to |eligible|
      invariant forall key :: Lookup(after, key) == var place := LastPlace(eligible[..i], key);
                                                    if place.Some? then place else Lookup(ranks, key)
    {
      assert eligible[..i + 1][..i] == eligible[..i];
      after := after[PairOf(eligible[i]) := i + 1];
    }
    assert eligible[..|eligible|] == eligible;
  }

  /** A ladder holds only its own profile's pairs. */
  lemma {:induction false} PlaceNeedsPair(s: seq<Trace>, key: (nat, nat))
    ensures LastPlace(s, key).Some? <==> exists t :: t in s && PairOf(t) == key
  {
    if s != [] {
      var n := |s| - 1;
      assert s == s[..n] + [s[n]];
      PlaceNeedsPair(s[..n], key);
    }
  }

  lemma LadderIsOwn(ts: seq<Trace>, profileId: int, key: (nat, nat))
    ensures LastPlace(Ladder(ts, profileId), key).Some? ==> key.1 == profileId
  {
    PlaceNeedsPair(Ladder(ts, profileId), key);
  }

  /** The places entered for the given profiles. */
  function PlacesOf(ts: seq<Trace>, profileIds: seq<int>, key: (nat, nat)): Option<nat> {
    if key.1 in profileIds then LastPlace(Ladder(ts, key.1), key) else None
  }

  method FillRanks(ts: seq<Trace>, profileIds: seq<int>) returns (ranks: map<(nat, nat), nat>)
    ensures forall key :: Lookup(ranks, key) == PlacesOf(ts, profileIds, key)
  {
    hide Ladder, LastPlace;
    ranks := map[];
    for k := 0 to |profileIds|
      invariant forall key :: Lookup(ranks, key) == PlacesOf(ts, profileIds[..k], key)
    {
      forall key
        ensures LastPlace(Ladder(ts, profileIds[k]), key).Some? ==> key.1 == profileIds[k]
      {
        LadderIsOwn(ts, profileIds[k], key);
      }
      assert profileIds[..k + 1] == profileIds[..k] + [profileIds[k]];
      ranks := Enumerate(Ladder(ts, profileIds[k]), ranks);
    }
    assert profileIds[..|profileIds|] == profileIds;
  }

  /** Each trace's rank: the last place of its pair among the profile's eligible traces, in key order. */
  function PlaceOf(ts: seq<Trace>, t: Trace): Option<nat> { LastPlace(Ladder(ts, t.profileId), PairOf(t)) }

  function Placer(ts: seq<Trace>): Trace -> Trace { (t: Trace) => t.(rank := PlaceOf(ts, t)) }

  /** Fills the rank of each eligible trace from the sorted traces of its profile. */
  method RankEligible(ts: seq<Trace>) returns (ranked: seq<Trace>)
    ensures ranked == Map(Placer(ts), ts)
  {
    hide LastPlace, Ladder;
    var profileIds := SortBy<int>(FromKeys<int>(ProfileIds(ts)), IntLe);
    var ranks := FillRanks(ts, profileIds);
    forall i | 0 <= i < |ts|
      ensures Lookup(ranks, PairOf(ts[i])) == PlaceOf(ts, ts[i])
    {
      assert ProfileIds(ts)[i] == ts[i].profileId;
    }
    ranked := seq(|ts|, i requires 0 <= i < |ts| => ts[i].(rank := Lookup(ranks, PairOf(ts[i]))));
  }

  /** Over distinct pairs the place is the rank. */
  lemma PlaceIsRank(ts: seq<Trace>, t: Trace)
    requires DistinctPairs(ts) && t in ts
    ensures PlaceOf(ts, t) == RankOf(ts, t)
  {
    var s := Ladder(ts, t.profileId);
    LadderStrict(ts, t.profileId);
    PlaceNeedsPair(s, PairOf(t));
    hide Ladder, AheadOf, Ahead, KeyLe;
    if t.IsRankable() {
      var k := RungOf(ts, t);
      forall j | 0 <= j < |s| && PairOf(s[j]) == PairOf(t)
        ensures j == k
      {
        assert s[j] in s && s[k] in s;
        SamePair(ts, s[j], t);
      }
      OnlyPlace(s, PairOf(t), k);
    } else {
      forall u | u in s
        ensures PairOf(u) != PairOf(t)
      {
        if PairOf(u) == PairOf(t) {
          SamePair(ts, u, t);
        }
      }
    }
  }

  lemma {:induction false} OnlyPlace(s: seq<Trace>, key: (nat, nat), k: nat)
    requires k < |s| && PairOf(s[k]) == key && forall j :: 0 <= j < |s| && PairOf(s[j]) == key ==> j == k
    ensures LastPlace(s, key) == Some(k + 1)
  {
    if k < |s| - 1 {
      OnlyPlace(s[..|s| - 1], key, k);
    }
  }

  lemma PlacedIsRanked(ts: seq<Trace>)
    requires DistinctPairs(ts)
    ensures Map(Placer(ts), ts) == Ranked(ts)
  {
    forall i | 0 <= i < |ts|
      ensures Placer(ts)(ts[i]) == Ranker(ts)(ts[i])
    {
      PlaceIsRank(ts, ts[i]);
    }
  }

  // --- the batch -------------------------------------------------------------

  datatype DecisionError =
    | DuplicateOpportunity(id: nat) | ForeignSemanticResult(id: nat) | DuplicateProfile(id: nat) | MixedScoringPolicies

  datatype Payload = Payload(policy: DecisionPolicyFields, scoringConfig: string, evaluatedAt: nat,
                             traceInputs: seq<int>)

  /** SHA-256 over canonical JSON, for one trace and for the batch payload. */
  datatype Hashing = Hashing(trace: Trace -> int, batch: Payload -> int)

  datatype Batch = Batch(key: int, evaluatedAt: nat, policy: DecisionPolicyFields, scoringConfig: string,
                         traces: seq<Trace>)

  const DEFAULT_SCORING_CONFIG: string := "default"

  /** The first input that is rejected, given the opportunities before it. */
  function FirstRejection(inputs: seq<MatchScoringInput>, seen: set<nat>): Option<DecisionError> {
    if inputs == [] then None
    else if inputs[0].opportunity.id in seen then Some(DuplicateOpportunity(inputs[0].opportunity.id))
    else if inputs[0].candidates.opportunityId != inputs[0].opportunity.id
    then Some(ForeignSemanticResult(inputs[0].opportunity.id))
    else if !DistinctListedIds(inputs[0].profiles) then Some(DuplicateProfile(inputs[0].opportunity.id))
    else FirstRejection(inputs[1..], seen + {inputs[0].opportunity.id})
  }

  predicate OneConfig(inputs: seq<MatchScoringInput>) {
    forall i, j | 0 <= i < |inputs| && 0 <= j < |inputs| :: inputs[i].scoringConfig == inputs[j].scoringConfig
  }

  function ConfigOf(inputs: seq<MatchScoringInput>): string {
    if inputs == [] then DEFAULT_SCORING_CONFIG else inputs[0].scoringConfig
  }

  function SortedHashes(hash: Trace -> int, ts: seq<Trace>): seq<int> {
    SortBy(Map(hash, ts), IntLe)
  }

  /** The batch of well-formed inputs. */
  ghost function BatchOf(text: Text, hashing: Hashing, inputs: seq<MatchScoringInput>, evaluatedAt: nat,
                         policy: DecisionPolicy): Batch {
    var reference := BucketedTime(evaluatedAt, policy.bucket);
    var traces := Ranked(AllTraces(text, inputs, reference, policy));
    var payload := Payload(policy, ConfigOf(inputs), reference, SortedHashes(hashing.trace, traces));
    Batch(hashing.batch(payload), reference, policy, ConfigOf(inputs), traces)
  }

  /** What the batch's key is the hash of. */
  function PayloadOf(hashing: Hashing, x: Batch): Payload {
    Payload(x.policy, x.scoringConfig, x.evaluatedAt, SortedHashes(hashing.trace, x.traces))
  }

  predicate Belongs(input: MatchScoringInput) {
    input.candidates.opportunityId == input.opportunity.id && DistinctListedIds(input.profiles)
  }

  /** Every input belongs to its own opportunity and no opportunity comes twice. */
  ghost predicate Fresh(inputs: seq<MatchScoringInput>, seen: set<nat>) {
    && (forall i :: 0 <= i < |inputs| ==> Belongs(inputs[i]) && inputs[i].opportunity.id !in seen)
    && (forall i, j :: 0 <= i < j < |inputs| ==> inputs[i].opportunity.id != inputs[j].opportunity.id)
  }

  ghost predicate WellFormed(inputs: seq<MatchScoringInput>) {
    Fresh(inputs, {}) && OneConfig(inputs)
  }

  lemma FreshSplit(inputs: seq<MatchScoringInput>, seen: set<nat>)
    requires inputs != []
    ensures Fresh(inputs, seen) <==> Belongs(inputs[0]) && inputs[0].opportunity.id !in seen
                                     && Fresh(inputs[1..], seen + {inputs[0].opportunity.id})
  {
    hide Belongs;
    var rest := inputs[1..];
    assert forall i :: 0 <= i < |rest| ==> rest[i] == inputs[i + 1];
    assert forall i :: 0 < i < |inputs| ==> inputs[i] == rest[i - 1];
  }

  /** An input list is rejected exactly when it is not fresh. */
  lemma {:induction false} NoRejection(inputs: seq<MatchScoringInput>, seen: set<nat>)
    ensures FirstRejection(inputs, seen).None? <==> Fresh(inputs, seen)
  {
    if inputs != [] {
      FreshSplit(inputs, seen);
      NoRejection(inputs[1..], seen + {inputs[0].opportunity.id});
    }
  }

  lemma {:induction false} AllTracesAppend(text: Text, a: seq<MatchScoringInput>, b: seq<MatchScoringInput>,
                                           reference: nat, policy: DecisionPolicy)
    ensures AllTraces(text, a + b, reference, policy)
            == AllTraces(text, a, reference, policy) + AllTraces(text, b, reference, policy)
  {
    hide OpportunityTraces;
    if a == [] {
      assert a + b == b;
    } else {
      assert (a + b)[0] == a[0] && (a + b)[1..] == a[1..] + b;
      AllTracesAppend(text, a[1..], b, reference, policy);
    }
  }

  lemma {:induction false} TraceOrigin(text: Text, inputs: seq<MatchScoringInput>, reference: nat,
                                       policy: DecisionPolicy, t: Trace)
    requires t in AllTraces(text, inputs, reference, policy)
    ensures exists i :: 0 <= i < |inputs| && t.opportunityId == inputs[i].opportunity.id
  {
    hide ProfileTrace;
    if t in OpportunityTraces(text, inputs[0], reference, policy) {
      OpportunityTraceIds(text, inputs[0], reference, policy);
    } else {
      TraceOrigin(text, inputs[1..], reference, policy, t);
      var i :| 0 <= i < |inputs[1..]| && t.opportunityId == inputs[1..][i].opportunity.id;
      assert inputs[1..][i] == inputs[i + 1];
    }
  }

  lemma OpportunityTraceIds(text: Text, input: MatchScoringInput, reference: nat, policy: DecisionPolicy)
    ensures var ts := OpportunityTraces(text, input, reference, policy);
            && (forall t :: t in ts ==> t.opportunityId == input.opportunity.id)
            && (DistinctListedIds(input.profiles) ==> DistinctPairs(ts))
  {
    hide Decide, Judge;
    var ts := OpportunityTraces(text, input, reference, policy);
    var ps := Filter(input.profiles, Listed);
    assert forall i :: 0 <= i < |ts| ==> ts[i].opportunityId == input.opportunity.id && ts[i].profileId == ps[i].id;
  }

  lemma DistinctPairsConcat(a: seq<Trace>, b: seq<Trace>)
    requires DistinctPairs(a) && DistinctPairs(b)
    requires forall t, u :: t in a && u in b ==> t.opportunityId != u.opportunityId
    ensures DistinctPairs(a + b)
  {
    var c := a + b;
    forall i, j | 0 <= i < j < |c|
      ensures (c[i].opportunityId, c[i].profileId) != (c[j].opportunityId, c[j].profileId)
    {
      if i < |a| <= j {
        assert a[i] in a && b[j - |a|] in b;
      }
    }
  }

  /** Fresh inputs give one trace for each opportunity and profile. */
  lemma {:induction false} FreshGivesDistinctPairs(text: Text, inputs: seq<MatchScoringInput>, seen: set<nat>,
                                                   reference: nat, policy: DecisionPolicy)
    requires Fresh(inputs, seen)
    ensures DistinctPairs(AllTraces(text, inputs, reference, policy))
  {
    if inputs != [] {
      FreshSplit(inputs, seen);
      FreshGivesDistinctPairs(text, inputs[1..], seen + {inputs[0].opportunity.id}, reference, policy);
      OpportunityTraceIds(text, inputs[0], reference, policy);
      var first := OpportunityTraces(text, inputs[0], reference, policy);
      var rest := AllTraces(text, inputs[1..], reference, policy);
      hide OpportunityTraces, AllTraces;
      forall t, u | t in first && u in rest
        ensures t.opportunityId != u.opportunityId
      {
        TraceOrigin(text, inputs[1..], reference, policy, u);
      }
      DistinctPairsConcat(first, rest);
    }
  }

  ghost function ConfigsOf(inputs: seq<MatchScoringInput>): set<string> {
    set x | x in inputs :: x.scoringConfig
  }

  lemma OneConfigIff(inputs: seq<MatchScoringInput>)
    ensures OneConfig(inputs) <==> |ConfigsOf(inputs)| <= 1
  {
    var cs := ConfigsOf(inputs);
    if inputs != [] {
      var c := inputs[0].scoringConfig;
      assert inputs[0] in inputs && c in cs;
      if OneConfig(inputs) {
        assert cs == {c};
      }
      if |cs| <= 1 {
        assert |cs - {c}| == 0;
        assert cs == {c};
        assert forall i :: 0 <= i < |inputs| ==> inputs[i] in inputs && inputs[i].scoringConfig in cs;
      }
    } else {
      assert cs == {};
    }
  }

  /** Rejects with the first offending input, or returns the batch. */
  method DecideAndRankMatches(text: Text, hashing: Hashing, inputs: seq<MatchScoringInput>, evaluatedAt: nat,
                              policy: DecisionPolicy)
    returns (r: Result<Batch, DecisionError>)
    ensures FirstRejection(inputs, {}).Some? ==> r == Failure(FirstRejection(inputs, {}).value)
    ensures FirstRejection(inputs, {}).None? && !OneConfig(inputs) ==> r == Failure(MixedScoringPolicies)
    ensures WellFormed(inputs) ==> r == Success(BatchOf(text, hashing, inputs, evaluatedAt, policy))
  {
    hide Belongs, DistinctListedIds, OpportunityTraces, Ranked, ConfigsOf, OneConfig, DistinctPairs, PlaceOf, Placer,
         Map;
    NoRejection(inputs, {});
    var reference := BucketedTime(evaluatedAt, policy.bucket);
    var traces: seq<Trace> := [];
    var seen: set<nat> := {};
    var configs: set<string> := {};
    assert inputs[0..] == inputs && inputs[..0] == [];
    NoConfigs();
    for i := 0 to |inputs|
      invariant traces == AllTraces(text, inputs[..i], reference, policy)
      invariant FirstRejection(inputs, {}) == FirstRejection(inputs[i..], seen)
      invariant configs == ConfigsOf(inputs[..i])
    {
      var input := inputs[i];
      assert inputs[i..][0] == input && inputs[i..][1..] == inputs[i + 1..];
      if input.opportunity.id in seen {
        return Failure(DuplicateOpportunity(input.opportunity.id));
      }
      seen := seen + {input.opportunity.id};
      if input.candidates.opportunityId != input.opportunity.id {
        return Failure(ForeignSemanticResult(input.opportunity.id));
      }
      configs := configs + {input.scoringConfig};
      if !DistinctListedIds(input.profiles) {
        return Failure(DuplicateProfile(input.opportunity.id));
      }
      traces := traces + OpportunityTraces(text, input, reference, policy);
      assert inputs[..i + 1] == inputs[..i] + [input];
      AllTracesAppend(text, inputs[..i], [input], reference, policy);
      OneTrace(text, input, reference, policy);
      ConfigsPush(inputs[..i], input);
    }
    assert inputs[..|inputs|] == inputs && inputs[|inputs|..] == [];
    FreshGivesDistinctPairs(text, inputs, {}, reference, policy);
    var ranked := RankEligible(traces);
    PlacedIsRanked(traces);
    OneConfigIff(inputs);
    if |configs| > 1 {
      return Failure(MixedScoringPolicies);
    }
    var payload := Payload(policy, ConfigOf(inputs), reference, SortedHashes(hashing.trace, ranked));
    r := Success(Batch(hashing.batch(payload), reference, policy, ConfigOf(inputs), ranked));
  }

  lemma NoConfigs()
    ensures ConfigsOf([]) == {}
  {
  }

  lemma ConfigsPush(inputs: seq<MatchScoringInput>, input: MatchScoringInput)
    ensures ConfigsOf(inputs + [input]) == ConfigsOf(inputs) + {input.scoringConfig}
  {
    assert forall x :: x in inputs + [input] <==> x in inputs || x == input;
    assert input in inputs + [input];
  }

  lemma OneTrace(text: Text, input: MatchScoringInput, reference: nat, policy: DecisionPolicy)
    ensures AllTraces(text, [input], reference, policy) == OpportunityTraces(text, input, reference, policy)
  {
    hide OpportunityTraces;
    assert [input][1..] == [];
    assert AllTraces(text, [], reference, policy) == [];
  }

  // --- independence of input order --------------------------------------------

  lemma AllTracesRemove(text: Text, s: seq<MatchScoringInput>, j: int, reference: nat, policy: DecisionPolicy)
    requires 0 <= j < |s|
    ensures multiset(AllTraces(text, s, reference, policy))
         == multiset(OpportunityTraces(text, s[j], reference, policy))
            + multiset(AllTraces(text, s[..j] + s[j + 1..], reference, policy))
  {
    AllTracesHead(text, s[j..], reference, policy);
    assert s[j..][1..] == s[j + 1..] && s == s[..j] + s[j..];
    hide *;
    AllTracesAppend(text, s[..j], s[j..], reference, policy);
    AllTracesAppend(text, s[..j], s[j + 1..], reference, policy);
  }

  lemma AllTracesHead(text: Text, s: seq<MatchScoringInput>, reference: nat, policy: DecisionPolicy)
    requires s != []
    ensures AllTraces(text, s, reference, policy)
         == OpportunityTraces(text, s[0], reference, policy) + AllTraces(text, s[1..], reference, policy)
  {
    hide OpportunityTraces;
  }

  lemma {:induction false} AllTracesPermutation(text: Text, a: seq<MatchScoringInput>, b: seq<MatchScoringInput>,
                                                reference: nat, policy: DecisionPolicy)
    requires multiset(a) == multiset(b)
    ensures multiset(AllTraces(text, a, reference, policy)) == multiset(AllTraces(text, b, reference, policy))
  {
    hide OpportunityTraces, AllTraces;
    if a == [] {
      PermutationMembers(a, b);
      assert a == b;
    } else {
      var j := MatchHead(a, b);
      var rest := b[..j] + b[j + 1..];
      assert a[..0] + a[1..] == a[1..];
      AllTracesPermutation(text, a[1..], rest, reference, policy);
      AllTracesRemove(text, a, 0, reference, policy);
      AllTracesRemove(text, b, j, reference, policy);
    }
  }

  lemma RankOfPermutation(a: seq<Trace>, b: seq<Trace>, t: Trace)
    requires multiset(a) == multiset(b)
    ensures RankOf(a, t) == RankOf(b, t)
  {
    PermutationMembers(a, b);
    assert AheadOf(a, t) == AheadOf(b, t);
  }

  lemma RankedPermutation(a: seq<Trace>, b: seq<Trace>)
    requires multiset(a) == multiset(b)
    ensures multiset(Ranked(a)) == multiset(Ranked(b))
  {
    forall t: Trace
      ensures Ranker(a)(t) == Ranker(b)(t)
    {
      RankOfPermutation(a, b, t);
    }
    MapPermutation(Ranker(a), Ranker(b), a, b);
  }

  lemma SortedHashesPermutation(hash: Trace -> int, a: seq<Trace>, b: seq<Trace>)
    requires multiset(a) == multiset(b)
    ensures SortedHashes(hash, a) == SortedHashes(hash, b)
  {
    MapPermutation(hash, hash, a, b);
    SortPermutation(Map(hash, a), Map(hash, b), IntLe);
  }

  lemma FreshPermutation(a: seq<MatchScoringInput>, b: seq<MatchScoringInput>)
    requires multiset(a) == multiset(b) && WellFormed(a)
    ensures WellFormed(b) && ConfigOf(a) == ConfigOf(b)
  {
    hide Belongs;
    var id := (x: MatchScoringInput) => x.opportunity.id as int;
    PermutationMembers(a, b);
    MapPermutation(id, id, a, b);
    PermutationMembers(Map(id, a), Map(id, b));
    forall i, j | 0 <= i < j < |Map(id, a)|
      ensures Map(id, a)[i] != Map(id, a)[j]
    {
      assert a[i].opportunity.id != a[j].opportunity.id;
    }
    assert NoDup(Map(id, b));
    forall i, j | 0 <= i < j < |b|
      ensures b[i].opportunity.id != b[j].opportunity.id
    {
      assert Map(id, b)[i] != Map(id, b)[j];
    }
    forall i | 0 <= i < |b|
      ensures Belongs(b[i])
      ensures exists k :: 0 <= k < |a| && a[k] == b[i]
    {
      assert b[i] in a;
    }
    forall i, j | 0 <= i < |b| && 0 <= j < |b|
      ensures b[i].scoringConfig == b[j].scoringConfig
    {
      var p :| 0 <= p < |a| && a[p] == b[i];
      var q :| 0 <= q < |a| && a[q] == b[j];
    }
    if a != [] {
      var p :| 0 <= p < |a| && a[p] == b[0];
    }
  }

  /** Permuting the scoring inputs gives the same idempotency key and the same traces. */
  lemma PermutedInputsSameBatch(text: Text, hashing: Hashing, a: seq<MatchScoringInput>, b: seq<MatchScoringInput>,
                                evaluatedAt: nat, policy: DecisionPolicy)
    requires multiset(a) == multiset(b)
    ensures WellFormed(a) <==> WellFormed(b)
    ensures WellFormed(a) ==>
              var x := BatchOf(text, hashing, a, evaluatedAt, policy);
              var y := BatchOf(text, hashing, b, evaluatedAt, policy);
              x.key == y.key && multiset(x.traces) == multiset(y.traces)
  {
    if WellFormed(b) {
      FreshPermutation(b, a);
    }
    if WellFormed(a) {
      FreshPermutation(a, b);
      var reference := BucketedTime(evaluatedAt, policy.bucket);
      AllTracesPermutation(text, a, b, reference, policy);
      var s, t := AllTraces(text, a, reference, policy), AllTraces(text, b, reference, policy);
      RankedPermutation(s, t);
      hide AllTraces, Ranked, SortedHashes;
      SortedHashesPermutation(hashing.trace, Ranked(s), Ranked(t));
    }
  }

  /** Hashing tells apart the traces and the payloads of these two batches. */
  ghost predicate TellsApart(hashing: Hashing, x: Batch, y: Batch) {
    var all := x.traces + y.traces;
    && (forall u, v :: u in all && v in all && hashing.trace(u) == hashing.trace(v) ==> u == v)
    && (hashing.batch(PayloadOf(hashing, x)) == hashing.batch(PayloadOf(hashing, y))
        ==> PayloadOf(hashing, x) == PayloadOf(hashing, y))
  }

  ghost predicate SameContent(x: Batch, y: Batch) {
    && x.policy == y.policy && x.evaluatedAt == y.evaluatedAt && x.scoringConfig == y.scoringConfig
    && multiset(x.traces) == multiset(y.traces)
  }

  /** Unless a hash collides on what the two batches hold, their keys are equal exactly when policy,
      bucket, scoring configuration and traces are. */
  lemma KeyIdentifiesContent(text: Text, hashing: Hashing, a: seq<MatchScoringInput>, b: seq<MatchScoringInput>,
                             s: nat, t: nat, policy: DecisionPolicy, policy': DecisionPolicy)
    requires TellsApart(hashing, BatchOf(text, hashing, a, s, policy), BatchOf(text, hashing, b, t, policy'))
    ensures var x, y := BatchOf(text, hashing, a, s, policy), BatchOf(text, hashing, b, t, policy');
            x.key == y.key <==> SameContent(x, y)
  {
    var x, y := BatchOf(text, hashing, a, s, policy), BatchOf(text, hashing, b, t, policy');
    assert x.key == hashing.batch(PayloadOf(hashing, x)) && y.key == hashing.batch(PayloadOf(hashing, y));
    hide BatchOf, SortedHashes;
    if x.key == y.key {
      SameHashesSameTraces(hashing.trace, x.traces, y.traces);
    } else if SameContent(x, y) {
      SortedHashesPermutation(hashing.trace, x.traces, y.traces);
    }
  }

  /** Without a collision among them, lists of traces with the same sorted hashes are permutations. */
  lemma SameHashesSameTraces(hash: Trace -> int, a: seq<Trace>, b: seq<Trace>)
    requires SortedHashes(hash, a) == SortedHashes(hash, b)
    requires forall u, v :: u in a + b && v in a + b && hash(u) == hash(v) ==> u == v
    ensures multiset(a) == multiset(b)
  {
    assert multiset(Map(hash, a)) == multiset(Map(hash, b));
    hide SortedHashes;
    forall u: Trace
      ensures multiset(a)[u] == multiset(b)[u]
    {
      if u in a + b {
        ImageCount(hash, a, a + b, u);
        ImageCount(hash, b, a + b, u);
      }
    }
  }
}
