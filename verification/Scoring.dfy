/** Structured scoring of a candidate that passed the hard filters. */
module Scoring {
  import opened Decimals
  import opened Sequences
  import opened LexicalMatching
  import opened Matching

  /** Weights and penalties in units of 1/(10000 * scale); scale 1 means multiples of 0.0001. */
  datatype PolicyFields = PolicyFields(
    scale: int,
    role: int, skills: int, category: int, workType: int, budget: int, preferences: int,
    relevance: int, opportunityQuality: int, sourceQuality: int,
    redFlagPenalty: int, maximumRedFlagPenalty: int)
  {
    function RelevanceWeights(): seq<int> { [role, skills, category, workType, budget, preferences] }

    function AggregateWeights(): seq<int> { [relevance, opportunityQuality, sourceQuality] }

    function Unit(): int { ONE * scale }
  }

  predicate ValidPolicy(p: PolicyFields) {
    && p.scale > 0
    && Sum(p.RelevanceWeights()) == p.Unit()
    && Sum(p.AggregateWeights()) == p.Unit()
    && (forall w :: w in p.RelevanceWeights() ==> 0 <= w <= p.Unit())
    && (forall w :: w in p.AggregateWeights() ==> 0 <= w <= p.Unit())
    && p.redFlagPenalty >= 0
    && 0 <= p.maximumRedFlagPenalty <= p.Unit()
  }

  const DEFAULT_POLICY: PolicyFields :=
    PolicyFields(1, 3000, 3500, 1500, 800, 700, 500, 7500, 1500, 1000, 800, 3200)

  type Policy = p: PolicyFields | ValidPolicy(p)
    witness DEFAULT_POLICY

  // --- one component ---------------------------------------------------------

  datatype Component = Component(score: Option<int>, weight: int, contribution: int)

  /** A score clamped to [0, 1] and quantized. */
  function Normalized(score: Ratio): (r: int)
    requires score.Valid()
    ensures 0 <= r <= ONE
  {
    RoundWithinUnit(Clamp(score.num, score.den) * ONE, score.den);
    Ratio(Clamp(score.num, score.den), score.den).Quantize()
  }

  function ScoreComponent(score: Option<Ratio>, weight: int, scale: int): Component
    requires scale > 0 && (score.Some? ==> score.value.Valid())
  {
    if score.None? then Component(None, weight, 0)
    else
      var s := Normalized(score.value);
      Component(Some(s), weight, RoundHalfEven(s * weight, ONE * scale))
  }

  lemma NormalizedFourPlaces(s: int)
    requires 0 <= s <= ONE
    ensures Normalized(Ratio(s, ONE)) == s
  {
    RoundExact(s, ONE);
  }

  // --- component scores ------------------------------------------------------

  const ROLE_FAMILY_CONCEPTS: set<string> := {
    "develop", "developer", "engine", "engineer", "program", "programmer", "cod", "coder",
    "разработчик", "разрабочик", "программист",
    "инженер", "специалист", "specialist"
  }

  const GENERIC_SKILL_CONCEPTS: set<string> := ROLE_FAMILY_CONCEPTS + {
    "work", "project", "service", "skill", "experience", "backend", "full", "stack"
  }

  function MaxSimilarity(lex: Lexicon, name: string, others: seq<string>): int {
    if others == [] then 0
    else Max(LabelSimilarity(lex, name, others[0]), MaxSimilarity(lex, name, others[1..]))
  }

  lemma {:induction false} MaxSimilarityRange(lex: Lexicon, name: string, others: seq<string>)
    ensures 0 <= MaxSimilarity(lex, name, others) <= ONE
    ensures name in others ==> MaxSimilarity(lex, name, others) == ONE
  {
    if others != [] {
      SimilarityRange(lex, name, others[0]);
      MaxSimilarityRange(lex, name, others[1..]);
    }
  }

  predicate InRoleFamily(lex: Lexicon, role: string) {
    lex.concepts(role) * ROLE_FAMILY_CONCEPTS != {}
  }

  predicate RoleFamilyCompatible(lex: Lexicon, role: string, profileRoles: seq<string>) {
    InRoleFamily(lex, role) && exists r | r in profileRoles :: InRoleFamily(lex, r)
  }

  predicate NamesSpecificSkill(lex: Lexicon, skill: string) {
    exists c | c in lex.concepts(skill) :: c !in GENERIC_SKILL_CONCEPTS
  }

  function OpportunitySkills(text: Text, a: Analysis): seq<string> {
    Identities(text, Somes(a.skills))
  }

  predicate HasSpecificSkillOverlap(text: Text, a: Analysis, p: Profile) {
    var skills := OpportunitySkills(text, a);
    skills != [] && p.skills != [] &&
    exists e | e in LabelMatching(text.lexicon, skills, p.skills) ::
      e.weight >= 7500 && NamesSpecificSkill(text.lexicon, e.left) && NamesSpecificSkill(text.lexicon, e.right)
  }

  predicate RoleSupportsSkillOverlap(text: Text, a: Analysis, p: Profile) {
    var role := OptionalIdentity(text, a.roleTitle);
    role.Some? && p.roles != [] &&
    ((exists r | r in p.roles :: LabelSimilarity(text.lexicon, role.value, r) > 0)
     || RoleFamilyCompatible(text.lexicon, role.value, p.roles))
  }

  function RoleScore(text: Text, a: Analysis, p: Profile): Option<int> {
    var role := OptionalIdentity(text, a.roleTitle);
    if role.None? || p.roles == [] then None
    else
      var score := MaxSimilarity(text.lexicon, role.value, p.roles);
      if score == 0 && RoleFamilyCompatible(text.lexicon, role.value, p.roles) && HasSpecificSkillOverlap(text, a, p)
      then Some(6000) else Some(score)
  }

  function SkillsScore(text: Text, a: Analysis, p: Profile): Option<int> {
    var skills := OpportunitySkills(text, a);
    if skills == [] || p.skills == [] then None
    else
      var score := LabelsF1(text.lexicon, skills, p.skills).0;
      if score < 5000 && HasSpecificSkillOverlap(text, a, p) && RoleSupportsSkillOverlap(text, a, p)
      then Some(5000) else Some(score)
  }

  function CategoryScore(text: Text, a: Analysis, p: Profile): Option<int> {
    var category := OptionalIdentity(text, a.category);
    if category.None? || p.categories == [] then None
    else Some(MaxSimilarity(text.lexicon, category.value, p.categories))
  }

  function OneIf(b: bool): int { if b then ONE else 0 }

  function WorkTypeScore(a: Analysis, p: Profile): Option<int> {
    var t, accepted := ProfileType(a.opportunityType), p.preferences.workTypes;
    if a.opportunityType.UnknownA? || accepted.None? then None
    else if t.None? then Some(0)
    else Some(OneIf(t.value in accepted.value))
  }

  function BudgetScore(text: Text, a: Analysis, p: Profile): Option<int> {
    var b, prefs := a.budget, p.preferences;
    if prefs.minimumBudget.None? then None
    else if !b.known then Some(if b.explicit then 7500 else 5000)
    else if !SameCurrency(text, b, prefs) then None
    else Some(OneIf(MaximumBudget(b) >= prefs.minimumBudget.value))
  }

  /** 1 or 0 for each comparable preference, in the order language, geography, work mode. */
  function PreferenceScores(text: Text, a: Analysis, p: Profile): seq<int> {
    var prefs := p.preferences;
    TermScore(text, a.language, prefs.languages) + TermScore(text, a.location, prefs.geographies)
    + if WorkModeOf(a).Some? && prefs.workModes.Some? then [OneIf(WorkModeOf(a).value in prefs.workModes.value)] else []
  }

  function TermScore(text: Text, value: Option<string>, terms: Option<seq<string>>): seq<int> {
    var identity := OptionalIdentity(text, value);
    if identity.None? || terms.None? then [] else [OneIf(identity.value in terms.value)]
  }

  function PreferencesScore(text: Text, a: Analysis, p: Profile): (r: Option<Ratio>)
    ensures r.Some? ==> r.value.Valid()
  {
    var scores := PreferenceScores(text, a, p);
    if scores == [] then None else Some(Ratio(Sum(scores), ONE * |scores|))
  }

  method PreferencesComponent(text: Text, a: Analysis, p: Profile, weight: int, scale: int) returns (c: Component)
    requires scale > 0
    ensures c == ScoreComponent(PreferencesScore(text, a, p), weight, scale)
  {
    var scores: seq<int> := [];
    var constraints := [(a.language, p.preferences.languages), (a.location, p.preferences.geographies)];
    for i := 0 to 2
      invariant i == 0 ==> scores == []
      invariant i == 1 ==> scores == TermScore(text, a.language, p.preferences.languages)
      invariant i == 2 ==> scores == TermScore(text, a.language, p.preferences.languages)
                                     + TermScore(text, a.location, p.preferences.geographies)
    {
      var (value, terms) := constraints[i];
      var identity := OptionalIdentity(text, value);
      if identity.None? || terms.None? {
        continue;
      }
      scores := scores + [OneIf(identity.value in terms.value)];
    }
    var workMode := WorkModeOf(a);
    if workMode.Some? && p.preferences.workModes.Some? {
      scores := scores + [OneIf(workMode.value in p.preferences.workModes.value)];
    }
    assert scores == PreferenceScores(text, a, p);
    c := if scores == [] then ScoreComponent(None, weight, scale)
         else ScoreComponent(Some(Ratio(Sum(scores), ONE * |scores|)), weight, scale);
  }

  function FourPlaces(score: Option<int>): (r: Option<Ratio>)
    ensures r.Some? ==> r.value.Valid()
  {
    if score.None? then None else Some(Ratio(score.value, ONE))
  }

  function Components(text: Text, a: Analysis, p: Profile, policy: Policy): seq<Component> {
    [ScoreComponent(FourPlaces(RoleScore(text, a, p)), policy.role, policy.scale),
     ScoreComponent(FourPlaces(SkillsScore(text, a, p)), policy.skills, policy.scale),
     ScoreComponent(FourPlaces(CategoryScore(text, a, p)), policy.category, policy.scale),
     ScoreComponent(FourPlaces(WorkTypeScore(a, p)), policy.workType, policy.scale),
     ScoreComponent(FourPlaces(BudgetScore(text, a, p)), policy.budget, policy.scale),
     ScoreComponent(PreferencesScore(text, a, p), policy.preferences, policy.scale)]
  }

  // --- aggregate -------------------------------------------------------------

  /** Quality ratings in [0, 1], in units of 1/(10000 * scale). */
  datatype QualityFields = QualityFields(scale: int, actionability: int, plausibility: int, specificity: int,
                                         credibility: int)

  type Quality = q: QualityFields |
    q.scale > 0 &&
    (forall v :: v in [q.actionability, q.plausibility, q.specificity, q.credibility] ==> 0 <= v <= ONE * q.scale)
    witness QualityFields(1, 0, 0, 0, 0)

  /** A source audit's ratios, stored with seven places. */
  datatype SourceSnapshot = SourceSnapshot(opportunityYield: int, buyerIntent: int, seller: int, spam: int,
                                           duplicate: int)

  function OpportunityQualityScore(q: Quality): (r: int)
    ensures 0 <= r <= ONE
  {
    var total := q.actionability + q.plausibility + q.specificity + q.credibility;
    assert forall v :: v in [q.actionability, q.plausibility, q.specificity, q.credibility] ==> 0 <= v <= ONE * q.scale;
    assert q.actionability in [q.actionability, q.plausibility, q.specificity, q.credibility];
    RoundWithinUnit(total, 4 * q.scale);
    RoundHalfEven(total, 4 * q.scale)
  }

  /** 1 in units of 0.000000001, where 0.60 * ratio and 0.40 * ratio are exact. */
  const NANO: int := 1_000_000_000

  /** clamp(positive * (1 - negative)), quantized. */
  function SourceQualityScore(s: SourceSnapshot): (r: int)
    ensures 0 <= r <= ONE
  {
    var positive := 60 * s.opportunityYield + 40 * s.buyerIntent;
    var negative := 40 * s.seller + 40 * s.spam + 20 * s.duplicate;
    Normalized(Ratio(positive * (NANO - negative), NANO * NANO))
  }

  function Contributions(cs: seq<Component>): int {
    if cs == [] then 0 else cs[0].contribution + Contributions(cs[1..])
  }

  function Penalty(policy: Policy, redFlags: nat): int {
    RoundHalfEven(Min(policy.maximumRedFlagPenalty, policy.redFlagPenalty * redFlags), policy.scale)
  }

  /** relevance * w1 + quality * w2 + source quality * w3, in units of 1/(10000 * Unit()). */
  function Aggregate(policy: Policy, relevance: int, quality: int, source: Option<int>): int {
    relevance * policy.relevance + quality * policy.opportunityQuality
    + if source.Some? then source.value * policy.sourceQuality else 0
  }

  function StructuredScoreOf(policy: Policy, relevance: int, quality: int, source: Option<int>, redFlags: nat): int {
    RoundHalfEven(Max(0, Aggregate(policy, relevance, quality, source) - Penalty(policy, redFlags) * policy.Unit()),
                  policy.Unit())
  }

  datatype StructuredScore = StructuredScore(
    components: seq<Component>, relevance: int, quality: int, sourceQuality: Option<int>,
    penalty: int, structured: int)

  /** The score, or the failed decision when the candidate does not pass the hard filters. */
  function ScoreCandidate(text: Text, o: Opportunity, p: Profile, q: Quality, source: Option<SourceSnapshot>,
                          policy: Policy): Result<StructuredScore, HardFilterDecision> {
    if !Decide(text, o, p).eligible then Failure(Decide(text, o, p))
    else
      var components := Components(text, o.analysis, p, policy);
      var relevance := RoundHalfEven(Contributions(components), 1);
      var quality := OpportunityQualityScore(q);
      var sourceQuality := if source.None? then None else Some(SourceQualityScore(source.value));
      Success(StructuredScore(
        components, relevance, quality, sourceQuality, Penalty(policy, |o.analysis.redFlags|),
        StructuredScoreOf(policy, relevance, quality, sourceQuality, |o.analysis.redFlags|)))
  }

  // --- accuracy and range ----------------------------------------------------

  ghost predicate WeighedOne(c: Component, weight: int, scale: int)
    requires scale > 0
  {
    && c.weight == weight >= 0
    && (c.score.None? ==> c.contribution == 0)
    && (c.score.Some? ==>
          0 <= c.score.value <= ONE && c.contribution == RoundHalfEven(c.score.value * weight, ONE * scale))
  }

  /** Components as a policy weighs them. */
  ghost predicate Weighed(cs: seq<Component>, weights: seq<int>, scale: int) {
    scale > 0 && |cs| == |weights| && forall i :: 0 <= i < |cs| ==> WeighedOne(cs[i], weights[i], scale)
  }

  lemma ScoreComponentWeighed(score: Option<Ratio>, weight: int, scale: int)
    requires scale > 0 && weight >= 0 && (score.Some? ==> score.value.Valid())
    ensures WeighedOne(ScoreComponent(score, weight, scale), weight, scale)
  {
  }

  lemma ComponentsWeighed(text: Text, a: Analysis, p: Profile, policy: Policy)
    ensures Weighed(Components(text, a, p, policy), policy.RelevanceWeights(), policy.scale)
  {
    hide RoleScore, SkillsScore, CategoryScore, WorkTypeScore, BudgetScore, PreferencesScore, FourPlaces;
    var ws := policy.RelevanceWeights();
    assert ws[0] in ws && ws[1] in ws && ws[2] in ws && ws[3] in ws && ws[4] in ws && ws[5] in ws;
    ScoreComponentWeighed(FourPlaces(RoleScore(text, a, p)), policy.role, policy.scale);
    ScoreComponentWeighed(FourPlaces(SkillsScore(text, a, p)), policy.skills, policy.scale);
    ScoreComponentWeighed(FourPlaces(CategoryScore(text, a, p)), policy.category, policy.scale);
    ScoreComponentWeighed(FourPlaces(WorkTypeScore(a, p)), policy.workType, policy.scale);
    ScoreComponentWeighed(FourPlaces(BudgetScore(text, a, p)), policy.budget, policy.scale);
    ScoreComponentWeighed(PreferencesScore(text, a, p), policy.preferences, policy.scale);
    hide WeighedOne, ScoreComponent;
  }

  /** The exact weighted sum of component scores, an absent component counting nothing. */
  ghost function WeightedSum(cs: seq<Component>): int {
    if cs == [] then 0
    else (if cs[0].score.Some? then cs[0].score.value * cs[0].weight else 0) + WeightedSum(cs[1..])
  }

  lemma {:induction false} RoundingDrift(cs: seq<Component>, weights: seq<int>, scale: int)
    requires Weighed(cs, weights, scale)
    ensures -(|cs| * (ONE * scale)) <= 2 * (Contributions(cs) * (ONE * scale) - WeightedSum(cs)) <= |cs| * (ONE * scale)
  {
    if cs != [] {
      var unit := ONE * scale;
      RoundingDrift(cs[1..], weights[1..], scale);
      assert (cs[0].contribution + Contributions(cs[1..])) * unit
             == cs[0].contribution * unit + Contributions(cs[1..]) * unit;
      assert |cs| * unit == unit + |cs[1..]| * unit;
    }
  }

  /** Relevance is within 0.0003 of the exact weighted sum of the component scores. */
  lemma RelevanceWithinThreeQuanta(text: Text, o: Opportunity, p: Profile, q: Quality,
                                   source: Option<SourceSnapshot>, policy: Policy)
    requires Acceptable(text, o, p)
    ensures var r := ScoreCandidate(text, o, p, q, source, policy);
            && r.Success?
            && -3 * policy.Unit() <= r.value.relevance * policy.Unit() - WeightedSum(r.value.components)
            && r.value.relevance * policy.Unit() - WeightedSum(r.value.components) <= 3 * policy.Unit()
  {
    EligibleIffAcceptable(text, o, p);
    hide Decide, Acceptable;
    var components := Components(text, o.analysis, p, policy);
    assert |components| == 6;
    ComponentsWeighed(text, o.analysis, p, policy);
    hide Components;
    RoundingDrift(components, policy.RelevanceWeights(), policy.scale);
    RoundExact(Contributions(components), 1);
  }

  /** The relevance a policy gives when every component scores 1. */
  ghost function Ceiling(weights: seq<int>, scale: int): int
    requires scale > 0
  {
    if weights == [] then 0 else RoundHalfEven(weights[0], scale) + Ceiling(weights[1..], scale)
  }

  lemma {:induction false} ContributionsUnderCeiling(cs: seq<Component>, weights: seq<int>, scale: int)
    requires Weighed(cs, weights, scale)
    ensures 0 <= Contributions(cs) <= Ceiling(weights, scale)
    ensures (forall c :: c in cs ==> c.score == Some(ONE)) ==> Contributions(cs) == Ceiling(weights, scale)
  {
    if cs != [] {
      ContributionsUnderCeiling(cs[1..], weights[1..], scale);
      ContributionRange(cs[0], weights[0], scale);
      assert cs[0] in cs;
    }
  }

  lemma ContributionRange(c: Component, w: int, scale: int)
    requires Weighed([c], [w], scale)
    ensures 0 <= c.contribution <= RoundHalfEven(w, scale)
    ensures c.score == Some(ONE) ==> c.contribution == RoundHalfEven(w, scale)
  {
    assert [c][0] == c && [w][0] == w;
    RoundMonotone(0, w, scale);
    RoundExact(0, scale);
    RoundScaled(w, scale, ONE);
    if c.score.Some? {
      var s := c.score.value;
      assert 0 <= s * w <= ONE * w by { MulOrder0(w, s); }
      RoundMonotone(0, s * w, ONE * scale);
      RoundMonotone(s * w, ONE * w, ONE * scale);
      RoundExact(0, ONE * scale);
    }
  }

  lemma MulOrder0(w: int, s: int)
    requires w >= 0 && 0 <= s <= ONE
    ensures 0 <= s * w <= ONE * w
  {
    assert (ONE - s) * w >= 0;
    assert s * w >= 0;
  }

  lemma {:induction false} CeilingOfExactWeights(weights: seq<int>)
    ensures Ceiling(weights, 1) == Sum(weights)
  {
    if weights != [] {
      RoundExact(weights[0], 1);
      CeilingOfExactWeights(weights[1..]);
    }
  }

  lemma SumOfThree(a: int, b: int, c: int)
    ensures Sum([a, b, c]) == a + b + c
  {
    assert [a, b, c][1..] == [b, c];
    assert [b, c][1..] == [c];
    assert Sum([c]) == c;
  }

  lemma AggregateRange(policy: Policy, relevance: int, quality: int, source: Option<int>)
    requires 0 <= relevance <= ONE && 0 <= quality <= ONE && (source.Some? ==> 0 <= source.value <= ONE)
    ensures 0 <= Aggregate(policy, relevance, quality, source) <= ONE * policy.Unit()
  {
    var ws := policy.AggregateWeights();
    assert ws[0] in ws && ws[1] in ws && ws[2] in ws;
    SumOfThree(policy.relevance, policy.opportunityQuality, policy.sourceQuality);
    MulOrder0(policy.relevance, relevance);
    MulOrder0(policy.opportunityQuality, quality);
    if source.Some? {
      MulOrder0(policy.sourceQuality, source.value);
    }
  }

  /** With weights that are multiples of 0.0001, relevance and the structured score stay in [0, 1]. */
  lemma ScoresWithinUnit(text: Text, o: Opportunity, p: Profile, q: Quality,
                         source: Option<SourceSnapshot>, policy: Policy)
    requires Acceptable(text, o, p) && policy.scale == 1
    ensures var r := ScoreCandidate(text, o, p, q, source, policy);
            r.Success? && 0 <= r.value.relevance <= ONE && 0 <= r.value.structured <= ONE
  {
    EligibleIffAcceptable(text, o, p);
    var components := Components(text, o.analysis, p, policy);
    ComponentsWeighed(text, o.analysis, p, policy);
    ContributionsUnderCeiling(components, policy.RelevanceWeights(), 1);
    CeilingOfExactWeights(policy.RelevanceWeights());
    var relevance := Contributions(components);
    RoundExact(relevance, 1);
    var sourceQuality := if source.None? then None else Some(SourceQualityScore(source.value));
    StructuredWithinUnit(policy, relevance, OpportunityQualityScore(q), sourceQuality, |o.analysis.redFlags|);
  }

  /** Whatever the weights, a relevance in [0, 1] gives a structured score in [0, 1]. */
  lemma StructuredWithinUnit(policy: Policy, relevance: int, quality: int, source: Option<int>, redFlags: nat)
    requires 0 <= relevance <= ONE && 0 <= quality <= ONE && (source.Some? ==> 0 <= source.value <= ONE)
    ensures 0 <= StructuredScoreOf(policy, relevance, quality, source, redFlags) <= ONE
  {
    AggregateRange(policy, relevance, quality, source);
    PenaltyMonotone(policy, 0, redFlags);
    RoundExact(0, policy.scale);
    assert Penalty(policy, redFlags) * policy.Unit() >= 0;
    RoundWithinUnit(Max(0, Aggregate(policy, relevance, quality, source) - Penalty(policy, redFlags) * policy.Unit()),
                    policy.Unit());
  }

  lemma MulMonotone(k: int, a: int, b: int)
    requires k >= 0 && a <= b
    ensures k * a <= k * b
  {
    assert k * (b - a) >= 0;
  }

  lemma PenaltyMonotone(policy: Policy, fewer: nat, more: nat)
    requires fewer <= more
    ensures Penalty(policy, fewer) <= Penalty(policy, more)
    ensures Penalty(policy, 0) == 0
  {
    MulMonotone(policy.redFlagPenalty, fewer, more);
    hide RoundHalfEven;
    RoundMonotone(Min(policy.maximumRedFlagPenalty, policy.redFlagPenalty * fewer),
                  Min(policy.maximumRedFlagPenalty, policy.redFlagPenalty * more), policy.scale);
    RoundExact(0, policy.scale);
  }

  lemma StructuredOrder(unit: int, aggregate: int, aggregate': int, penalty: int, penalty': int)
    requires unit > 0 && aggregate' <= aggregate && penalty <= penalty'
    ensures RoundHalfEven(Max(0, aggregate' - penalty' * unit), unit)
         <= RoundHalfEven(Max(0, aggregate - penalty * unit), unit)
  {
    MulOrder(unit, penalty, penalty');
    RoundMonotone(Max(0, aggregate' - penalty' * unit), Max(0, aggregate - penalty * unit), unit);
  }

  /** No source counts as a source of quality 0. */
  function SourceOr0(source: Option<int>): int { if source.None? then 0 else source.value }

  lemma AggregateMonotone(policy: Policy, relevance: int, quality: int, source: Option<int>,
                          relevance': int, quality': int, source': Option<int>)
    requires relevance' <= relevance && quality' <= quality && SourceOr0(source') <= SourceOr0(source)
    ensures Aggregate(policy, relevance', quality', source') <= Aggregate(policy, relevance, quality, source)
  {
    var ws := policy.AggregateWeights();
    assert ws[0] in ws && ws[1] in ws && ws[2] in ws;
    MulMonotone(policy.relevance, relevance', relevance);
    MulMonotone(policy.opportunityQuality, quality', quality);
    MulMonotone(policy.sourceQuality, SourceOr0(source'), SourceOr0(source));
  }

  /** More red flags, or less relevance, quality or source quality, never raise the structured score. */
  lemma StructuredMonotone(policy: Policy, relevance: int, quality: int, source: Option<int>, fewer: nat,
                           relevance': int, quality': int, source': Option<int>, more: nat)
    requires relevance' <= relevance && quality' <= quality && SourceOr0(source') <= SourceOr0(source) && fewer <= more
    ensures StructuredScoreOf(policy, relevance', quality', source', more)
         <= StructuredScoreOf(policy, relevance, quality, source, fewer)
  {
    PenaltyMonotone(policy, fewer, more);
    AggregateMonotone(policy, relevance, quality, source, relevance', quality', source');
    hide RoundHalfEven, Penalty, Aggregate;
    StructuredOrder(policy.Unit(), Aggregate(policy, relevance, quality, source),
                    Aggregate(policy, relevance', quality', source'), Penalty(policy, fewer), Penalty(policy, more));
  }

  function WithFlags(o: Opportunity, flags: seq<string>): Opportunity {
    o.(analysis := o.analysis.(redFlags := flags))
  }

  lemma FiltersIgnoreFlags(text: Text, o: Opportunity, p: Profile, flags: seq<string>)
    ensures Acceptable(text, WithFlags(o, flags), p) == Acceptable(text, o, p)
  {
    forall code: HardFilterCode
      ensures Violates(text, WithFlags(o, flags), p, code) == Violates(text, o, p, code)
    {
    }
  }

  lemma LabelScoresIgnoreFlags(text: Text, o: Opportunity, p: Profile, flags: seq<string>)
    ensures RoleScore(text, WithFlags(o, flags).analysis, p) == RoleScore(text, o.analysis, p)
    ensures SkillsScore(text, WithFlags(o, flags).analysis, p) == SkillsScore(text, o.analysis, p)
    ensures CategoryScore(text, WithFlags(o, flags).analysis, p) == CategoryScore(text, o.analysis, p)
  {
    hide LabelsF1, MaxSimilarity, LabelMatching, Identities, RoleFamilyCompatible;
  }

  lemma TermScoresIgnoreFlags(text: Text, o: Opportunity, p: Profile, flags: seq<string>)
    ensures WorkTypeScore(WithFlags(o, flags).analysis, p) == WorkTypeScore(o.analysis, p)
    ensures BudgetScore(text, WithFlags(o, flags).analysis, p) == BudgetScore(text, o.analysis, p)
    ensures PreferencesScore(text, WithFlags(o, flags).analysis, p) == PreferencesScore(text, o.analysis, p)
  {
    hide Identities, SameCurrency, RoundHalfEven;
  }

  lemma ComponentsIgnoreFlags(text: Text, o: Opportunity, p: Profile, policy: Policy, flags: seq<string>)
    ensures Components(text, WithFlags(o, flags).analysis, p, policy) == Components(text, o.analysis, p, policy)
  {
    LabelScoresIgnoreFlags(text, o, p, flags);
    TermScoresIgnoreFlags(text, o, p, flags);
    hide ScoreComponent, FourPlaces, RoleScore, SkillsScore, CategoryScore, WorkTypeScore, BudgetScore,
         PreferencesScore, WithFlags;
  }

  /** Adding red flags to an opportunity never raises a candidate's structured score. */
  lemma RedFlagsNeverHelp(text: Text, o: Opportunity, p: Profile, q: Quality,
                          source: Option<SourceSnapshot>, policy: Policy, added: seq<string>)
    requires Acceptable(text, o, p)
    ensures var before := ScoreCandidate(text, o, p, q, source, policy);
            var after := ScoreCandidate(text, WithFlags(o, o.analysis.redFlags + added), p, q, source, policy);
            before.Success? && after.Success? && after.value.structured <= before.value.structured
            && after.value.relevance == before.value.relevance
  {
    var flagged := WithFlags(o, o.analysis.redFlags + added);
    FiltersIgnoreFlags(text, o, p, o.analysis.redFlags + added);
    EligibleIffAcceptable(text, o, p);
    EligibleIffAcceptable(text, flagged, p);
    ComponentsIgnoreFlags(text, o, p, policy, o.analysis.redFlags + added);
    hide Decide, Components, Acceptable, StructuredScoreOf, Penalty;
    var relevance := RoundHalfEven(Contributions(Components(text, o.analysis, p, policy)), 1);
    var sourceQuality := if source.None? then None else Some(SourceQualityScore(source.value));
    var quality := OpportunityQualityScore(q);
    StructuredMonotone(policy, relevance, quality, sourceQuality, |o.analysis.redFlags|,
                       relevance, quality, sourceQuality, |flagged.analysis.redFlags|);
  }

  // --- components of candidates that passed the filters -----------------------

  lemma WorkTypeMet(text: Text, o: Opportunity, p: Profile)
    requires Acceptable(text, o, p)
    ensures WorkTypeScore(o.analysis, p) in {None, Some(ONE)}
  {
    assert !Violates(text, o, p, WorkTypeMismatch);
  }

  /** A minimum is set, the budget is unknown and the profile requires an explicit one. */
  ghost predicate NeedsExplicitBudget(o: Opportunity, p: Profile) {
    p.preferences.minimumBudget.Some? && !o.analysis.budget.known && p.preferences.budgetPolicy == Some(RequireExplicit)
  }

  lemma BudgetMet(text: Text, o: Opportunity, p: Profile)
    requires Acceptable(text, o, p)
    ensures BudgetScore(text, o.analysis, p) in {None, Some(ONE), Some(7500), Some(5000)}
    ensures NeedsExplicitBudget(o, p) ==> BudgetScore(text, o.analysis, p) == Some(7500)
  {
    assert !Violates(text, o, p, BudgetBelowMinimum);
    assert !Violates(text, o, p, BudgetNotExplicit);
  }

  lemma FourPlacesKept(score: Option<int>, weight: int, scale: int)
    requires scale > 0 && (score.Some? ==> 0 <= score.value <= ONE)
    ensures ScoreComponent(FourPlaces(score), weight, scale).score == score
  {
    if score.Some? {
      NormalizedFourPlaces(score.value);
    }
  }

  /** Past the hard filters, work type and preferences carry no partial credit. */
  lemma FilteredComponents(text: Text, o: Opportunity, p: Profile, policy: Policy)
    requires Acceptable(text, o, p)
    ensures var cs := Components(text, o.analysis, p, policy);
            && cs[3].score in {None, Some(ONE)}
            && cs[4].score in {None, Some(ONE), Some(7500), Some(5000)}
            && cs[5].score in {None, Some(ONE)}
            && (NeedsExplicitBudget(o, p) ==> cs[4].score == Some(7500))
  {
    WorkTypeMet(text, o, p);
    BudgetMet(text, o, p);
    PreferencesAllMet(text, o, p);
    FourPlacesKept(WorkTypeScore(o.analysis, p), policy.workType, policy.scale);
    FourPlacesKept(BudgetScore(text, o.analysis, p), policy.budget, policy.scale);
    hide WorkTypeScore, BudgetScore, PreferencesScore, Acceptable, RoleScore, SkillsScore, CategoryScore, FourPlaces,
         Normalized;
  }

  lemma PreferencesAllMet(text: Text, o: Opportunity, p: Profile)
    requires Acceptable(text, o, p)
    ensures var r := PreferencesScore(text, o.analysis, p);
            r.Some? ==> Normalized(r.value) == ONE
  {
    assert !Violates(text, o, p, LanguageMismatch);
    assert !Violates(text, o, p, GeographyMismatch);
    assert !Violates(text, o, p, WorkModeMismatch);
    var scores := PreferenceScores(text, o.analysis, p);
    AllOnes(scores);
    if scores != [] {
      RoundExact(ONE, ONE * |scores|);
    }
  }

  lemma {:induction false} AllOnes(scores: seq<int>)
    requires forall s :: s in scores ==> s == ONE
    ensures Sum(scores) == ONE * |scores|
  {
    if scores != [] {
      assert scores[0] in scores && forall s :: s in scores[1..] ==> s in scores;
      AllOnes(scores[1..]);
    }
  }
}
