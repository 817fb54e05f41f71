/** How far relevance and the structured score can go: the policies that keep them in [0, 1]
    for every candidate, and one that does not. */
module ScoreBounds {
  import opened Decimals
  import opened Sequences
  import opened LexicalMatching
  import opened Matching
  import opened Scoring

  // --- a perfect candidate -----------------------------------------------------------

  /** Everything an opportunity can name, it names as `name`. */
  function PerfectOpportunity(name: string): Opportunity {
    var budget: Budget := BudgetFields(true, Some(1.0), Some(1.0), Some("USD"), true);
    Opportunity(0, Active, 0,
                Analysis(ProjectA, Some(name), Some(name), [name], budget, Some(true), Some(name), Some(name), []))
  }

  /** A profile that asks for exactly that. */
  function PerfectProfile(text: Text, name: string): Profile {
    var n := text.identity(name);
    var wishes: Preferences :=
      PreferenceFields(Some([Project]), Some(1.0), Some(text.upper("USD")), Some(RequireExplicit),
                       Some([n]), Some([n]), Some([Remote]), None);
    Profile(0, true, true, [n], [n], [n], wishes)
  }

  const PERFECT_QUALITY: Quality := QualityFields(1, ONE, ONE, ONE, ONE)

  const PERFECT_SOURCE: SourceSnapshot := SourceSnapshot(10_000_000, 10_000_000, 0, 0, 0)

  lemma PerfectIsAcceptable(text: Text, name: string)
    ensures Acceptable(text, PerfectOpportunity(name), PerfectProfile(text, name))
  {
    forall code: HardFilterCode
      ensures !Violates(text, PerfectOpportunity(name), PerfectProfile(text, name), code)
    {
    }
  }

  lemma SameLabelF1(lex: Lexicon, n: string)
    ensures LabelsF1(lex, [n], [n]).0 == ONE
  {
    var matches := LabelMatching(lex, [n], [n]);
    FromKeysOfDistinct([n]);
    SimilarityRange(lex, n, n);
    LabelMatchingMaximal(lex, [n], [n], n, n);
    GreedyCount(SimilarityOf(lex), [n], [n]);
    assert |matches| == 1;
    F1Range(1, 1, 1);
  }

  lemma PerfectSkills(text: Text, name: string)
    requires text.identity(name) != ""
    ensures OpportunitySkills(text, PerfectOpportunity(name).analysis) == [text.identity(name)]
  {
    var values := Somes([name]);
    assert values == [Some(name)] && values[1..] == [];
    assert Identities(text, []) == [];
  }

  lemma PerfectLabels(text: Text, name: string)
    requires text.identity(name) != ""
    ensures var a, p := PerfectOpportunity(name).analysis, PerfectProfile(text, name);
            && RoleScore(text, a, p) == Some(ONE) && SkillsScore(text, a, p) == Some(ONE)
            && CategoryScore(text, a, p) == Some(ONE)
  {
    PerfectSkills(text, name);
    hide LabelsF1, MaxSimilarity, HasSpecificSkillOverlap, RoleFamilyCompatible, RoleSupportsSkillOverlap,
         OpportunitySkills;
    var n := text.identity(name);
    MaxSimilarityRange(text.lexicon, n, [n]);
    SameLabelF1(text.lexicon, n);
  }

  lemma PerfectTerms(text: Text, name: string)
    requires text.identity(name) != ""
    ensures var a, p := PerfectOpportunity(name).analysis, PerfectProfile(text, name);
            && WorkTypeScore(a, p) == Some(ONE) && BudgetScore(text, a, p) == Some(ONE)
            && PreferencesScore(text, a, p) == Some(Ratio(ONE * 3, ONE * 3))
  {
    var a, p := PerfectOpportunity(name).analysis, PerfectProfile(text, name);
    assert PreferenceScores(text, a, p) == [ONE, ONE, ONE];
    SumOfThree(ONE, ONE, ONE);
  }

  /** Every component of the perfect candidate scores 1, so its relevance is the policy's ceiling. */
  lemma PerfectComponents(text: Text, name: string, policy: Policy)
    requires text.identity(name) != ""
    ensures var cs := Components(text, PerfectOpportunity(name).analysis, PerfectProfile(text, name), policy);
            Contributions(cs) == Ceiling(policy.RelevanceWeights(), policy.scale)
  {
    var a, p := PerfectOpportunity(name).analysis, PerfectProfile(text, name);
    AllComponentsPerfect(text, name, policy);
    ComponentsWeighed(text, a, p, policy);
    hide Components, Weighed;
    ContributionsUnderCeiling(Components(text, a, p, policy), policy.RelevanceWeights(), policy.scale);
  }

  lemma AllComponentsPerfect(text: Text, name: string, policy: Policy)
    requires text.identity(name) != ""
    ensures forall c :: c in Components(text, PerfectOpportunity(name).analysis, PerfectProfile(text, name), policy)
                        ==> c.score == Some(ONE)
  {
    hide RoleScore, SkillsScore, CategoryScore, WorkTypeScore, BudgetScore, PreferencesScore, FourPlaces,
         ScoreComponent;
    PerfectLabels(text, name);
    PerfectTerms(text, name);
    FourPlacesKept(Some(ONE), policy.role, policy.scale);
    FourPlacesKept(Some(ONE), policy.skills, policy.scale);
    FourPlacesKept(Some(ONE), policy.category, policy.scale);
    FourPlacesKept(Some(ONE), policy.workType, policy.scale);
    FourPlacesKept(Some(ONE), policy.budget, policy.scale);
    WholeKept(policy.preferences, policy.scale);
  }

  lemma WholeKept(weight: int, scale: int)
    requires scale > 0
    ensures ScoreComponent(Some(Ratio(ONE * 3, ONE * 3)), weight, scale).score == Some(ONE)
  {
    RoundExact(ONE, ONE * 3);
  }

  lemma PerfectQualities()
    ensures OpportunityQualityScore(PERFECT_QUALITY) == ONE && SourceQualityScore(PERFECT_SOURCE) == ONE
  {
    RoundExact(ONE, 4);
    RoundExact(ONE, NANO * NANO);
  }

  /** What a policy gives the perfect candidate with perfect quality and source. */
  lemma PerfectScore(text: Text, name: string, policy: Policy)
    requires text.identity(name) != ""
    ensures var r := ScoreCandidate(text, PerfectOpportunity(name), PerfectProfile(text, name), PERFECT_QUALITY,
                                    Some(PERFECT_SOURCE), policy);
            var top := Ceiling(policy.RelevanceWeights(), policy.scale);
            && r.Success? && r.value.relevance == top
            && r.value.structured == StructuredScoreOf(policy, top, ONE, Some(ONE), 0)
  {
    var o, p := PerfectOpportunity(name), PerfectProfile(text, name);
    PerfectIsAcceptable(text, name);
    EligibleIffAcceptable(text, o, p);
    PerfectComponents(text, name, policy);
    PerfectQualities();
    RoundExact(Ceiling(policy.RelevanceWeights(), policy.scale), 1);
    hide Decide, Components, Contributions, StructuredScoreOf, Ceiling, OpportunityQualityScore, SourceQualityScore,
         RoundHalfEven;
  }

  // --- the bounds -----------------------------------------------------------------------

  /** No score is above the perfect candidate's. */
  lemma NoneAbovePerfect(text: Text, o: Opportunity, p: Profile, q: Quality, source: Option<SourceSnapshot>,
                         policy: Policy)
    ensures var r := ScoreCandidate(text, o, p, q, source, policy);
            var top := Ceiling(policy.RelevanceWeights(), policy.scale);
            r.Success? ==>
              && 0 <= r.value.relevance <= top
              && 0 <= r.value.structured <= StructuredScoreOf(policy, top, ONE, Some(ONE), 0)
  {
    hide Decide, Components, Weighed, Ceiling, RoundHalfEven, Contributions, StructuredScoreOf;
    var components := Components(text, o.analysis, p, policy);
    var top := Ceiling(policy.RelevanceWeights(), policy.scale);
    ComponentsWeighed(text, o.analysis, p, policy);
    ContributionsUnderCeiling(components, policy.RelevanceWeights(), policy.scale);
    RoundExact(Contributions(components), 1);
    var relevance := Contributions(components);
    var quality := OpportunityQualityScore(q);
    var sourceQuality := if source.None? then None else Some(SourceQualityScore(source.value));
    hide OpportunityQualityScore, SourceQualityScore;
    StructuredMonotone(policy, top, ONE, Some(ONE), 0, relevance, quality, sourceQuality, |o.analysis.redFlags|);
    StructuredNotNegative(policy, relevance, quality, sourceQuality, |o.analysis.redFlags|);
  }

  lemma StructuredNotNegative(policy: Policy, relevance: int, quality: int, source: Option<int>, redFlags: nat)
    ensures StructuredScoreOf(policy, relevance, quality, source, redFlags) >= 0
  {
    var x := Max(0, Aggregate(policy, relevance, quality, source) - Penalty(policy, redFlags) * policy.Unit());
    RoundMonotone(0, x, policy.Unit());
    RoundExact(0, policy.Unit());
  }

  /** Relevance stays in [0, 1] for every scored candidate. */
  ghost predicate RelevanceBounded(text: Text, policy: Policy) {
    forall o, p, q, source ::
      var r := ScoreCandidate(text, o, p, q, source, policy);
      r.Success? ==> 0 <= r.value.relevance <= ONE
  }

  /** The structured score stays in [0, 1] for every scored candidate. */
  ghost predicate StructuredBounded(text: Text, policy: Policy) {
    forall o, p, q, source ::
      var r := ScoreCandidate(text, o, p, q, source, policy);
      r.Success? ==> 0 <= r.value.structured <= ONE
  }

  /** Wherever some label has a name, a policy keeps every candidate's relevance in [0, 1]
      exactly when its rounded weights sum to at most 1. */
  lemma RelevanceBoundedIff(text: Text, name: string, policy: Policy)
    requires text.identity(name) != ""
    ensures RelevanceBounded(text, policy) <==> Ceiling(policy.RelevanceWeights(), policy.scale) <= ONE
  {
    hide ScoreCandidate, Ceiling;
    PerfectScore(text, name, policy);
    forall o, p, q, source
      ensures var r := ScoreCandidate(text, o, p, q, source, policy);
              r.Success? ==> 0 <= r.value.relevance <= Ceiling(policy.RelevanceWeights(), policy.scale)
    {
      NoneAbovePerfect(text, o, p, q, source, policy);
    }
  }

  /** What the relevance weight makes of the rounded weights' sum beyond 1. */
  ghost function Excess(policy: Policy): int {
    (Ceiling(policy.RelevanceWeights(), policy.scale) - ONE) * policy.relevance
  }

  /** The perfect candidate's structured score, read off the policy's weights. */
  lemma TopStructured(policy: Policy)
    ensures StructuredScoreOf(policy, Ceiling(policy.RelevanceWeights(), policy.scale), ONE, Some(ONE), 0) <= ONE
            <==> 2 * Excess(policy) <= policy.Unit()
  {
    var top := Ceiling(policy.RelevanceWeights(), policy.scale);
    hide Ceiling;
    NoPenalty(policy);
    TopAggregate(policy, top);
    var x := Aggregate(policy, top, ONE, Some(ONE));
    assert policy.Unit() > 0;
    hide Aggregate, Penalty, RoundHalfEven, ValidPolicy;
    RoundAtMost(Max(0, x), policy.Unit(), ONE);
  }

  lemma TopAggregate(policy: Policy, top: int)
    ensures Aggregate(policy, top, ONE, Some(ONE)) == ONE * policy.Unit() + (top - ONE) * policy.relevance
  {
    var ws := policy.AggregateWeights();
    assert ws[1..] == [policy.opportunityQuality, policy.sourceQuality] && ws[1..][1..] == [policy.sourceQuality];
    assert Sum(ws[1..][1..]) == policy.sourceQuality + Sum(ws[1..][1..][1..]) && ws[1..][1..][1..] == [];
    assert Sum(ws) == policy.relevance + policy.opportunityQuality + policy.sourceQuality;
    assert top * policy.relevance == (top - ONE) * policy.relevance + ONE * policy.relevance;
  }

  lemma NoPenalty(policy: Policy)
    ensures Penalty(policy, 0) == 0
  {
    RoundExact(0, policy.scale);
  }

  lemma StructuredBoundedByTop(text: Text, name: string, policy: Policy)
    requires text.identity(name) != ""
    ensures StructuredBounded(text, policy)
            <==> StructuredScoreOf(policy, Ceiling(policy.RelevanceWeights(), policy.scale), ONE, Some(ONE), 0) <= ONE
  {
    hide ScoreCandidate, Ceiling, StructuredScoreOf;
    PerfectScore(text, name, policy);
    forall o, p, q, source
      ensures var r := ScoreCandidate(text, o, p, q, source, policy);
              var top := StructuredScoreOf(policy, Ceiling(policy.RelevanceWeights(), policy.scale), ONE, Some(ONE), 0);
              r.Success? ==> 0 <= r.value.structured <= top
    {
      NoneAbovePerfect(text, o, p, q, source, policy);
    }
  }

  /** And every candidate's structured score exactly when the excess is at most half of the last place. */
  lemma StructuredBoundedIff(text: Text, name: string, policy: Policy)
    requires text.identity(name) != ""
    ensures StructuredBounded(text, policy) <==> 2 * Excess(policy) <= policy.Unit()
  {
    hide *;
    StructuredBoundedByTop(text, name, policy);
    TopStructured(policy);
  }

  /** A valid policy with five-place weights. */
  const FIVE_PLACE_POLICY: PolicyFields :=
    PolicyFields(10, 16666, 16666, 16666, 16666, 16666, 16670, 75000, 15000, 10000, 8000, 32000)

  lemma FivePlaceCeiling()
    ensures ValidPolicy(FIVE_PLACE_POLICY) && Ceiling(FIVE_PLACE_POLICY.RelevanceWeights(), 10) == ONE + 2
  {
    var ws := FIVE_PLACE_POLICY.RelevanceWeights();
    assert ws[1..] == [16666, 16666, 16666, 16666, 16670];
    assert ws[1..][1..] == [16666, 16666, 16666, 16670];
    assert ws[1..][1..][1..] == [16666, 16666, 16670];
    assert ws[1..][1..][1..][1..] == [16666, 16670];
    assert ws[1..][1..][1..][1..][1..] == [16670];
    assert ws[1..][1..][1..][1..][1..][1..] == [];
    assert FIVE_PLACE_POLICY.AggregateWeights()[1..] == [15000, 10000];
    RoundUnique(16666, 10, 1667);
    RoundUnique(16670, 10, 1667);
  }

  /** Under it the perfect candidate's relevance and structured score are both 1.0002. */
  lemma ScoresCanExceedOne(text: Text, name: string)
    requires text.identity(name) != ""
    ensures ValidPolicy(FIVE_PLACE_POLICY)
    ensures var r := ScoreCandidate(text, PerfectOpportunity(name), PerfectProfile(text, name), PERFECT_QUALITY,
                                    Some(PERFECT_SOURCE), FIVE_PLACE_POLICY);
            r.Success? && r.value.relevance == ONE + 2 && r.value.structured == ONE + 2
  {
    hide ScoreCandidate, Ceiling, StructuredScoreOf, PerfectOpportunity, PerfectProfile;
    FivePlaceCeiling();
    FivePlaceStructured();
    PerfectScore(text, name, FIVE_PLACE_POLICY);
  }

  lemma FivePlaceStructured()
    ensures ValidPolicy(FIVE_PLACE_POLICY)
            && StructuredScoreOf(FIVE_PLACE_POLICY, ONE + 2, ONE, Some(ONE), 0) == ONE + 2
  {
    FivePlaceCeiling();
    hide Ceiling, ValidPolicy;
    NoPenalty(FIVE_PLACE_POLICY);
    hide Penalty;
    RoundUnique(10002 * 75000 + ONE * 25000, 10 * ONE, ONE + 2);
    assert Aggregate(FIVE_PLACE_POLICY, ONE + 2, ONE, Some(ONE)) == 10002 * 75000 + ONE * 25000;
  }
}
