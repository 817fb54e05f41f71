/** What the scores of a candidate are worth, said of the ratings, weights and labels they come from. */
module ScoringRules {
  import opened Decimals
  import opened Sequences
  import opened LexicalMatching
  import opened Matching
  import opened Scoring
  import opened LabelRules

  // --- the aggregate -----------------------------------------------------------------

  /** What n red flags are charged, before rounding: so much each, up to the maximum. */
  function Charge(policy: Policy, n: nat): int {
    if policy.redFlagPenalty * n <= policy.maximumRedFlagPenalty then policy.redFlagPenalty * n
    else policy.maximumRedFlagPenalty
  }

  /** The structured score is the nearest four-place value to the weighed scores less the penalty, or 0,
      and the penalty the nearest to the charge. */
  lemma NearestStructured(text: Text, o: Opportunity, p: Profile, q: Quality, source: Option<SourceSnapshot>,
                          policy: Policy)
    requires Acceptable(text, o, p)
    ensures var r := ScoreCandidate(text, o, p, q, source, policy);
            && r.Success?
            && var v := r.value;
               var unit := 10_000 * policy.scale;
               var exact := v.relevance * policy.relevance + v.quality * policy.opportunityQuality
                            + (if v.sourceQuality.Some? then v.sourceQuality.value * policy.sourceQuality else 0)
                            - v.penalty * unit;
               && (v.sourceQuality.Some? <==> source.Some?)
               && -policy.scale <= 2 * (v.penalty * policy.scale - Charge(policy, |o.analysis.redFlags|))
               && 2 * (v.penalty * policy.scale - Charge(policy, |o.analysis.redFlags|)) <= policy.scale
               && (exact <= 0 ==> v.structured == 0)
               && (exact >= 0 ==> -unit <= 2 * (v.structured * unit - exact) <= unit)
  {
    EligibleIffAcceptable(text, o, p);
    RoundExact(0, policy.Unit());
    hide Decide, Acceptable, Components, OpportunityQualityScore, SourceQualityScore, RoundHalfEven;
  }

  /** With four-place weights the charge is exact, and n flags lower the structured score by just that,
      down to 0; only where the unflagged score was rounded from a tie and the charge is an odd number
      of places can the last place move by one. */
  lemma RedFlagsCost(policy: Policy, relevance: int, quality: int, source: Option<int>, n: nat)
    requires policy.scale == 1
    ensures var unit := 10_000;
            var total := relevance * policy.relevance + quality * policy.opportunityQuality
                         + (if source.Some? then source.value * policy.sourceQuality else 0);
            var clean := StructuredScoreOf(policy, relevance, quality, source, 0);
            var flagged := StructuredScoreOf(policy, relevance, quality, source, n);
            var charge := Charge(policy, n);
            && (total <= charge * unit || clean < charge ==> flagged == 0)
            && (total >= charge * unit ==> clean - charge - 1 <= flagged <= clean - charge + 1)
            && (total >= charge * unit && (charge % 2 == 0 || total % unit != 5_000) ==> flagged == clean - charge)
  {
    var total := Aggregate(policy, relevance, quality, source);
    PenaltyIsCharge(policy, 0);
    PenaltyIsCharge(policy, n);
    assert Charge(policy, 0) == 0 <= Charge(policy, n);
    RoundExact(0, 10_000);
    RoundShift(total, 10_000, Charge(policy, n));
    hide RoundHalfEven, Aggregate, Penalty, Charge;
    assert total % 10_000 != 5_000 ==> 2 * (total % 10_000) != 10_000;
  }

  lemma PenaltyIsCharge(policy: Policy, n: nat)
    requires policy.scale == 1
    ensures Penalty(policy, n) == Charge(policy, n)
  {
    RoundExact(Charge(policy, n), 1);
  }

  /** The same of a candidate and the one with its red flags removed. */
  lemma RedFlagsCostCandidates(text: Text, o: Opportunity, p: Profile, q: Quality, source: Option<SourceSnapshot>,
                               policy: Policy)
    requires Acceptable(text, o, p) && policy.scale == 1
    ensures var flagged := ScoreCandidate(text, o, p, q, source, policy);
            var clean := ScoreCandidate(text, WithFlags(o, []), p, q, source, policy);
            var charge := Charge(policy, |o.analysis.redFlags|);
            && flagged.Success? && clean.Success? && clean.value.penalty == 0 && flagged.value.penalty == charge
            && (flagged.value.structured > 0 ==>
                  -1 <= flagged.value.structured - (clean.value.structured - charge) <= 1)
            && (flagged.value.structured > 0 && charge % 2 == 0 ==>
                  flagged.value.structured == clean.value.structured - charge)
            && (clean.value.structured < charge ==> flagged.value.structured == 0)
  {
    FiltersIgnoreFlags(text, o, p, []);
    EligibleIffAcceptable(text, o, p);
    EligibleIffAcceptable(text, WithFlags(o, []), p);
    ComponentsIgnoreFlags(text, o, p, policy, []);
    PenaltyIsCharge(policy, 0);
    PenaltyIsCharge(policy, |o.analysis.redFlags|);
    var relevance := RoundHalfEven(Contributions(Components(text, o.analysis, p, policy)), 1);
    var sourceQuality := if source.None? then None else Some(SourceQualityScore(source.value));
    var quality := OpportunityQualityScore(q);
    assert Charge(policy, 0) == 0;
    hide Decide, Components, Acceptable, StructuredScoreOf, Penalty, Charge, SourceQualityScore,
         OpportunityQualityScore;
    RedFlagsCost(policy, relevance, quality, sourceQuality, |o.analysis.redFlags|);
  }

  // --- quality -------------------------------------------------------------------------

  /** Opportunity quality is the nearest four-place value to the mean of its four ratings. */
  lemma NearestQuality(q: Quality)
    ensures var total := q.actionability + q.plausibility + q.specificity + q.credibility;
            -(4 * q.scale) <= 2 * (OpportunityQualityScore(q) * (4 * q.scale) - total) <= 4 * q.scale
  {
    hide RoundHalfEven;
  }

  /** Source quality is the nearest four-place value to 0.6 of the yield and 0.4 of the buyer intent, less
      the share of 0.4 sellers, 0.4 spam and 0.2 duplicates, clamped to [0, 1]. */
  lemma NearestSourceQuality(s: SourceSnapshot)
    ensures var good := 60 * s.opportunityYield + 40 * s.buyerIntent;
            var left := 1_000_000_000 - 40 * s.seller - 40 * s.spam - 20 * s.duplicate;
            var one := 1_000_000_000 * 1_000_000_000;
            && (good * left <= 0 ==> SourceQualityScore(s) == 0)
            && (good * left >= one ==> SourceQualityScore(s) == 10_000)
            && (0 <= good * left <= one ==>
                  -one <= 2 * (SourceQualityScore(s) * one - good * left * 10_000) <= one)
  {
    var product := (60 * s.opportunityYield + 40 * s.buyerIntent)
                   * (1_000_000_000 - 40 * s.seller - 40 * s.spam - 20 * s.duplicate);
    assert SourceQualityScore(s) == Normalized(Ratio(product, NANO * NANO));
    NormalizedNearest(product, NANO * NANO);
  }

  lemma NormalizedNearest(num: int, den: int)
    requires den > 0
    ensures var r := Normalized(Ratio(num, den));
            && (num <= 0 ==> r == 0) && (num >= den ==> r == 10_000)
            && (0 <= num <= den ==> -den <= 2 * (r * den - num * 10_000) <= den)
  {
    RoundExact(0, den);
    RoundExact(10_000, den);
    hide RoundHalfEven;
  }

  // --- role, skills and category ----------------------------------------------------------

  lemma {:induction false} MaxIsReached(lex: Lexicon, name: string, others: seq<string>)
    ensures forall r :: r in others ==> LabelSimilarity(lex, name, r) <= MaxSimilarity(lex, name, others)
    ensures others != [] ==>
              exists r :: r in others && LabelSimilarity(lex, name, r) == MaxSimilarity(lex, name, others)
  {
    hide LabelSimilarity;
    if others != [] {
      MaxIsReached(lex, name, others[1..]);
      SimilarityRange(lex, name, others[0]);
      assert others[0] in others && forall r :: r in others <==> r == others[0] || r in others[1..];
    }
  }

  /** The text says something once it is normalized. */
  predicate Says(text: Text, value: Option<string>) { value.Some? && text.identity(value.value) != "" }

  /** Neither role resembles the other, but both name a role of the same family. */
  ghost predicate OnlyFamily(text: Text, role: string, roles: seq<string>) {
    && (forall r :: r in roles ==> LabelSimilarity(text.lexicon, role, r) == 0)
    && InRoleFamily(text.lexicon, role) && exists r :: r in roles && InRoleFamily(text.lexicon, r)
  }

  lemma OnlyFamilyIff(text: Text, role: string, roles: seq<string>)
    requires roles != []
    ensures OnlyFamily(text, role, roles)
            <==> MaxSimilarity(text.lexicon, role, roles) == 0 && RoleFamilyCompatible(text.lexicon, role, roles)
  {
    MaxIsReached(text.lexicon, role, roles);
    MaxSimilarityRange(text.lexicon, role, roles);
    hide LabelSimilarity, MaxSimilarity, InRoleFamily;
    forall r | r in roles
      ensures LabelSimilarity(text.lexicon, role, r) >= 0
    {
      SimilarityRange(text.lexicon, role, r);
    }
  }

  lemma RoleScoreCases(text: Text, a: Analysis, p: Profile)
    ensures RoleScore(text, a, p).Some? <==> Says(text, a.roleTitle) && p.roles != []
    ensures RoleScore(text, a, p).Some? ==>
              var role := text.identity(a.roleTitle.value);
              var best := MaxSimilarity(text.lexicon, role, p.roles);
              RoleScore(text, a, p).value
              == if best == 0 && RoleFamilyCompatible(text.lexicon, role, p.roles)
                    && HasSpecificSkillOverlap(text, a, p)
                 then 6_000 else best
  {
    hide MaxSimilarity, RoleFamilyCompatible, HasSpecificSkillOverlap;
  }

  /** The role scores its best similarity to a profile role, or 0.6 where they only share a family and
      the skills overlap. */
  lemma RoleScoreRule(text: Text, a: Analysis, p: Profile)
    ensures RoleScore(text, a, p).Some? <==> Says(text, a.roleTitle) && p.roles != []
    ensures RoleScore(text, a, p).Some? ==>
              var score, role := RoleScore(text, a, p).value, text.identity(a.roleTitle.value);
              if OnlyFamily(text, role, p.roles) && HasSpecificSkillOverlap(text, a, p) then score == 6_000
              else && (forall r :: r in p.roles ==> LabelSimilarity(text.lexicon, role, r) <= score)
                   && exists r :: r in p.roles && LabelSimilarity(text.lexicon, role, r) == score
  {
    hide RoleScore, MaxSimilarity, RoleFamilyCompatible, HasSpecificSkillOverlap, OnlyFamily, LabelSimilarity;
    RoleScoreCases(text, a, p);
    if RoleScore(text, a, p).Some? {
      OnlyFamilyIff(text, text.identity(a.roleTitle.value), p.roles);
      MaxIsReached(text.lexicon, text.identity(a.roleTitle.value), p.roles);
    }
  }

  /** The category scores its best similarity to a profile category. */
  lemma CategoryScoreRule(text: Text, a: Analysis, p: Profile)
    ensures CategoryScore(text, a, p).Some? <==> Says(text, a.category) && p.categories != []
    ensures CategoryScore(text, a, p).Some? ==>
              var score, category := CategoryScore(text, a, p).value, text.identity(a.category.value);
              && (forall r :: r in p.categories ==> LabelSimilarity(text.lexicon, category, r) <= score)
              && exists r :: r in p.categories && LabelSimilarity(text.lexicon, category, r) == score
  {
    hide LabelSimilarity, MaxSimilarity, CategoryScore;
    CategoryScoreCases(text, a, p);
    if Says(text, a.category) {
      MaxIsReached(text.lexicon, text.identity(a.category.value), p.categories);
    }
  }

  lemma CategoryScoreCases(text: Text, a: Analysis, p: Profile)
    ensures CategoryScore(text, a, p)
         == if Says(text, a.category) && p.categories != []
            then Some(MaxSimilarity(text.lexicon, text.identity(a.category.value), p.categories)) else None
  {
    hide MaxSimilarity;
  }

  lemma SkillsScoreCases(text: Text, a: Analysis, p: Profile)
    ensures var skills := OpportunitySkills(text, a);
            && (SkillsScore(text, a, p).Some? <==> skills != [] && p.skills != [])
            && (SkillsScore(text, a, p).Some? ==>
                  var f1 := LabelsF1(text.lexicon, skills, p.skills).0;
                  SkillsScore(text, a, p).value
                  == if f1 < 5_000 && HasSpecificSkillOverlap(text, a, p) && RoleSupportsSkillOverlap(text, a, p)
                     then 5_000 else f1)
  {
    hide LabelsF1, HasSpecificSkillOverlap, RoleSupportsSkillOverlap, OpportunitySkills;
  }

  lemma LabelsF1Rule(lex: Lexicon, left: seq<string>, right: seq<string>)
    requires left != [] && right != []
    ensures var m := |LabelMatching(lex, left, right)|;
            LabelsF1(lex, left, right).0
            == if m == 0 then 0 else RoundHalfEven(2 * m * 10_000, |FromKeys(left)| + |FromKeys(right)|)
  {
    var m := |LabelMatching(lex, left, right)|;
    GreedyCount(SimilarityOf(lex), FromKeys(left), FromKeys(right));
    KeysExist(left);
    KeysExist(right);
    hide Greedy, FromKeys, RoundHalfEven;
    if m > 0 {
      F1IsHarmonicMean(m, |FromKeys(left)|, |FromKeys(right)|);
    }
  }

  /** The skills score 2m/(L+R) for m pairs of distinct skills, raised to 0.5 where the skills overlap and
      the roles agree. */
  lemma SkillsScoreRule(text: Text, a: Analysis, p: Profile)
    ensures var skills := OpportunitySkills(text, a);
            var m := |LabelMatching(text.lexicon, skills, p.skills)|;
            && (SkillsScore(text, a, p).Some? <==> skills != [] && p.skills != [])
            && (SkillsScore(text, a, p).Some? ==>
                  var f1 := if m == 0 then 0
                            else RoundHalfEven(2 * m * 10_000, |FromKeys(skills)| + |FromKeys(p.skills)|);
                  SkillsScore(text, a, p).value
                  == if f1 < 5_000 && HasSpecificSkillOverlap(text, a, p) && RoleSupportsSkillOverlap(text, a, p)
                     then 5_000 else f1)
  {
    hide SkillsScore, OpportunitySkills, LabelsF1, LabelMatching, RoundHalfEven, FromKeys, HasSpecificSkillOverlap,
         RoleSupportsSkillOverlap;
    SkillsScoreCases(text, a, p);
    if SkillsScore(text, a, p).Some? {
      KeysExist(OpportunitySkills(text, a));
      KeysExist(p.skills);
      LabelsF1Rule(text.lexicon, OpportunitySkills(text, a), p.skills);
    }
  }

  lemma KeysExist(s: seq<string>)
    ensures FromKeys(s) != [] <==> s != []
    ensures NoDup(FromKeys(s))
  {
    assert s != [] ==> s[0] in FromKeys(s);
    assert FromKeys(s) != [] ==> FromKeys(s)[0] in s;
  }

  /** Some concept of the skill is not generic. */
  ghost predicate SpecificSkill(lex: Lexicon, skill: string) {
    exists c :: c in lex.concepts(skill) && c !in GENERIC_SKILL_CONCEPTS
  }

  /** A best pair of skills of at least 0.75, both specific, is a skill overlap; without any such pair
      there is none. */
  lemma SkillOverlapRule(text: Text, a: Analysis, p: Profile, l: string, r: string)
    ensures var skills := OpportunitySkills(text, a);
            && (Best(text.lexicon, skills, p.skills, l, r) && LabelSimilarity(text.lexicon, l, r) >= 7_500 &&
                SpecificSkill(text.lexicon, l) && SpecificSkill(text.lexicon, r) ==>
                  HasSpecificSkillOverlap(text, a, p))
            && (HasSpecificSkillOverlap(text, a, p) ==>
                  exists x, y :: x in skills && y in p.skills && LabelSimilarity(text.lexicon, x, y) >= 7_500
                                 && SpecificSkill(text.lexicon, x) && SpecificSkill(text.lexicon, y))
  {
    var skills := OpportunitySkills(text, a);
    LabelMatchingSound(text.lexicon, skills, p.skills);
    hide LabelMatching, LabelSimilarity, OpportunitySkills;
    if Best(text.lexicon, skills, p.skills, l, r) {
      BestPairIsMatched(text.lexicon, skills, p.skills, l, r);
      assert Edge(LabelSimilarity(text.lexicon, l, r), l, r).left == l;
    }
  }

  /** The roles agree when the opportunity's resembles some profile role at all, or shares a family with one. */
  lemma RolesAgreeIff(text: Text, a: Analysis, p: Profile)
    ensures RoleSupportsSkillOverlap(text, a, p)
            <==> Says(text, a.roleTitle) && p.roles != [] &&
                 var role := text.identity(a.roleTitle.value);
                 || (exists r :: r in p.roles && LabelSimilarity(text.lexicon, role, r) > 0)
                 || (text.lexicon.concepts(role) * ROLE_FAMILY_CONCEPTS != {} &&
                     exists r :: r in p.roles && text.lexicon.concepts(r) * ROLE_FAMILY_CONCEPTS != {})
  {
    hide LabelSimilarity;
  }

  /** The opportunity's skills are the normalized texts that say something, in order. */
  lemma SkillsAreNamed(text: Text, a: Analysis, name: string)
    ensures name in OpportunitySkills(text, a)
            <==> name != "" && exists skill :: skill in a.skills && text.identity(skill) == name
  {
    NamedOnes(text, a.skills, name);
  }

  lemma {:induction false} NamedOnes(text: Text, skills: seq<string>, name: string)
    ensures name in Identities(text, Somes(skills))
            <==> name != "" && exists skill :: skill in skills && text.identity(skill) == name
  {
    if skills != [] {
      NamedOnes(text, skills[1..], name);
      assert Somes(skills)[0] == Some(skills[0]) && Somes(skills)[1..] == Somes(skills[1..]);
      assert forall x :: x in skills <==> x == skills[0] || x in skills[1..];
    }
  }

  // --- terms -----------------------------------------------------------------------------

  /** Past the filters each of the last three components is there exactly where there is something to
      compare, and is then 1, but for an unknown budget. */
  lemma TermComponents(text: Text, o: Opportunity, p: Profile, policy: Policy)
    requires Acceptable(text, o, p)
    ensures var cs, a, prefs := Components(text, o.analysis, p, policy), o.analysis, p.preferences;
            && cs[3].score == (if a.opportunityType.UnknownA? || prefs.workTypes.None? then None else Some(10_000))
            && cs[4].score == (if prefs.minimumBudget.None? then None
                               else if !a.budget.known then Some(if a.budget.explicit then 7_500 else 5_000)
                               else if SameCurrency(text, a.budget, prefs) then Some(10_000) else None)
            && cs[5].score == (if || (Says(text, a.language) && prefs.languages.Some?)
                                  || (Says(text, a.location) && prefs.geographies.Some?)
                                  || (a.remote.Some? && prefs.workModes.Some?) then Some(10_000) else None)
  {
    hide WorkTypeScore, BudgetScore, PreferencesScore, Acceptable, RoleScore, SkillsScore, CategoryScore, FourPlaces,
         Normalized, SameCurrency, OptionalIdentity;
    BudgetOfAcceptable(text, o, p);
    WorkTypeOfAcceptable(text, o, p);
    PreferencesAllMet(text, o, p);
    SomethingCompared(text, o.analysis, p);
    FourPlacesKept(WorkTypeScore(o.analysis, p), policy.workType, policy.scale);
    FourPlacesKept(BudgetScore(text, o.analysis, p), policy.budget, policy.scale);
  }

  lemma SomethingCompared(text: Text, a: Analysis, p: Profile)
    ensures PreferencesScore(text, a, p).Some?
            <==> || (Says(text, a.language) && p.preferences.languages.Some?)
                 || (Says(text, a.location) && p.preferences.geographies.Some?)
                 || (a.remote.Some? && p.preferences.workModes.Some?)
  {
    var scores := PreferenceScores(text, a, p);
    var language, place := TermScore(text, a.language, p.preferences.languages),
                           TermScore(text, a.location, p.preferences.geographies);
    assert language == [] <==> !Says(text, a.language) || p.preferences.languages.None?;
    assert place == [] <==> !Says(text, a.location) || p.preferences.geographies.None?;
    ModeIsStated(a);
    hide TermScore, OptionalIdentity, Says, WorkModeOf;
  }

  lemma ModeIsStated(a: Analysis)
    ensures WorkModeOf(a) == if a.remote.None? then None else Some(if a.remote.value then Remote else OnSite)
  {
    if a.remote.Some? {
      if a.remote.value {
        assert a.remote == Some(true);
      } else {
        assert a.remote == Some(false);
      }
    }
  }

  lemma WorkTypeOfAcceptable(text: Text, o: Opportunity, p: Profile)
    requires Acceptable(text, o, p)
    ensures WorkTypeScore(o.analysis, p)
         == if o.analysis.opportunityType.UnknownA? || p.preferences.workTypes.None? then None else Some(10_000)
  {
    assert !Violates(text, o, p, WorkTypeMismatch);
  }

  lemma BudgetOfAcceptable(text: Text, o: Opportunity, p: Profile)
    requires Acceptable(text, o, p)
    ensures var b, prefs := o.analysis.budget, p.preferences;
            BudgetScore(text, o.analysis, p)
            == if prefs.minimumBudget.None? then None
               else if !b.known then Some(if b.explicit then 7_500 else 5_000)
               else if SameCurrency(text, b, prefs) then Some(10_000) else None
  {
    assert !Violates(text, o, p, BudgetBelowMinimum);
  }

  /** The first three components are the role's, the skills' and the category's, each under its own weight. */
  lemma LabelComponents(text: Text, o: Opportunity, p: Profile, policy: Policy)
    ensures var cs := Components(text, o.analysis, p, policy);
            && |cs| == 6
            && cs[0].score == RoleScore(text, o.analysis, p) && cs[0].weight == policy.role
            && cs[1].score == SkillsScore(text, o.analysis, p) && cs[1].weight == policy.skills
            && cs[2].score == CategoryScore(text, o.analysis, p) && cs[2].weight == policy.category
            && cs[3].weight == policy.workType && cs[4].weight == policy.budget && cs[5].weight == policy.preferences
  {
    hide RoleScore, SkillsScore, CategoryScore, WorkTypeScore, BudgetScore, PreferencesScore, FourPlaces, Normalized;
    LabelScoresInRange(text, o.analysis, p);
    FourPlacesKept(RoleScore(text, o.analysis, p), policy.role, policy.scale);
    FourPlacesKept(SkillsScore(text, o.analysis, p), policy.skills, policy.scale);
    FourPlacesKept(CategoryScore(text, o.analysis, p), policy.category, policy.scale);
  }

  lemma LabelScoresInRange(text: Text, a: Analysis, p: Profile)
    ensures var r, s, c := RoleScore(text, a, p), SkillsScore(text, a, p), CategoryScore(text, a, p);
            && (r.Some? ==> 0 <= r.value <= 10_000) && (s.Some? ==> 0 <= s.value <= 10_000)
            && (c.Some? ==> 0 <= c.value <= 10_000)
  {
    hide RoleScore, SkillsScore, CategoryScore, LabelsF1, MaxSimilarity, HasSpecificSkillOverlap,
         RoleSupportsSkillOverlap, RoleFamilyCompatible, OpportunitySkills;
    LabelsF1Range(text.lexicon, OpportunitySkills(text, a), p.skills);
    SkillsScoreCases(text, a, p);
    RoleScoreCases(text, a, p);
    CategoryScoreRule(text, a, p);
    if Says(text, a.roleTitle) {
      MaxSimilarityRange(text.lexicon, text.identity(a.roleTitle.value), p.roles);
    }
    if CategoryScore(text, a, p).Some? {
      CategoryInRange(text, a, p);
    }
  }

  lemma CategoryInRange(text: Text, a: Analysis, p: Profile)
    requires CategoryScore(text, a, p).Some?
    ensures 0 <= CategoryScore(text, a, p).value <= 10_000
  {
    MaxSimilarityRange(text.lexicon, text.identity(a.category.value), p.categories);
    hide MaxSimilarity;
  }
}
