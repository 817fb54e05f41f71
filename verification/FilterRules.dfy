/** The hard filters' rules, said of the stated fields of opportunity and profile. */
module FilterRules {
  import opened Sequences
  import opened LexicalMatching
  import opened Matching

  /** A known budget is too low exactly when its upper bound, or its only bound, is below the minimum in
      the same currency; the lower bound of a range does not matter. */
  lemma BudgetRule(text: Text, o: Opportunity, p: Profile)
    ensures var b, prefs := o.analysis.budget, p.preferences;
            Violates(text, o, p, BudgetBelowMinimum)
            <==> b.known && prefs.minimumBudget.Some? && b.currency.Some?
                 && text.upper(b.currency.value) == prefs.currency.value
                 && (if b.max.Some? then b.max.value < prefs.minimumBudget.value
                     else b.min.value < prefs.minimumBudget.value)
  {
  }

  /** An unknown budget is refused exactly when the profile requires an explicit one and none is given. */
  lemma ExplicitBudgetRule(text: Text, o: Opportunity, p: Profile)
    ensures Violates(text, o, p, BudgetNotExplicit)
            <==> !o.analysis.budget.known && !o.analysis.budget.explicit
                 && p.preferences.budgetPolicy.Some? && p.preferences.budgetPolicy.value.RequireExplicit?
  {
  }

  /** The profile's kind of work, if the opportunity's is one a profile can name. */
  ghost predicate Named(t: AnalysisType, named: OpportunityType) {
    || (t.OneOffOrderA? && named.OneOffOrder?) || (t.ProjectA? && named.Project?)
    || (t.VacancyA? && named.Vacancy?) || (t.PartTimeContractorA? && named.PartTimeContractor?)
  }

  /** A restriction on work types admits an unknown type and the types it names; a consultation is none of them. */
  lemma WorkTypeRule(text: Text, o: Opportunity, p: Profile)
    ensures var t, accepted := o.analysis.opportunityType, p.preferences.workTypes;
            Violates(text, o, p, WorkTypeMismatch)
            <==> !t.UnknownA? && accepted.Some? && forall named :: named in accepted.value ==> !Named(t, named)
  {
    var t, accepted := o.analysis.opportunityType, p.preferences.workTypes;
    if ProfileType(t).Some? {
      assert Named(t, ProfileType(t).value);
    }
  }

  /** A work mode is refused exactly when it is stated and the accepted modes leave it out. */
  lemma WorkModeRule(text: Text, o: Opportunity, p: Profile)
    ensures var remote, modes := o.analysis.remote, p.preferences.workModes;
            Violates(text, o, p, WorkModeMismatch)
            <==> remote.Some? && modes.Some?
                 && (if remote.value then Remote !in modes.value else OnSite !in modes.value)
  {
    var remote := o.analysis.remote;
    if remote.Some? {
      if remote.value {
        assert remote == Some(true);
      } else {
        assert remote == Some(false);
      }
    }
  }

  /** A term counts by its normalized text, and only when that is not blank: language and location must be
      among the accepted ones, the category not among the excluded ones. */
  lemma TermRules(text: Text, o: Opportunity, p: Profile)
    ensures var a, prefs := o.analysis, p.preferences;
            && (Violates(text, o, p, LanguageMismatch)
                <==> a.language.Some? && text.identity(a.language.value) != "" && prefs.languages.Some?
                     && text.identity(a.language.value) !in prefs.languages.value)
            && (Violates(text, o, p, GeographyMismatch)
                <==> a.location.Some? && text.identity(a.location.value) != "" && prefs.geographies.Some?
                     && text.identity(a.location.value) !in prefs.geographies.value)
            && (Violates(text, o, p, ExcludedCategory)
                <==> a.category.Some? && text.identity(a.category.value) != "" && prefs.excludedCategories.Some?
                     && text.identity(a.category.value) in prefs.excludedCategories.value)
  {
  }

  /** Inactive opportunities, and inactive or unconfirmed profiles, are refused. */
  lemma StatusRules(text: Text, o: Opportunity, p: Profile)
    ensures Violates(text, o, p, OpportunityNotActive) <==> o.lifecycle != Active
    ensures Violates(text, o, p, ProfileNotActive) <==> !p.isActive
    ensures Violates(text, o, p, ProfileNotConfirmed) <==> !p.confirmed
  {
  }

  // --- targets ---------------------------------------------------------------------------

  lemma {:induction false} IdentitiesAre(text: Text, values: seq<Option<string>>, x: string)
    ensures x in Identities(text, values)
            <==> x != "" && exists v: string :: Some(v) in values && text.identity(v) == x
  {
    if values != [] {
      IdentitiesAre(text, values[1..], x);
      assert forall v: string :: Some(v) in values <==> Some(v) == values[0] || Some(v) in values[1..];
    }
  }

  /** An opportunity's targets are its category, role and skills, normalized, where they say something. */
  lemma OpportunityTargetsAre(text: Text, a: Analysis, x: string)
    ensures x in OpportunityTargets(text, a)
            <==> x != "" && exists v: string :: (a.category == Some(v) || a.roleTitle == Some(v) || v in a.skills)
                                                && text.identity(v) == x
  {
    var values := [a.category, a.roleTitle] + Somes(a.skills);
    IdentitiesAre(text, values, x);
    forall v: string
      ensures Some(v) in values <==> a.category == Some(v) || a.roleTitle == Some(v) || v in a.skills
    {
      StatedAmong(a, v);
    }
  }

  lemma StatedAmong(a: Analysis, v: string)
    ensures Some(v) in [a.category, a.roleTitle] + Somes(a.skills)
            <==> a.category == Some(v) || a.roleTitle == Some(v) || v in a.skills
  {
    var skills := Somes(a.skills);
    if v in a.skills {
      var i :| 0 <= i < |a.skills| && a.skills[i] == v;
      assert skills[i] == Some(v);
    }
    if Some(v) in skills {
      var i :| 0 <= i < |skills| && skills[i] == Some(v);
      assert a.skills[i] == v;
    }
  }

  /** A profile's targets are its categories, roles and skills. */
  lemma ProfileTargetsAre(p: Profile, x: string)
    ensures x in ProfileTargets(p) <==> x in p.categories || x in p.roles || x in p.skills
  {
  }

  /** A listed profile of an active opportunity is excluded before filtering exactly for a work type,
      language or location it does not accept, or for targets that do not overlap. */
  lemma ExclusionRule(text: Text, o: Opportunity, p: Profile)
    ensures var e := ExclusionOf(text, o.analysis, p);
            && (e == Some(ExcludedWorkType) <==> Violates(text, o, p, WorkTypeMismatch))
            && (e == Some(ExcludedLanguage)
                <==> !Violates(text, o, p, WorkTypeMismatch) && Violates(text, o, p, LanguageMismatch))
            && (e == Some(ExcludedGeography)
                <==> !Violates(text, o, p, WorkTypeMismatch) && !Violates(text, o, p, LanguageMismatch)
                     && Violates(text, o, p, GeographyMismatch))
            && (e == Some(NoTargetOverlap)
                <==> !Violates(text, o, p, WorkTypeMismatch) && !Violates(text, o, p, LanguageMismatch)
                     && !Violates(text, o, p, GeographyMismatch)
                     && OpportunityTargets(text, o.analysis) != [] && ProfileTargets(p) != []
                     && !LabelsHaveOverlap(text.lexicon, OpportunityTargets(text, o.analysis), ProfileTargets(p)))
  {
    hide OptionalIdentity, OpportunityTargets, ProfileTargets, LabelsHaveOverlap, ProfileType;
  }

  // --- who is narrowed at all -------------------------------------------------------------

  function Current(): Profile -> bool { (p: Profile) => p.isActive && p.confirmed }

  /** Inactive and unconfirmed profiles leave no mark on a narrowing: it is as if they were not there. */
  lemma OnlyCurrentProfilesCount(text: Text, o: Opportunity, profiles: seq<Profile>)
    ensures Narrowing(text, o, profiles) == Narrowing(text, o, Filter(profiles, Current()))
    ensures Narrowing(text, o, profiles).activeCount == |Filter(profiles, Current())|
  {
    OthersAreNotNarrowed(text, o, profiles);
    OthersAreNotEligible(text, o, profiles);
    CurrentAreListed(profiles);
    hide Listed, Narrowed, Eligible, Exclusions, Decisions, Filter, Current;
  }

  lemma {:induction false} OthersAreNotNarrowed(text: Text, o: Opportunity, s: seq<Profile>)
    ensures Filter(Filter(s, Current()), p => Narrowed(text, o, p)) == Filter(s, p => Narrowed(text, o, p))
    ensures Exclusions(text, o, Filter(s, Current())) == Exclusions(text, o, s)
  {
    hide ExclusionOf;
    if s != [] {
      OthersAreNotNarrowed(text, o, s[1..]);
    }
  }

  lemma {:induction false} OthersAreNotEligible(text: Text, o: Opportunity, s: seq<Profile>)
    ensures Filter(Filter(s, Current()), p => Eligible(text, o, p)) == Filter(s, p => Eligible(text, o, p))
  {
    if s != [] {
      OthersAreNotEligible(text, o, s[1..]);
      EligibleIsCurrent(text, o, s[0]);
      hide Eligible, Current;
    }
  }

  lemma EligibleIsCurrent(text: Text, o: Opportunity, p: Profile)
    ensures Eligible(text, o, p) ==> Current()(p)
  {
    EligibleIffAcceptable(text, o, p);
    if Acceptable(text, o, p) {
      assert !Violates(text, o, p, ProfileNotActive) && !Violates(text, o, p, ProfileNotConfirmed);
    }
  }

  lemma {:induction false} CurrentAreListed(s: seq<Profile>)
    ensures Filter(s, Listed) == Filter(s, Current()) == Filter(Filter(s, Current()), Listed)
  {
    if s != [] {
      CurrentAreListed(s[1..]);
    }
  }
}
