/** Hard filters, candidate exclusion and narrowing. */
module Matching {
  import opened Sequences
  import opened LexicalMatching

  // --- entities --------------------------------------------------------------

  datatype AnalysisType = OneOffOrderA | ProjectA | VacancyA | PartTimeContractorA | ConsultationA | UnknownA

  datatype OpportunityType = OneOffOrder | Project | Vacancy | PartTimeContractor

  datatype WorkMode = Remote | Hybrid | OnSite

  datatype BudgetPolicy = AllowUnknown | RequireExplicit

  datatype Lifecycle = Active | Stale | Closed | Archived

  datatype BudgetFields = BudgetFields(known: bool, min: Option<real>, max: Option<real>,
                                       currency: Option<string>, explicit: bool)

  /** The strict contract's own validation: a known budget has an amount and is explicit. */
  predicate ConsistentBudget(b: BudgetFields) {
    && (b.known ==> (b.min.Some? || b.max.Some?) && b.explicit)
    && (!b.known ==> b.min.None? && b.max.None? && b.currency.None?)
    && (b.min.Some? && b.max.Some? ==> b.min.value <= b.max.value)
  }

  type Budget = b: BudgetFields | ConsistentBudget(b) witness BudgetFields(false, None, None, None, false)

  datatype Analysis = Analysis(
    opportunityType: AnalysisType,
    category: Option<string>,
    roleTitle: Option<string>,
    skills: seq<string>,
    budget: Budget,
    remote: Option<bool>,
    location: Option<string>,
    language: Option<string>,
    redFlags: seq<string>)

  datatype Opportunity = Opportunity(id: nat, lifecycle: Lifecycle, lastSeenAt: int, analysis: Analysis)

  datatype PreferenceFields = PreferenceFields(
    workTypes: Option<seq<OpportunityType>>,
    minimumBudget: Option<real>,
    currency: Option<string>,
    budgetPolicy: Option<BudgetPolicy>,
    languages: Option<seq<string>>,
    geographies: Option<seq<string>>,
    workModes: Option<seq<WorkMode>>,
    excludedCategories: Option<seq<string>>)

  /** A minimum budget and its currency are set together. */
  type Preferences = p: PreferenceFields | p.minimumBudget.Some? <==> p.currency.Some?
    witness PreferenceFields(None, None, None, None, None, None, None, None)

  /** Terms are held by their normalized values. */
  datatype Profile = Profile(
    id: nat, isActive: bool, confirmed: bool,
    roles: seq<string>, skills: seq<string>, categories: seq<string>,
    preferences: Preferences)

  /** Text normalization, kept abstract: `_optional_identity` before its `or None`, and `upper`. */
  datatype Text = Text(lexicon: Lexicon, identity: string -> string, upper: string -> string)

  function OptionalIdentity(text: Text, value: Option<string>): Option<string> {
    if value.None? || text.identity(value.value) == "" then None else Some(text.identity(value.value))
  }

  function ProfileType(t: AnalysisType): Option<OpportunityType> {
    match t
    case OneOffOrderA => Some(OneOffOrder)
    case ProjectA => Some(Project)
    case VacancyA => Some(Vacancy)
    case PartTimeContractorA => Some(PartTimeContractor)
    case ConsultationA => None
    case UnknownA => None
  }

  function WorkModeOf(a: Analysis): Option<WorkMode> {
    if a.remote == Some(true) then Some(Remote)
    else if a.remote == Some(false) then Some(OnSite)
    else None
  }

  function MaximumBudget(b: Budget): real
    requires b.known
  {
    if b.max.Some? then b.max.value else b.min.value
  }

  // --- hard filters ----------------------------------------------------------

  datatype HardFilterCode =
    | OpportunityNotActive | ProfileNotActive | ProfileNotConfirmed | WorkTypeMismatch
    | ExcludedCategory | LanguageMismatch | GeographyMismatch | WorkModeMismatch
    | BudgetNotExplicit | BudgetBelowMinimum

  datatype UnknownField =
    | OpportunityTypeField | CategoryField | LanguageField | GeographyField
    | WorkModeField | BudgetField | BudgetCurrencyField

  /** What a failure quotes from the opportunity and from the profile. */
  datatype FailureDetail =
    | NoDetail
    | LifecycleDetail(status: Lifecycle)
    | TypeDetail(found: AnalysisType, accepted: seq<OpportunityType>)
    | TermDetail(term: string, terms: seq<string>)
    | ModeDetail(mode: WorkMode, modes: seq<WorkMode>)
    | AmountDetail(amount: real, minimum: real)

  datatype HardFilterFailure = HardFilterFailure(code: HardFilterCode, detail: FailureDetail)

  datatype HardFilterDecision = HardFilterDecision(
    profile: Profile, eligible: bool, failures: seq<HardFilterFailure>, unknowns: seq<UnknownField>)

  /** When each code applies, stated rule by rule and independently of the evaluation order. */
  predicate Violates(text: Text, o: Opportunity, p: Profile, code: HardFilterCode) {
    var a, prefs := o.analysis, p.preferences;
    match code
    case OpportunityNotActive => !o.lifecycle.Active?
    case ProfileNotActive => !p.isActive
    case ProfileNotConfirmed => !p.confirmed
    case WorkTypeMismatch =>
      !a.opportunityType.UnknownA? && prefs.workTypes.Some? &&
      (ProfileType(a.opportunityType).None? || ProfileType(a.opportunityType).value !in prefs.workTypes.value)
    case ExcludedCategory =>
      var category := OptionalIdentity(text, a.category);
      category.Some? && prefs.excludedCategories.Some? && category.value in prefs.excludedCategories.value
    case LanguageMismatch => KnownTermMismatch(text, a.language, prefs.languages)
    case GeographyMismatch => KnownTermMismatch(text, a.location, prefs.geographies)
    case WorkModeMismatch =>
      WorkModeOf(a).Some? && prefs.workModes.Some? && WorkModeOf(a).value !in prefs.workModes.value
    case BudgetNotExplicit =>
      !a.budget.known && prefs.budgetPolicy == Some(RequireExplicit) && !a.budget.explicit
    case BudgetBelowMinimum =>
      a.budget.known && prefs.minimumBudget.Some? && SameCurrency(text, a.budget, prefs) &&
      MaximumBudget(a.budget) < prefs.minimumBudget.value
  }

  predicate KnownTermMismatch(text: Text, value: Option<string>, terms: Option<seq<string>>) {
    var identity := OptionalIdentity(text, value);
    identity.Some? && terms.Some? && identity.value !in terms.value
  }

  predicate SameCurrency(text: Text, b: Budget, prefs: Preferences) {
    b.currency.Some? && Some(text.upper(b.currency.value)) == prefs.currency
  }

  predicate Acceptable(text: Text, o: Opportunity, p: Profile) {
    forall code: HardFilterCode :: !Violates(text, o, p, code)
  }

  function DetailOf(text: Text, o: Opportunity, p: Profile, code: HardFilterCode): FailureDetail
    requires Violates(text, o, p, code)
  {
    var a, prefs := o.analysis, p.preferences;
    match code
    case OpportunityNotActive => LifecycleDetail(o.lifecycle)
    case ProfileNotActive => NoDetail
    case ProfileNotConfirmed => NoDetail
    case WorkTypeMismatch => TypeDetail(a.opportunityType, prefs.workTypes.value)
    case ExcludedCategory => TermDetail(OptionalIdentity(text, a.category).value, prefs.excludedCategories.value)
    case LanguageMismatch => TermDetail(OptionalIdentity(text, a.language).value, prefs.languages.value)
    case GeographyMismatch => TermDetail(OptionalIdentity(text, a.location).value, prefs.geographies.value)
    case WorkModeMismatch => ModeDetail(WorkModeOf(a).value, prefs.workModes.value)
    case BudgetNotExplicit => NoDetail
    case BudgetBelowMinimum => AmountDetail(MaximumBudget(a.budget), prefs.minimumBudget.value)
  }

  function FailureOf(text: Text, o: Opportunity, p: Profile, code: HardFilterCode): seq<HardFilterFailure> {
    if Violates(text, o, p, code) then [HardFilterFailure(code, DetailOf(text, o, p, code))] else []
  }

  function StatusFailures(text: Text, o: Opportunity, p: Profile): seq<HardFilterFailure> {
    FailureOf(text, o, p, OpportunityNotActive) + FailureOf(text, o, p, ProfileNotActive)
    + FailureOf(text, o, p, ProfileNotConfirmed)
  }

  function KindFailures(text: Text, o: Opportunity, p: Profile): seq<HardFilterFailure> {
    FailureOf(text, o, p, WorkTypeMismatch) + FailureOf(text, o, p, ExcludedCategory)
  }

  function PlaceFailures(text: Text, o: Opportunity, p: Profile): seq<HardFilterFailure> {
    FailureOf(text, o, p, LanguageMismatch) + FailureOf(text, o, p, GeographyMismatch)
    + FailureOf(text, o, p, WorkModeMismatch)
  }

  function BudgetFailures(text: Text, o: Opportunity, p: Profile): seq<HardFilterFailure> {
    FailureOf(text, o, p, BudgetNotExplicit) + FailureOf(text, o, p, BudgetBelowMinimum)
  }

  /** The violated rules with their details, in check order. */
  function Failures(text: Text, o: Opportunity, p: Profile): seq<HardFilterFailure> {
    StatusFailures(text, o, p) + KindFailures(text, o, p) + PlaceFailures(text, o, p) + BudgetFailures(text, o, p)
  }

  predicate IsUnknown(text: Text, o: Opportunity, p: Profile, field: UnknownField) {
    var a, prefs := o.analysis, p.preferences;
    match field
    case OpportunityTypeField => a.opportunityType.UnknownA?
    case CategoryField => OptionalIdentity(text, a.category).None?
    case LanguageField => OptionalIdentity(text, a.language).None?
    case GeographyField => OptionalIdentity(text, a.location).None?
    case WorkModeField => WorkModeOf(a).None?
    case BudgetField => !a.budget.known
    case BudgetCurrencyField => a.budget.known && prefs.minimumBudget.Some? && !SameCurrency(text, a.budget, prefs)
  }

  function UnknownOf(text: Text, o: Opportunity, p: Profile, field: UnknownField): seq<UnknownField> {
    if IsUnknown(text, o, p, field) then [field] else []
  }

  function KindUnknowns(text: Text, o: Opportunity, p: Profile): seq<UnknownField> {
    UnknownOf(text, o, p, OpportunityTypeField) + UnknownOf(text, o, p, CategoryField)
  }

  function PlaceUnknowns(text: Text, o: Opportunity, p: Profile): seq<UnknownField> {
    UnknownOf(text, o, p, LanguageField) + UnknownOf(text, o, p, GeographyField)
    + UnknownOf(text, o, p, WorkModeField)
  }

  function BudgetUnknowns(text: Text, o: Opportunity, p: Profile): seq<UnknownField> {
    UnknownOf(text, o, p, BudgetField) + UnknownOf(text, o, p, BudgetCurrencyField)
  }

  method EvaluateTermConstraint(text: Text, failures: seq<HardFilterFailure>, unknowns: seq<UnknownField>,
                                value: Option<string>, terms: Option<seq<string>>,
                                code: HardFilterCode, unknownField: UnknownField)
    returns (failures': seq<HardFilterFailure>, unknowns': seq<UnknownField>)
    ensures failures' == failures +
                         if KnownTermMismatch(text, value, terms)
                         then [HardFilterFailure(code, TermDetail(OptionalIdentity(text, value).value, terms.value))]
                         else []
    ensures unknowns' == unknowns + if OptionalIdentity(text, value).None? then [unknownField] else []
  {
    failures', unknowns' := failures, unknowns;
    var identity := OptionalIdentity(text, value);
    if identity.None? {
      unknowns' := unknowns' + [unknownField];
      return;
    }
    if terms.None? {
      return;
    }
    if identity.value !in terms.value {
      failures' := failures' + [HardFilterFailure(code, TermDetail(identity.value, terms.value))];
    }
  }

  method EvaluateStatus(text: Text, o: Opportunity, p: Profile) returns (failures: seq<HardFilterFailure>)
    ensures failures == StatusFailures(text, o, p)
  {
    failures := [];
    if !o.lifecycle.Active? {
      failures := failures + [HardFilterFailure(OpportunityNotActive, LifecycleDetail(o.lifecycle))];
    }
    if !p.isActive {
      failures := failures + [HardFilterFailure(ProfileNotActive, NoDetail)];
    }
    if !p.confirmed {
      failures := failures + [HardFilterFailure(ProfileNotConfirmed, NoDetail)];
    }
  }

  method EvaluateKind(text: Text, o: Opportunity, p: Profile)
    returns (failures: seq<HardFilterFailure>, unknowns: seq<UnknownField>)
    ensures failures == KindFailures(text, o, p) && unknowns == KindUnknowns(text, o, p)
  {
    failures, unknowns := [], [];
    var a, prefs := o.analysis, p.preferences;
    var profileType := ProfileType(a.opportunityType);
    if a.opportunityType.UnknownA? {
      unknowns := unknowns + [OpportunityTypeField];
    } else if prefs.workTypes.Some? && (profileType.None? || profileType.value !in prefs.workTypes.value) {
      failures := failures +
                  [HardFilterFailure(WorkTypeMismatch, TypeDetail(a.opportunityType, prefs.workTypes.value))];
    }
    assert failures == FailureOf(text, o, p, WorkTypeMismatch);
    var category := OptionalIdentity(text, a.category);
    if category.None? {
      unknowns := unknowns + [CategoryField];
    } else if prefs.excludedCategories.Some? {
      var excluded := prefs.excludedCategories.value;
      if category.value in excluded {
        failures := failures + [HardFilterFailure(ExcludedCategory, TermDetail(category.value, excluded))];
      }
    }
  }

  method EvaluatePlace(text: Text, o: Opportunity, p: Profile)
    returns (failures: seq<HardFilterFailure>, unknowns: seq<UnknownField>)
    ensures failures == PlaceFailures(text, o, p) && unknowns == PlaceUnknowns(text, o, p)
  {
    failures, unknowns := [], [];
    var a, prefs := o.analysis, p.preferences;
    failures, unknowns := EvaluateTermConstraint(text, failures, unknowns, a.language, prefs.languages,
                                                 LanguageMismatch, LanguageField);
    failures, unknowns := EvaluateTermConstraint(text, failures, unknowns, a.location, prefs.geographies,
                                                 GeographyMismatch, GeographyField);
    var workMode := WorkModeOf(a);
    if workMode.None? {
      unknowns := unknowns + [WorkModeField];
    } else if prefs.workModes.Some? && workMode.value !in prefs.workModes.value {
      failures := failures + [HardFilterFailure(WorkModeMismatch, ModeDetail(workMode.value, prefs.workModes.value))];
    }
  }

  method EvaluateBudget(text: Text, o: Opportunity, p: Profile)
    returns (failures: seq<HardFilterFailure>, unknowns: seq<UnknownField>)
    ensures failures == BudgetFailures(text, o, p) && unknowns == BudgetUnknowns(text, o, p)
  {
    failures, unknowns := [], [];
    var budget, prefs := o.analysis.budget, p.preferences;
    if !budget.known {
      unknowns := unknowns + [BudgetField];
      if prefs.budgetPolicy == Some(RequireExplicit) && !budget.explicit {
        failures := failures + [HardFilterFailure(BudgetNotExplicit, NoDetail)];
      }
    } else if prefs.minimumBudget.Some? {
      if budget.currency.None? || Some(text.upper(budget.currency.value)) != prefs.currency {
        unknowns := unknowns + [BudgetCurrencyField];
      } else {
        var comparable := MaximumBudget(budget);
        if comparable < prefs.minimumBudget.value {
          failures := failures +
                      [HardFilterFailure(BudgetBelowMinimum, AmountDetail(comparable, prefs.minimumBudget.value))];
        }
      }
    }
  }

  /** Reports exactly the violated rules, in check order with their details, and every field not comparable. */
  method EvaluateHardFilters(text: Text, o: Opportunity, p: Profile) returns (d: HardFilterDecision)
    ensures d == Decide(text, o, p)
    ensures d.eligible <==> Acceptable(text, o, p)
    ensures forall code :: Reports(d, code) <==> Violates(text, o, p, code)
  {
    hide Violates, Acceptable;
    ReportsViolations(text, o, p);
    var failures := EvaluateStatus(text, o, p);
    var kindFailures, unknowns := EvaluateKind(text, o, p);
    var placeFailures, placeUnknowns := EvaluatePlace(text, o, p);
    var budgetFailures, budgetUnknowns := EvaluateBudget(text, o, p);
    failures := failures + kindFailures + placeFailures + budgetFailures;
    unknowns := unknowns + placeUnknowns + budgetUnknowns;
    UnknownsDistinct(text, o, p);
    FromKeysOfDistinct(unknowns);
    d := HardFilterDecision(p, failures == [], failures, FromKeys(unknowns));
  }

  /** The decision names a failure of this kind. */
  predicate Reports(d: HardFilterDecision, code: HardFilterCode) { exists f :: f in d.failures && f.code == code }

  function Decide(text: Text, o: Opportunity, p: Profile): (d: HardFilterDecision)
    ensures d.profile == p
  {
    var failures := Failures(text, o, p);
    HardFilterDecision(p, failures == [], failures,
                       KindUnknowns(text, o, p) + PlaceUnknowns(text, o, p) + BudgetUnknowns(text, o, p))
  }

  lemma UnknownsDistinct(text: Text, o: Opportunity, p: Profile)
    ensures NoDup(KindUnknowns(text, o, p) + PlaceUnknowns(text, o, p) + BudgetUnknowns(text, o, p))
  {
    var kind, place, budget := KindUnknowns(text, o, p), PlaceUnknowns(text, o, p), BudgetUnknowns(text, o, p);
    UnknownsOfParts(text, o, p);
    hide KindUnknowns, PlaceUnknowns, BudgetUnknowns;
    NoDupConcat(kind, place);
    NoDupConcat(kind + place, budget);
  }

  lemma UnknownsOfParts(text: Text, o: Opportunity, p: Profile)
    ensures NoDup(KindUnknowns(text, o, p)) && NoDup(PlaceUnknowns(text, o, p)) && NoDup(BudgetUnknowns(text, o, p))
    ensures forall u :: u in KindUnknowns(text, o, p) ==> u in {OpportunityTypeField, CategoryField}
    ensures forall u :: u in PlaceUnknowns(text, o, p) ==> u in {LanguageField, GeographyField, WorkModeField}
    ensures forall u :: u in BudgetUnknowns(text, o, p) ==> u in {BudgetField, BudgetCurrencyField}
  {
    hide IsUnknown;
  }

  lemma FailuresSplit(text: Text, o: Opportunity, p: Profile, code: HardFilterCode)
    ensures |FailureOf(text, o, p, code)| <= |Failures(text, o, p)|
    ensures forall f :: f in FailureOf(text, o, p, code) ==> f in Failures(text, o, p) && f.code == code
  {
    var s, k := StatusFailures(text, o, p), KindFailures(text, o, p);
    var w, b := PlaceFailures(text, o, p), BudgetFailures(text, o, p);
    match code
    case OpportunityNotActive | ProfileNotActive | ProfileNotConfirmed =>
      assert forall f :: f in FailureOf(text, o, p, code) ==> f in s;
    case WorkTypeMismatch | ExcludedCategory =>
      assert forall f :: f in FailureOf(text, o, p, code) ==> f in k;
    case BudgetNotExplicit | BudgetBelowMinimum =>
      assert forall f :: f in FailureOf(text, o, p, code) ==> f in b;
    case _ =>
      assert forall f :: f in FailureOf(text, o, p, code) ==> f in w;
  }

  /** A code is reported exactly when its rule is violated. */
  lemma FailuresReportViolations(text: Text, o: Opportunity, p: Profile, code: HardFilterCode)
    ensures (exists f :: f in Failures(text, o, p) && f.code == code) <==> Violates(text, o, p, code)
  {
    FailuresSplit(text, o, p, code);
    if Violates(text, o, p, code) {
      assert FailureOf(text, o, p, code)[0] in Failures(text, o, p);
    }
    hide Violates, FailureOf, Failures;
    forall f | f in Failures(text, o, p)
      ensures Violates(text, o, p, f.code)
    {
      ReportedIsViolated(text, o, p, f);
    }
  }

  lemma ReportedIsViolated(text: Text, o: Opportunity, p: Profile, f: HardFilterFailure)
    requires f in Failures(text, o, p)
    ensures Violates(text, o, p, f.code)
  {
    FailuresAreOwn(text, o, p);
    hide Violates, FailureOf;
  }

  lemma FailuresAreOwn(text: Text, o: Opportunity, p: Profile)
    ensures forall code, f :: f in FailureOf(text, o, p, code) ==> f.code == code && Violates(text, o, p, code)
  {
    hide Violates, DetailOf;
    forall code, f | f in FailureOf(text, o, p, code)
      ensures f.code == code && Violates(text, o, p, code)
    {
      FailureIsOwn(text, o, p, code, f);
    }
  }

  lemma FailureIsOwn(text: Text, o: Opportunity, p: Profile, code: HardFilterCode, f: HardFilterFailure)
    requires f in FailureOf(text, o, p, code)
    ensures f.code == code && Violates(text, o, p, code)
  {
    hide Violates, DetailOf;
  }

  lemma ReportsViolations(text: Text, o: Opportunity, p: Profile)
    ensures Decide(text, o, p).eligible <==> Acceptable(text, o, p)
    ensures forall code :: Reports(Decide(text, o, p), code) <==> Violates(text, o, p, code)
  {
    EligibleIffAcceptable(text, o, p);
    forall code
      ensures Reports(Decide(text, o, p), code) <==> Violates(text, o, p, code)
    {
      FailuresReportViolations(text, o, p, code);
    }
  }

  lemma EligibleIffAcceptable(text: Text, o: Opportunity, p: Profile)
    ensures Decide(text, o, p).eligible <==> Acceptable(text, o, p)
  {
    var failures := Failures(text, o, p);
    if failures != [] {
      assert failures[0] in failures;
      FailuresReportViolations(text, o, p, failures[0].code);
    }
    forall code: HardFilterCode
      ensures Violates(text, o, p, code) ==> failures != []
    {
      FailuresReportViolations(text, o, p, code);
    }
  }

  // --- narrowing -------------------------------------------------------------

  datatype ExclusionCode = NoTargetOverlap | ExcludedWorkType | ExcludedLanguage | ExcludedGeography

  datatype CandidateExclusion = CandidateExclusion(profileId: nat, code: ExclusionCode)

  datatype NarrowingResult = NarrowingResult(
    opportunityId: nat, opportunityEligible: bool,
    decisions: seq<HardFilterDecision>, eligibleProfiles: seq<Profile>,
    activeCount: nat, narrowedCount: nat, exclusions: seq<CandidateExclusion>)

  /** The identities among optional values, in order; the source collects them into a frozenset. */
  function Identities(text: Text, values: seq<Option<string>>): seq<string> {
    if values == [] then []
    else
      (if OptionalIdentity(text, values[0]).Some? then [OptionalIdentity(text, values[0]).value] else [])
      + Identities(text, values[1..])
  }

  function Somes(values: seq<string>): seq<Option<string>> {
    seq(|values|, i requires 0 <= i < |values| => Some(values[i]))
  }

  function OpportunityTargets(text: Text, a: Analysis): seq<string> {
    Identities(text, [a.category, a.roleTitle] + Somes(a.skills))
  }

  function ProfileTargets(p: Profile): seq<string> {
    p.categories + p.roles + p.skills
  }

  /** Targets overlap, or one side names none. */
  predicate TargetsCompatible(text: Text, a: Analysis, p: Profile) {
    var ot, pt := OpportunityTargets(text, a), ProfileTargets(p);
    ot == [] || pt == [] || LabelsHaveOverlap(text.lexicon, ot, pt)
  }

  /** Compatibility is a property of the two sets of targets, as the source's frozensets have no order. */
  lemma CompatibilityIgnoresOrder(text: Text, a: Analysis, p: Profile, b: Analysis, q: Profile)
    requires forall x :: x in OpportunityTargets(text, a) <==> x in OpportunityTargets(text, b)
    requires forall x :: x in ProfileTargets(p) <==> x in ProfileTargets(q)
    ensures TargetsCompatible(text, a, p) == TargetsCompatible(text, b, q)
  {
    hide LabelsHaveOverlap, OpportunityTargets, ProfileTargets;
    SameEmptiness(OpportunityTargets(text, a), OpportunityTargets(text, b));
    SameEmptiness(ProfileTargets(p), ProfileTargets(q));
    OverlapIgnoresOrder(text.lexicon, OpportunityTargets(text, a), ProfileTargets(p),
                        OpportunityTargets(text, b), ProfileTargets(q));
  }

  lemma SameEmptiness(a: seq<string>, b: seq<string>)
    requires forall x :: x in a <==> x in b
    ensures a == [] <==> b == []
  {
    if a != [] {
      assert a[0] in b;
    }
    if b != [] {
      assert b[0] in a;
    }
  }

  function ExclusionOf(text: Text, a: Analysis, p: Profile): Option<ExclusionCode> {
    var profileType, prefs := ProfileType(a.opportunityType), p.preferences;
    if !a.opportunityType.UnknownA? && prefs.workTypes.Some? &&
       (profileType.None? || profileType.value !in prefs.workTypes.value)
    then Some(ExcludedWorkType)
    else if KnownTermMismatch(text, a.language, prefs.languages) then Some(ExcludedLanguage)
    else if KnownTermMismatch(text, a.location, prefs.geographies) then Some(ExcludedGeography)
    else
      var ot, pt := OpportunityTargets(text, a), ProfileTargets(p);
      if ot != [] && pt != [] && !LabelsHaveOverlap(text.lexicon, ot, pt) then Some(NoTargetOverlap) else None
  }

  function FilterCodeOf(code: ExclusionCode): Option<HardFilterCode> {
    match code
    case NoTargetOverlap => None
    case ExcludedWorkType => Some(WorkTypeMismatch)
    case ExcludedLanguage => Some(LanguageMismatch)
    case ExcludedGeography => Some(GeographyMismatch)
  }

  /** An exclusion for work type, language or geography is a hard-filter failure under the same name. */
  lemma ExclusionIsHardFailure(text: Text, o: Opportunity, p: Profile)
    requires ExclusionOf(text, o.analysis, p).Some?
    ensures var code := FilterCodeOf(ExclusionOf(text, o.analysis, p).value);
            if code.Some? then Violates(text, o, p, code.value) && !Acceptable(text, o, p)
            else !TargetsCompatible(text, o.analysis, p)
  {
    hide OptionalIdentity, OpportunityTargets, ProfileTargets, LabelsHaveOverlap, ProfileType;
  }

  /** For an acceptable profile only missing target overlap can exclude it. */
  lemma ExclusionOfAcceptable(text: Text, o: Opportunity, p: Profile)
    requires Acceptable(text, o, p)
    ensures ExclusionOf(text, o.analysis, p).None? <==> TargetsCompatible(text, o.analysis, p)
  {
    OnlyTargetsExclude(text, o, p);
    hide ExclusionOf, TargetsCompatible, Acceptable;
  }

  lemma OnlyTargetsExclude(text: Text, o: Opportunity, p: Profile)
    requires Acceptable(text, o, p)
    ensures ExclusionOf(text, o.analysis, p)
         == if TargetsCompatible(text, o.analysis, p) then None else Some(NoTargetOverlap)
  {
    hide LabelsHaveOverlap, OpportunityTargets, ProfileTargets;
    assert !Violates(text, o, p, WorkTypeMismatch);
    assert !Violates(text, o, p, LanguageMismatch);
    assert !Violates(text, o, p, GeographyMismatch);
  }

  ghost function Passing(text: Text, o: Opportunity): Profile -> bool { p => Decide(text, o, p).eligible }

  /** The one filter that narrowing followed by hard filtering computes. */
  predicate Eligible(text: Text, o: Opportunity, p: Profile) {
    Acceptable(text, o, p) && TargetsCompatible(text, o.analysis, p)
  }

  predicate Listed(p: Profile) { p.isActive && p.confirmed }

  predicate Narrowed(text: Text, o: Opportunity, p: Profile) {
    Listed(p) && o.lifecycle.Active? && ExclusionOf(text, o.analysis, p).None?
  }

  lemma EligibleSurvivesNarrowing(text: Text, o: Opportunity, p: Profile)
    ensures Eligible(text, o, p) <==> Narrowed(text, o, p) && Decide(text, o, p).eligible
  {
    EligibleIffAcceptable(text, o, p);
    if Acceptable(text, o, p) {
      ExclusionOfAcceptable(text, o, p);
      assert !Violates(text, o, p, OpportunityNotActive);
      assert !Violates(text, o, p, ProfileNotActive);
      assert !Violates(text, o, p, ProfileNotConfirmed);
    }
  }

  /** Sorts the listed profiles of an active opportunity into candidates and exclusions. */
  method NarrowListed(text: Text, o: Opportunity, listed: seq<Profile>)
    returns (candidates: seq<Profile>, exclusions: seq<CandidateExclusion>)
    requires o.lifecycle.Active? && forall p :: p in listed ==> Listed(p)
    ensures candidates == Filter(listed, p => Narrowed(text, o, p))
    ensures exclusions == Exclusions(text, o, listed)
  {
    candidates, exclusions := [], [];
    ghost var narrowed := p => Narrowed(text, o, p);
    for i := 0 to |listed|
      invariant candidates == Filter(listed[..i], narrowed)
      invariant exclusions == Exclusions(text, o, listed[..i])
    {
      var p := listed[i];
      var exclusion := ExclusionOf(text, o.analysis, p);
      assert listed[..i + 1] == listed[..i] + [p];
      FilterPush(listed[..i], p, narrowed);
      ExclusionsPush(text, o, listed[..i], p);
      if exclusion.None? {
        candidates := candidates + [p];
      } else {
        exclusions := exclusions + [CandidateExclusion(p.id, exclusion.value)];
      }
    }
    assert listed[..|listed|] == listed;
  }

  method DecideCandidates(text: Text, o: Opportunity, candidates: seq<Profile>)
    returns (decisions: seq<HardFilterDecision>, eligible: seq<Profile>)
    ensures decisions == Decisions(text, o, candidates)
    ensures eligible == Filter(candidates, Passing(text, o))
  {
    hide Decide, Filter;
    decisions, eligible := [], [];
    assert Filter(candidates[..0], Passing(text, o)) == [] by { NoneFiltered(Passing(text, o)); }
    assert candidates[..0] == [];
    for i := 0 to |candidates|
      invariant decisions == Decisions(text, o, candidates[..i])
      invariant eligible == Filter(candidates[..i], Passing(text, o))
    {
      var d := EvaluateHardFilters(text, o, candidates[i]);
      assert candidates[..i + 1] == candidates[..i] + [candidates[i]];
      FilterPush(candidates[..i], candidates[i], Passing(text, o));
      DecisionsPush(text, o, candidates[..i], candidates[i]);
      assert Passing(text, o)(candidates[i]) == d.eligible;
      decisions := decisions + [d];
      if d.eligible {
        eligible := eligible + [d.profile];
      }
    }
    assert candidates[..|candidates|] == candidates;
  }

  lemma NoneFiltered(keep: Profile -> bool)
    ensures Filter([], keep) == []
  {
  }

  lemma DecisionsPush(text: Text, o: Opportunity, ps: seq<Profile>, p: Profile)
    ensures Decisions(text, o, ps + [p]) == Decisions(text, o, ps) + [Decide(text, o, p)]
  {
  }

  /** Eligible profiles are, in input order, exactly those passing the one filter. */
  method NarrowAndFilterCandidates(text: Text, o: Opportunity, profiles: seq<Profile>) returns (r: NarrowingResult)
    ensures r == Narrowing(text, o, profiles)
  {
    var active := Filter(profiles, Listed);
    var candidates: seq<Profile>, exclusions: seq<CandidateExclusion> := [], [];
    ListedFirst(text, o, profiles);
    if o.lifecycle.Active? {
      candidates, exclusions := NarrowListed(text, o, active);
    } else {
      NothingNarrowed(text, o, profiles);
    }
    var decisions, eligible := DecideCandidates(text, o, candidates);
    EligibleAmongNarrowed(text, o, profiles);
    r := NarrowingResult(o.id, o.lifecycle.Active?, decisions, eligible, |active|, |candidates|, exclusions);
  }

  function Narrowing(text: Text, o: Opportunity, profiles: seq<Profile>): NarrowingResult {
    var narrowed := Filter(profiles, p => Narrowed(text, o, p));
    NarrowingResult(
      o.id, o.lifecycle.Active?,
      Decisions(text, o, narrowed),
      Filter(profiles, p => Eligible(text, o, p)),
      |Filter(profiles, Listed)|, |narrowed|,
      Exclusions(text, o, profiles))
  }

  function Decisions(text: Text, o: Opportunity, ps: seq<Profile>): (r: seq<HardFilterDecision>)
    ensures |r| == |ps|
  {
    seq(|ps|, i requires 0 <= i < |ps| => Decide(text, o, ps[i]))
  }

  /** One exclusion a listed profile that narrowing drops, in input order. */
  function Exclusions(text: Text, o: Opportunity, ps: seq<Profile>): seq<CandidateExclusion> {
    if ps == [] then []
    else
      (if Listed(ps[0]) && o.lifecycle.Active? && ExclusionOf(text, o.analysis, ps[0]).Some?
       then [CandidateExclusion(ps[0].id, ExclusionOf(text, o.analysis, ps[0]).value)] else [])
      + Exclusions(text, o, ps[1..])
  }

  lemma {:induction false} ExclusionsPush(text: Text, o: Opportunity, a: seq<Profile>, p: Profile)
    ensures Exclusions(text, o, a + [p]) == Exclusions(text, o, a) + Exclusions(text, o, [p])
  {
    if a == [] {
      assert a + [p] == [p];
    } else {
      assert (a + [p])[0] == a[0] && (a + [p])[1..] == a[1..] + [p];
      ExclusionsPush(text, o, a[1..], p);
    }
  }

  lemma {:induction false} NothingNarrowed(text: Text, o: Opportunity, ps: seq<Profile>)
    requires !o.lifecycle.Active?
    ensures Filter(ps, p => Narrowed(text, o, p)) == []
    ensures Exclusions(text, o, ps) == []
  {
    if ps != [] {
      NothingNarrowed(text, o, ps[1..]);
    }
  }

  /** Narrowing the listed profiles is narrowing them all. */
  lemma {:induction false} ListedFirst(text: Text, o: Opportunity, ps: seq<Profile>)
    ensures Filter(Filter(ps, Listed), p => Narrowed(text, o, p)) == Filter(ps, p => Narrowed(text, o, p))
    ensures Exclusions(text, o, Filter(ps, Listed)) == Exclusions(text, o, ps)
  {
    if ps != [] {
      ListedFirst(text, o, ps[1..]);
      if Listed(ps[0]) {
        assert Filter(ps, Listed)[1..] == Filter(ps[1..], Listed);
      }
    }
  }

  lemma {:induction false} EligibleAmongNarrowed(text: Text, o: Opportunity, ps: seq<Profile>)
    ensures Filter(Filter(ps, p => Narrowed(text, o, p)), Passing(text, o))
         == Filter(ps, p => Eligible(text, o, p))
  {
    if ps != [] {
      EligibleAmongNarrowed(text, o, ps[1..]);
      EligibleSurvivesNarrowing(text, o, ps[0]);
      if Narrowed(text, o, ps[0]) {
        assert Filter(ps, p => Narrowed(text, o, p))[1..] == Filter(ps[1..], p => Narrowed(text, o, p));
      }
    }
  }

  /** A specific target named on both sides is never narrowed away for lack of overlap. */
  lemma SharedTargetNeverDropped(text: Text, o: Opportunity, p: Profile, target: string)
    requires target in OpportunityTargets(text, o.analysis) && target in ProfileTargets(p)
    requires IsSpecific(text.lexicon, target)
    ensures ExclusionOf(text, o.analysis, p) != Some(NoTargetOverlap)
    ensures Acceptable(text, o, p) ==> Eligible(text, o, p)
  {
    SharedTargetCompatible(text, o.analysis, p, target);
    CompatibleNotExcluded(text, o.analysis, p);
    hide TargetsCompatible, Acceptable, ExclusionOf;
  }

  lemma SharedTargetCompatible(text: Text, a: Analysis, p: Profile, target: string)
    requires target in OpportunityTargets(text, a) && target in ProfileTargets(p) && IsSpecific(text.lexicon, target)
    ensures TargetsCompatible(text, a, p)
  {
    hide LabelsHaveOverlap, OpportunityTargets, ProfileTargets;
    SharedLabelOverlaps(text.lexicon, OpportunityTargets(text, a), ProfileTargets(p), target);
  }

  lemma CompatibleNotExcluded(text: Text, a: Analysis, p: Profile)
    requires TargetsCompatible(text, a, p)
    ensures ExclusionOf(text, a, p) != Some(NoTargetOverlap)
  {
    hide LabelsHaveOverlap, OpportunityTargets, ProfileTargets, KnownTermMismatch, ProfileType;
  }
}
