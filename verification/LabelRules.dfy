/** When labels are similar and when targets overlap, said of the labels themselves. */
module LabelRules {
  import opened Decimals
  import opened Sequences
  import opened LexicalMatching
  import opened Matching

  // --- similarity ------------------------------------------------------------------

  /** Equivalent tokens on the two sides, in any combination. */
  ghost predicate TokensMeet(lex: Lexicon, left: string, right: string) {
    exists l, r :: l in lex.tokens(left) && r in lex.tokens(right) && lex.equivalent(l, r)
  }

  /** `short` is the one token that the words of `long` abbreviate to. */
  ghost predicate Abbreviates(lex: Lexicon, short: string, long: string) {
    var words := lex.tokens(long);
    && |lex.tokens(short)| == 1 && |words| >= 2 && |lex.tokens(short)[0]| == |words|
    && forall i :: 0 <= i < |words| ==> words[i] != "" && lex.tokens(short)[0][i] == words[i][0]
  }

  /** No token is blank. */
  ghost predicate Worded(lex: Lexicon, name: string) { forall w :: w in lex.tokens(name) ==> w != "" }

  lemma {:induction false} InitialsOfWords(words: seq<string>)
    requires forall i :: 0 <= i < |words| ==> words[i] != ""
    ensures |Initials(words)| == |words| && forall i :: 0 <= i < |words| ==> Initials(words)[i] == words[i][0]
  {
    if words != [] {
      InitialsOfWords(words[1..]);
    }
  }

  lemma AbbreviationIsAcronym(lex: Lexicon, short: string, long: string)
    ensures Abbreviates(lex, short, long)
            ==> |lex.tokens(short)| == 1 && Acronym(lex.tokens(long)) == Some(lex.tokens(short)[0])
    ensures Worded(lex, long) && |lex.tokens(short)| == 1 && Acronym(lex.tokens(long)) == Some(lex.tokens(short)[0])
            ==> Abbreviates(lex, short, long)
  {
    var words := lex.tokens(long);
    if Abbreviates(lex, short, long) || Worded(lex, long) {
      assert forall i :: 0 <= i < |words| ==> words[i] in words;
      InitialsOfWords(words);
      if Abbreviates(lex, short, long) {
        assert Initials(words) == lex.tokens(short)[0];
      }
    }
  }

  /** Labels that normalize alike, or of which one abbreviates the other, are fully similar. */
  lemma AlikeIsFullySimilar(lex: Lexicon, left: string, right: string)
    requires lex.normal(left) == lex.normal(right) || Abbreviates(lex, left, right) || Abbreviates(lex, right, left)
    ensures LabelSimilarity(lex, left, right) == 10_000
  {
    AbbreviationIsAcronym(lex, left, right);
    AbbreviationIsAcronym(lex, right, left);
    hide Abbreviates;
  }

  /** Any others are as similar as their tokens' pairing: 2m/(L+R), rounded, for m pairs, of which there
      is one exactly when some token of the one is equivalent to a token of the other. */
  lemma SimilarityCountsTokens(lex: Lexicon, left: string, right: string)
    requires lex.normal(left) != lex.normal(right) && Worded(lex, left) && Worded(lex, right)
    requires !Abbreviates(lex, left, right) && !Abbreviates(lex, right, left)
    ensures var lt, rt := lex.tokens(left), lex.tokens(right);
            var m := |ConceptMatching(lex, lt, rt)|;
            && (m > 0 <==> TokensMeet(lex, left, right))
            && (m == 0 ==> LabelSimilarity(lex, left, right) == 0)
            && (m > 0 ==> LabelSimilarity(lex, left, right) == RoundHalfEven(2 * m * 10_000, |lt| + |rt|))
  {
    hide *;
    UnlikeLabelsPair(lex, left, right);
    var lt, rt := lex.tokens(left), lex.tokens(right);
    PairingMeets(lex, left, right);
    F1OfPairs(|ConceptMatching(lex, lt, rt)|, |lt|, |rt|);
  }

  lemma UnlikeLabelsPair(lex: Lexicon, left: string, right: string)
    requires lex.normal(left) != lex.normal(right) && Worded(lex, left) && Worded(lex, right)
    requires !Abbreviates(lex, left, right) && !Abbreviates(lex, right, left)
    ensures var lt, rt := lex.tokens(left), lex.tokens(right);
            LabelSimilarity(lex, left, right) == F1FromMatchCount(|ConceptMatching(lex, lt, rt)|, |lt|, |rt|)
  {
    AbbreviationIsAcronym(lex, left, right);
    AbbreviationIsAcronym(lex, right, left);
    hide Acronym, Abbreviates, Worded, ConceptMatching, F1FromMatchCount;
  }

  lemma F1OfPairs(m: nat, l: nat, r: nat)
    requires m <= l && m <= r
    ensures F1FromMatchCount(m, l, r) == if m == 0 then 0 else RoundHalfEven(2 * m * 10_000, l + r)
  {
    if m > 0 {
      F1IsHarmonicMean(m, l, r);
    }
  }

  lemma PairingMeets(lex: Lexicon, left: string, right: string)
    ensures var lt, rt := lex.tokens(left), lex.tokens(right);
            var m := |ConceptMatching(lex, lt, rt)|;
            (m > 0 <==> TokensMeet(lex, left, right)) && m <= |lt| && m <= |rt|
  {
    var lt, rt := lex.tokens(left), lex.tokens(right);
    var pairs := ConceptMatching(lex, lt, rt);
    GreedySound(ConceptWeight(lex), lt, rt);
    GreedyCount(ConceptWeight(lex), lt, rt);
    hide Greedy;
    if l, r :| l in lt && r in rt && lex.equivalent(l, r) {
      GreedyDominates(ConceptWeight(lex), lt, rt, l, r);
    }
    if pairs != [] {
      assert pairs[0] in pairs;
    }
  }

  // --- overlap ---------------------------------------------------------------------

  /** An equivalent concept of both labels that at least one of them has not as a generic one. */
  ghost predicate ShareSpecific(lex: Lexicon, left: string, right: string) {
    exists l, r :: l in lex.concepts(left) && r in lex.concepts(right) && lex.equivalent(l, r)
                   && (l !in GENERIC_TARGET_CONCEPTS || r !in GENERIC_TARGET_CONCEPTS)
  }

  ghost predicate WhollyGeneric(lex: Lexicon, labels: seq<string>) {
    forall name, c :: name in labels && c in lex.concepts(name) ==> c in GENERIC_TARGET_CONCEPTS
  }

  /** The pair makes no overlap by itself: it is less similar than 0.6, or shares only generic concepts
      and is either not fully similar or wholly generic on both sides. */
  ghost predicate Weak(lex: Lexicon, left: string, right: string) {
    var s := LabelSimilarity(lex, left, right);
    || s < 6_000
    || (!ShareSpecific(lex, left, right)
        && (s < 10_000 || (WhollyGeneric(lex, [left]) && WhollyGeneric(lex, [right]))))
  }

  lemma SpecificIsNotGeneric(lex: Lexicon, labels: seq<string>)
    ensures WhollyGeneric(lex, labels) <==> forall name :: name in labels ==> !IsSpecific(lex, name)
  {
  }

  lemma OneLabel(lex: Lexicon, name: string)
    ensures WhollyGeneric(lex, [name]) <==> !IsSpecific(lex, name)
  {
    SpecificIsNotGeneric(lex, [name]);
    assert name in [name];
  }

  /** Where both sides name something specific and no pair is more than weak, there is no overlap. */
  lemma WeakPairsDoNotOverlap(lex: Lexicon, left: seq<string>, right: seq<string>)
    requires !WhollyGeneric(lex, left) && !WhollyGeneric(lex, right)
    requires forall l, r :: l in left && r in right ==> Weak(lex, l, r)
    ensures !LabelsHaveOverlap(lex, left, right)
  {
    LabelMatchingSound(lex, left, right);
    SpecificIsNotGeneric(lex, left);
    SpecificIsNotGeneric(lex, right);
    hide LabelMatching, LabelSimilarity, IsSpecific, WhollyGeneric;
    forall e | e in LabelMatching(lex, left, right)
      ensures e.weight < 6_000 || !SharesSpecificConcept(lex, e.left, e.right)
      ensures e.weight < 10_000 || (!IsSpecific(lex, e.left) && !IsSpecific(lex, e.right))
    {
      assert Weak(lex, e.left, e.right);
      OneLabel(lex, e.left);
      OneLabel(lex, e.right);
    }
  }

  /** The pair is more similar than any other that uses one of its labels. */
  ghost predicate Best(lex: Lexicon, left: seq<string>, right: seq<string>, l: string, r: string) {
    && l in left && r in right && LabelSimilarity(lex, l, r) > 0
    && (forall x :: x in left && x != l ==> LabelSimilarity(lex, x, r) < LabelSimilarity(lex, l, r))
    && (forall y :: y in right && y != r ==> LabelSimilarity(lex, l, y) < LabelSimilarity(lex, l, r))
  }

  /** Such a pair is always matched. */
  lemma BestPairIsMatched(lex: Lexicon, left: seq<string>, right: seq<string>, l: string, r: string)
    requires Best(lex, left, right, l, r)
    ensures Edge(LabelSimilarity(lex, l, r), l, r) in LabelMatching(lex, left, right)
  {
    hide LabelSimilarity, LabelMatching;
    LabelMatchingMaximal(lex, left, right, l, r);
    LabelMatchingSound(lex, left, right);
    var m :| m in LabelMatching(lex, left, right) && m.weight >= LabelSimilarity(lex, l, r)
             && (m.left == l || m.right == r);
    assert m.weight == LabelSimilarity(lex, m.left, m.right);
  }

  lemma MatchOverlaps(lex: Lexicon, left: seq<string>, right: seq<string>, e: Edge)
    requires e in LabelMatching(lex, left, right)
    requires || (e.weight >= 6_000 && SharesSpecificConcept(lex, e.left, e.right))
             || (e.weight == 10_000 && (IsSpecific(lex, e.left) || IsSpecific(lex, e.right)))
    ensures LabelsHaveOverlap(lex, left, right)
  {
    hide LabelMatching, IsSpecific, SharesSpecificConcept;
  }

  lemma SharedConcept(lex: Lexicon, l: string, r: string)
    ensures ShareSpecific(lex, l, r) <==> SharesSpecificConcept(lex, l, r)
  {
  }

  /** A best pair of at least 0.6 with a specific concept in common makes an overlap, and so does a fully
      similar one with a specific label. */
  lemma BestPairOverlaps(lex: Lexicon, left: seq<string>, right: seq<string>, l: string, r: string)
    requires Best(lex, left, right, l, r)
    requires || (LabelSimilarity(lex, l, r) >= 6_000 && ShareSpecific(lex, l, r))
             || (LabelSimilarity(lex, l, r) == 10_000 && !WhollyGeneric(lex, [l, r]))
    ensures LabelsHaveOverlap(lex, left, right)
  {
    PairIsGeneric(lex, l, r);
    OneLabel(lex, l);
    OneLabel(lex, r);
    SharedConcept(lex, l, r);
    hide *;
    BestPairIsMatched(lex, left, right, l, r);
    MatchOverlaps(lex, left, right, Edge(LabelSimilarity(lex, l, r), l, r));
  }

  /** Where one side is wholly generic, one similar pair is an overlap. */
  lemma GenericSideOverlaps(lex: Lexicon, left: seq<string>, right: seq<string>, l: string, r: string)
    requires l in left && r in right && LabelSimilarity(lex, l, r) > 0
    requires WhollyGeneric(lex, left) || WhollyGeneric(lex, right)
    ensures LabelsHaveOverlap(lex, left, right)
  {
    LabelMatchingMaximal(lex, left, right, l, r);
    SpecificIsNotGeneric(lex, left);
    SpecificIsNotGeneric(lex, right);
    hide LabelMatching, LabelSimilarity, IsSpecific, SharesSpecificConcept;
  }

  /** One target on each side: exactly when they overlap. */
  lemma SingleTargetsOverlapIff(lex: Lexicon, l: string, r: string)
    ensures var s := LabelSimilarity(lex, l, r);
            LabelsHaveOverlap(lex, [l], [r])
            <==> || (s >= 6_000 && ShareSpecific(lex, l, r))
                 || (s == 10_000 && !WhollyGeneric(lex, [l, r]))
                 || (s > 0 && (WhollyGeneric(lex, [l]) || WhollyGeneric(lex, [r])))
  {
    var s := LabelSimilarity(lex, l, r);
    SimilarityRange(lex, l, r);
    PairIsGeneric(lex, l, r);
    hide LabelMatching, LabelSimilarity, LabelsHaveOverlap, WhollyGeneric, ShareSpecific;
    if s == 0 {
      NoSimilarPair(lex, l, r);
    } else if WhollyGeneric(lex, [l]) || WhollyGeneric(lex, [r]) {
      hide *;
      GenericSideOverlaps(lex, [l], [r], l, r);
    } else if (s >= 6_000 && ShareSpecific(lex, l, r)) || s == 10_000 {
      OnlyPairIsBest(lex, l, r);
      hide *;
      BestPairOverlaps(lex, [l], [r], l, r);
    } else {
      OnlyPairIsWeak(lex, l, r);
      hide *;
      WeakPairsDoNotOverlap(lex, [l], [r]);
    }
  }

  lemma NoSimilarPair(lex: Lexicon, l: string, r: string)
    requires LabelSimilarity(lex, l, r) == 0
    ensures !LabelsHaveOverlap(lex, [l], [r])
  {
    hide LabelSimilarity, LabelsHaveOverlap;
    if LabelsHaveOverlap(lex, [l], [r]) {
      OverlapNeedsSimilarPair(lex, [l], [r]);
    }
  }

  lemma OnlyPairIsBest(lex: Lexicon, l: string, r: string)
    requires LabelSimilarity(lex, l, r) > 0
    ensures Best(lex, [l], [r], l, r)
  {
    hide LabelSimilarity;
  }

  lemma OnlyPairIsWeak(lex: Lexicon, l: string, r: string)
    requires LabelSimilarity(lex, l, r) < 6_000
             || (LabelSimilarity(lex, l, r) < 10_000 && !ShareSpecific(lex, l, r))
    ensures forall x, y :: x in [l] && y in [r] ==> Weak(lex, x, y)
  {
    hide LabelSimilarity, ShareSpecific;
  }

  lemma PairIsGeneric(lex: Lexicon, l: string, r: string)
    ensures WhollyGeneric(lex, [l, r]) <==> WhollyGeneric(lex, [l]) && WhollyGeneric(lex, [r])
  {
    OneLabel(lex, l);
    OneLabel(lex, r);
    SpecificIsNotGeneric(lex, [l, r]);
    assert l in [l, r] && r in [l, r];
    hide IsSpecific, WhollyGeneric;
  }

  // --- exclusion for lack of overlap ---------------------------------------------------

  /** A profile that breaks no type or term rule is excluded for its targets when each side names
      something specific and no pair of targets is more than weak. */
  lemma WeakTargetsExclude(text: Text, o: Opportunity, p: Profile)
    requires !Violates(text, o, p, WorkTypeMismatch)
    requires !Violates(text, o, p, LanguageMismatch) && !Violates(text, o, p, GeographyMismatch)
    requires !WhollyGeneric(text.lexicon, OpportunityTargets(text, o.analysis))
    requires !WhollyGeneric(text.lexicon, ProfileTargets(p))
    requires forall l, r :: l in OpportunityTargets(text, o.analysis) && r in ProfileTargets(p) ==>
                              Weak(text.lexicon, l, r)
    ensures ExclusionOf(text, o.analysis, p) == Some(NoTargetOverlap) && !Eligible(text, o, p)
  {
    WeakPairsDoNotOverlap(text.lexicon, OpportunityTargets(text, o.analysis), ProfileTargets(p));
    NothingIsGeneric(text.lexicon);
    hide OpportunityTargets, ProfileTargets, LabelsHaveOverlap, WhollyGeneric, Violates, Weak, Eligible, ExclusionOf;
    assert !TargetsCompatible(text, o.analysis, p);
    IncompatibleTargetsExclude(text, o, p);
  }

  lemma NothingIsGeneric(lex: Lexicon)
    ensures WhollyGeneric(lex, [])
  {
  }

  lemma IncompatibleTargetsExclude(text: Text, o: Opportunity, p: Profile)
    requires !Violates(text, o, p, WorkTypeMismatch)
    requires !Violates(text, o, p, LanguageMismatch) && !Violates(text, o, p, GeographyMismatch)
    requires !TargetsCompatible(text, o.analysis, p)
    ensures ExclusionOf(text, o.analysis, p) == Some(NoTargetOverlap) && !Eligible(text, o, p)
  {
    hide OpportunityTargets, ProfileTargets, LabelsHaveOverlap, OptionalIdentity, Acceptable;
  }
}
