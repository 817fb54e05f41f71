/** Greedy weighted pairing of labels and of the concepts inside a label. */
module LexicalMatching {
  import opened Decimals
  import opened Sequences
  import opened Ordering

  /** What text normalization and tokenization yield for a label, kept abstract. */
  datatype Lexicon = Lexicon(
    normal: string -> string,
    tokens: string -> seq<string>,
    concepts: string -> set<string>,
    equivalent: (string, string) -> bool)

  datatype Edge = Edge(weight: int, left: string, right: string)

  const MINIMUM_TARGET_LABEL_SIMILARITY: int := 6000

  const GENERIC_TARGET_CONCEPTS: set<string> := {
    "develop", "developer", "job", "project", "работа", "разработчик",
    "specialist", "специалист", "work"
  }

  // --- candidates, their order, and the greedy pass ---------------------------

  /** Heaviest first; equal weights by left label, then right label. */
  predicate EdgeLe(a: Edge, b: Edge) {
    a.weight > b.weight ||
    (a.weight == b.weight &&
     (StrLt(a.left, b.left) || (a.left == b.left && StrLe(a.right, b.right))))
  }

  function Row(sim: (string, string) -> int, l: string, rs: seq<string>): (r: seq<Edge>)
    ensures forall e :: e in r <==> e.left == l && e.right in rs && e.weight == sim(l, e.right) != 0
  {
    if rs == [] then []
    else if sim(l, rs[0]) != 0 then [Edge(sim(l, rs[0]), l, rs[0])] + Row(sim, l, rs[1..])
    else Row(sim, l, rs[1..])
  }

  function Candidates(sim: (string, string) -> int, ls: seq<string>, rs: seq<string>): (r: seq<Edge>)
    ensures forall e :: e in r <==> e.left in ls && e.right in rs && e.weight == sim(e.left, e.right) != 0
  {
    if ls == [] then [] else Row(sim, ls[0], rs) + Candidates(sim, ls[1..], rs)
  }

  /** The greedy pass over sorted candidates. */
  function Take(cs: seq<Edge>, usedLeft: set<string>, usedRight: set<string>): seq<Edge> {
    if cs == [] then []
    else if cs[0].left in usedLeft || cs[0].right in usedRight then Take(cs[1..], usedLeft, usedRight)
    else [cs[0]] + Take(cs[1..], usedLeft + {cs[0].left}, usedRight + {cs[0].right})
  }

  function Greedy(sim: (string, string) -> int, ls: seq<string>, rs: seq<string>): seq<Edge> {
    Take(SortBy(Candidates(sim, ls, rs), EdgeLe), {}, {})
  }

  method CollectCandidates(sim: (string, string) -> int, ls: seq<string>, rs: seq<string>)
    returns (candidates: seq<Edge>)
    ensures candidates == Candidates(sim, ls, rs)
  {
    candidates := [];
    assert candidates + Candidates(sim, ls[0..], rs) == Candidates(sim, ls, rs) by {
      assert ls[0..] == ls;
    }
    assert Candidates(sim, ls[|ls|..], rs) == [];
    hide Candidates, Row;
    for i := 0 to |ls|
      invariant candidates + Candidates(sim, ls[i..], rs) == Candidates(sim, ls, rs)
    {
      CandidatesFrom(sim, ls, i, rs, candidates);
      candidates := CollectRow(sim, ls[i], rs, candidates);
    }
  }

  /** The inner loop: one left label against every right label. */
  method CollectRow(sim: (string, string) -> int, l: string, rs: seq<string>, before: seq<Edge>)
    returns (candidates: seq<Edge>)
    ensures candidates == before + Row(sim, l, rs)
  {
    candidates := before;
    for j := 0 to |rs|
      invariant candidates + Row(sim, l, rs[j..]) == before + Row(sim, l, rs)
    {
      assert rs[j..][0] == rs[j] && rs[j..][1..] == rs[j + 1..];
      var similarity := sim(l, rs[j]);
      if similarity != 0 {
        candidates := candidates + [Edge(similarity, l, rs[j])];
      }
    }
    assert rs[|rs|..] == [];
  }

  lemma CandidatesFrom(sim: (string, string) -> int, ls: seq<string>, i: nat, rs: seq<string>, before: seq<Edge>)
    requires i < |ls|
    ensures before + Candidates(sim, ls[i..], rs) == before + Row(sim, ls[i], rs) + Candidates(sim, ls[i + 1..], rs)
  {
    assert ls[i..][0] == ls[i] && ls[i..][1..] == ls[i + 1..];
  }

  method TakeGreedily(candidates: seq<Edge>) returns (matches: seq<Edge>)
    ensures matches == Take(candidates, {}, {})
  {
    var usedLeft: set<string>, usedRight: set<string> := {}, {};
    matches := [];
    for i := 0 to |candidates|
      invariant matches + Take(candidates[i..], usedLeft, usedRight) == Take(candidates, {}, {})
    {
      var e := candidates[i];
      if e.left in usedLeft || e.right in usedRight {
        continue;
      }
      usedLeft := usedLeft + {e.left};
      usedRight := usedRight + {e.right};
      matches := matches + [e];
    }
  }

  lemma EdgeOrder()
    ensures TotalPreorder(EdgeLe)
    ensures forall a, b :: EdgeLe(a, b) && EdgeLe(b, a) ==> a == b
  {
    forall a, b
      ensures EdgeLe(a, b) || EdgeLe(b, a)
      ensures EdgeLe(a, b) && EdgeLe(b, a) ==> a == b
    {
      StrTotal(a.left, b.left);
      StrTotal(a.right, b.right);
      if EdgeLe(a, b) && EdgeLe(b, a) {
        if a.left != b.left {
          StrAntisymmetric(a.left, b.left);
        }
        StrAntisymmetric(a.right, b.right);
      }
    }
    forall a, b, c | EdgeLe(a, b) && EdgeLe(b, c)
      ensures EdgeLe(a, c)
    {
      if a.weight == b.weight == c.weight {
        if StrLe(a.left, b.left) && StrLe(b.left, c.left) {
          StrTransitive(a.left, b.left, c.left);
          if a.left == c.left {
            StrAntisymmetric(a.left, b.left);
          }
        }
        if StrLe(a.right, b.right) && StrLe(b.right, c.right) {
          StrTransitive(a.right, b.right, c.right);
        }
      }
    }
  }

  ghost predicate HeaviestFirst(cs: seq<Edge>) {
    forall i, j :: 0 <= i < j < |cs| ==> cs[i].weight >= cs[j].weight
  }

  lemma SortedCandidates(cs: seq<Edge>)
    ensures HeaviestFirst(SortBy(cs, EdgeLe))
  {
    EdgeOrder();
    SortSorted(cs, EdgeLe);
  }

  // --- what the greedy pass guarantees ---------------------------------------

  /** Each label on either side is used at most once. */
  ghost predicate IsMatching(m: seq<Edge>) {
    forall i, j :: 0 <= i < j < |m| ==> m[i].left != m[j].left && m[i].right != m[j].right
  }

  lemma {:induction false} TakeSound(cs: seq<Edge>, L: set<string>, R: set<string>)
    ensures IsMatching(Take(cs, L, R))
    ensures forall e :: e in Take(cs, L, R) ==> e in cs && e.left !in L && e.right !in R
  {
    if cs != [] {
      var e := cs[0];
      if e.left in L || e.right in R {
        TakeSound(cs[1..], L, R);
      } else {
        TakeSound(cs[1..], L + {e.left}, R + {e.right});
      }
    }
  }

  /** Every free candidate is blocked, at the end, by a match at least as heavy. */
  lemma {:induction false} TakeDominates(cs: seq<Edge>, L: set<string>, R: set<string>, e: Edge)
    requires HeaviestFirst(cs) && e in cs && e.left !in L && e.right !in R
    ensures exists m :: m in Take(cs, L, R) && m.weight >= e.weight && (m.left == e.left || m.right == e.right)
  {
    var h := cs[0];
    assert h.weight >= e.weight;
    if h.left in L || h.right in R {
      TakeDominates(cs[1..], L, R, e);
    } else if h.left == e.left || h.right == e.right {
      assert h in Take(cs, L, R);
    } else {
      TakeDominates(cs[1..], L + {h.left}, R + {h.right}, e);
      var m :| m in Take(cs[1..], L + {h.left}, R + {h.right}) && m.weight >= e.weight
               && (m.left == e.left || m.right == e.right);
      assert m in Take(cs, L, R);
    }
  }

  function Total(m: seq<Edge>): int {
    if m == [] then 0 else m[0].weight + Total(m[1..])
  }

  /** The weight of the edges of m whose two ends are still free. */
  ghost function FreeTotal(m: seq<Edge>, L: set<string>, R: set<string>): int {
    if m == [] then 0
    else (if m[0].left !in L && m[0].right !in R then m[0].weight else 0) + FreeTotal(m[1..], L, R)
  }

  ghost predicate UsesLeft(m: seq<Edge>, l: string) { exists x :: x in m && x.left == l }

  ghost predicate UsesRight(m: seq<Edge>, r: string) { exists x :: x in m && x.right == r }

  /** Using up one edge's two ends costs another matching at most two edges. */
  lemma {:induction false} ChargeTwo(m: seq<Edge>, L: set<string>, R: set<string>, h: Edge)
    requires IsMatching(m) && h.weight >= 0
    requires forall x :: x in m && x.left !in L && x.right !in R && (x.left == h.left || x.right == h.right)
                         ==> x.weight <= h.weight
    ensures FreeTotal(m, L, R) <= FreeTotal(m, L + {h.left}, R + {h.right})
                                  + (if UsesLeft(m, h.left) then h.weight else 0)
                                  + (if UsesRight(m, h.right) then h.weight else 0)
  {
    if m != [] {
      var x, t := m[0], m[1..];
      assert forall y :: y in t ==> y in m;
      ChargeTwo(t, L, R, h);
      if x.left == h.left {
        assert UsesLeft(m, h.left);
        assert !UsesLeft(t, h.left);
      }
      if x.right == h.right {
        assert UsesRight(m, h.right);
        assert !UsesRight(t, h.right);
      }
      assert UsesLeft(t, h.left) ==> UsesLeft(m, h.left);
      assert UsesRight(t, h.right) ==> UsesRight(m, h.right);
    }
  }

  lemma {:induction false} NothingFree(m: seq<Edge>, L: set<string>, R: set<string>)
    requires forall x :: x in m && x.left !in L && x.right !in R ==> x.weight == 0
    ensures FreeTotal(m, L, R) == 0
  {
    if m != [] {
      NothingFree(m[1..], L, R);
    }
  }

  lemma {:induction false} AllFree(m: seq<Edge>)
    ensures FreeTotal(m, {}, {}) == Total(m)
  {
    if m != [] {
      AllFree(m[1..]);
    }
  }

  lemma {:induction false} GreedyCharges(cs: seq<Edge>, L: set<string>, R: set<string>, other: seq<Edge>)
    requires HeaviestFirst(cs) && (forall e :: e in cs ==> e.weight >= 0)
    requires IsMatching(other)
    requires forall x :: x in other && x.left !in L && x.right !in R && x.weight != 0 ==> x in cs
    ensures FreeTotal(other, L, R) <= 2 * Total(Take(cs, L, R))
  {
    if cs == [] {
      NothingFree(other, L, R);
    } else {
      var h := cs[0];
      if h.left in L || h.right in R {
        GreedyCharges(cs[1..], L, R, other);
      } else {
        ChargeTwo(other, L, R, h);
        GreedyCharges(cs[1..], L + {h.left}, R + {h.right}, other);
        assert Take(cs, L, R)[1..] == Take(cs[1..], L + {h.left}, R + {h.right});
      }
    }
  }

  lemma GreedySound(sim: (string, string) -> int, ls: seq<string>, rs: seq<string>)
    ensures IsMatching(Greedy(sim, ls, rs))
    ensures forall e :: e in Greedy(sim, ls, rs) ==>
                          e.left in ls && e.right in rs && e.weight == sim(e.left, e.right) != 0
  {
    TakeSound(SortBy(Candidates(sim, ls, rs), EdgeLe), {}, {});
  }

  lemma GreedyDominates(sim: (string, string) -> int, ls: seq<string>, rs: seq<string>, l: string, r: string)
    requires l in ls && r in rs && sim(l, r) != 0
    ensures exists m :: m in Greedy(sim, ls, rs) && m.weight >= sim(l, r) && (m.left == l || m.right == r)
  {
    SortedCandidates(Candidates(sim, ls, rs));
    TakeDominates(SortBy(Candidates(sim, ls, rs), EdgeLe), {}, {}, Edge(sim(l, r), l, r));
  }

  lemma GreedyHalfOptimal(sim: (string, string) -> int, ls: seq<string>, rs: seq<string>, other: seq<Edge>)
    requires forall l, r :: sim(l, r) >= 0
    requires IsMatching(other)
    requires forall e :: e in other ==> e.left in ls && e.right in rs && e.weight == sim(e.left, e.right)
    ensures Total(other) <= 2 * Total(Greedy(sim, ls, rs))
  {
    SortedCandidates(Candidates(sim, ls, rs));
    GreedyCharges(SortBy(Candidates(sim, ls, rs), EdgeLe), {}, {}, other);
    AllFree(other);
  }

  /** No more matches than labels on either side. */
  lemma GreedyCount(sim: (string, string) -> int, ls: seq<string>, rs: seq<string>)
    ensures |Greedy(sim, ls, rs)| <= |ls| && |Greedy(sim, ls, rs)| <= |rs|
  {
    GreedySound(sim, ls, rs);
    MatchingCount(Greedy(sim, ls, rs), ls, rs);
  }

  lemma MatchingCount(m: seq<Edge>, ls: seq<string>, rs: seq<string>)
    requires IsMatching(m)
    requires forall i :: 0 <= i < |m| ==> m[i].left in ls && m[i].right in rs
    ensures |m| <= |ls| && |m| <= |rs|
  {
    var lefts := seq(|m|, i requires 0 <= i < |m| => m[i].left);
    var rights := seq(|m|, i requires 0 <= i < |m| => m[i].right);
    NoDupWithin(lefts, ls);
    NoDupWithin(rights, rs);
  }

  lemma {:induction false} RowNoDup(sim: (string, string) -> int, l: string, rs: seq<string>)
    requires NoDup(rs)
    ensures NoDup(Row(sim, l, rs))
  {
    if rs != [] {
      assert forall i, j :: 0 <= i < j < |rs[1..]| ==> rs[1..][i] == rs[i + 1] && rs[1..][j] == rs[j + 1];
      assert rs[0] !in rs[1..];
      RowNoDup(sim, l, rs[1..]);
    }
  }

  lemma {:induction false} CandidatesNoDup(sim: (string, string) -> int, ls: seq<string>, rs: seq<string>)
    requires NoDup(ls) && NoDup(rs)
    ensures NoDup(Candidates(sim, ls, rs))
  {
    if ls != [] {
      assert forall i, j :: 0 <= i < j < |ls[1..]| ==> ls[1..][i] == ls[i + 1] && ls[1..][j] == ls[j + 1];
      assert ls[0] !in ls[1..];
      RowNoDup(sim, ls[0], rs);
      CandidatesNoDup(sim, ls[1..], rs);
    }
  }

  /** With repetitions removed, the pairing depends on the two label sets alone. */
  lemma GreedyIgnoresOrder(sim: (string, string) -> int, ls: seq<string>, rs: seq<string>,
                           ls': seq<string>, rs': seq<string>)
    requires forall x :: x in ls <==> x in ls'
    requires forall x :: x in rs <==> x in rs'
    ensures Greedy(sim, FromKeys(ls), FromKeys(rs)) == Greedy(sim, FromKeys(ls'), FromKeys(rs'))
  {
    var a := Candidates(sim, FromKeys(ls), FromKeys(rs));
    var b := Candidates(sim, FromKeys(ls'), FromKeys(rs'));
    CandidatesNoDup(sim, FromKeys(ls), FromKeys(rs));
    CandidatesNoDup(sim, FromKeys(ls'), FromKeys(rs'));
    NoDupPermutation(a, b);
    EdgeOrder();
    SortPermutation(a, b, EdgeLe);
  }

  // --- F1 --------------------------------------------------------------------

  /** 2 * precision * recall / (precision + recall), quantized. */
  function F1FromMatchCount(matchCount: nat, leftCount: nat, rightCount: nat): int {
    if matchCount == 0 || leftCount == 0 || rightCount == 0 then 0
    else
      var precision, recall := Ratio(matchCount, leftCount), Ratio(matchCount, rightCount);
      var score := Ratio(2, 1).Times(precision).Times(recall).Over(precision.Plus(recall));
      F1Shape(matchCount, leftCount, rightCount);
      score.Quantize()
  }

  lemma F1Shape(m: int, l: int, r: int)
    requires m > 0 && l > 0 && r > 0
    ensures l * r * m > 0
    ensures (1 * l * r) * (m * r + m * l) == (l * r * m) * (l + r) > 0
    ensures (2 * m * m) * (l * r) == (l * r * m) * (2 * m)
  {
    MulPositive(l, r);
    MulPositive(l * r, m);
    MulPositive(l * r * m, l + r);
    assert m * r + m * l == m * (l + r);
  }

  /** The score is 2m/(L+R), rounded once. */
  lemma F1IsHarmonicMean(m: nat, l: nat, r: nat)
    requires m > 0 && l > 0 && r > 0
    ensures F1FromMatchCount(m, l, r) == RoundHalfEven(2 * m * ONE, l + r)
  {
    var k := l * r * m;
    F1Shape(m, l, r);
    RoundScaled(2 * m * ONE, l + r, k);
    assert ((2 * m * m) * (l * r)) * ONE == k * (2 * m * ONE);
  }

  lemma F1Range(m: nat, l: nat, r: nat)
    requires m <= l && m <= r
    ensures 0 <= F1FromMatchCount(m, l, r) <= ONE
    ensures m == l == r && m > 0 ==> F1FromMatchCount(m, l, r) == ONE
  {
    if m > 0 {
      F1IsHarmonicMean(m, l, r);
      RoundWithinUnit(2 * m * ONE, l + r);
      if m == l == r {
        RoundExact(ONE, 2 * m);
      }
    }
  }

  /** Before rounding, the score is 1 exactly when everything on both sides is matched. */
  lemma F1PerfectOnlyWhenAllMatched(m: nat, l: nat, r: nat)
    requires m <= l && m <= r && l > 0 && r > 0
    ensures 2 * m == l + r <==> m == l == r
    ensures F1FromMatchCount(m, l, r) == ONE && l + r < 2 * ONE ==> m == l == r
  {
    if m > 0 && F1FromMatchCount(m, l, r) == ONE {
      F1IsHarmonicMean(m, l, r);
      assert 2 * (ONE * (l + r) - 2 * m * ONE) <= l + r;
    }
  }

  // --- similarity of two labels ----------------------------------------------

  function Initials(tokens: seq<string>): string {
    if tokens == [] then ""
    else (if tokens[0] == "" then "" else [tokens[0][0]]) + Initials(tokens[1..])
  }

  function Acronym(tokens: seq<string>): Option<string> {
    if |tokens| < 2 then None
    else if |Initials(tokens)| >= 2 then Some(Initials(tokens)) else None
  }

  function ConceptWeight(lex: Lexicon): (string, string) -> int {
    (l, r) => if lex.equivalent(l, r) then 1 else 0
  }

  /** The result of `_greedy_concept_matches`, one edge of weight 1 a match. */
  function ConceptMatching(lex: Lexicon, left: seq<string>, right: seq<string>): seq<Edge> {
    Greedy(ConceptWeight(lex), left, right)
  }

  function LabelSimilarity(lex: Lexicon, left: string, right: string): int {
    if lex.normal(left) == lex.normal(right) then ONE
    else
      var lt, rt := lex.tokens(left), lex.tokens(right);
      if (|lt| == 1 && Acronym(rt) == Some(lt[0])) || (|rt| == 1 && Acronym(lt) == Some(rt[0])) then ONE
      else F1FromMatchCount(|ConceptMatching(lex, lt, rt)|, |lt|, |rt|)
  }

  lemma SimilarityRange(lex: Lexicon, left: string, right: string)
    ensures 0 <= LabelSimilarity(lex, left, right) <= ONE
    ensures LabelSimilarity(lex, left, left) == ONE
  {
    var lt, rt := lex.tokens(left), lex.tokens(right);
    GreedyCount(ConceptWeight(lex), lt, rt);
    F1Range(|ConceptMatching(lex, lt, rt)|, |lt|, |rt|);
  }

  function SimilarityOf(lex: Lexicon): (string, string) -> int {
    (l, r) => LabelSimilarity(lex, l, r)
  }

  // --- label pairing ---------------------------------------------------------

  function LabelMatching(lex: Lexicon, left: seq<string>, right: seq<string>): seq<Edge> {
    Greedy(SimilarityOf(lex), FromKeys(left), FromKeys(right))
  }

  method LabelMatches(lex: Lexicon, left: seq<string>, right: seq<string>) returns (matches: seq<Edge>)
    ensures matches == LabelMatching(lex, left, right)
  {
    var candidates := CollectCandidates(SimilarityOf(lex), FromKeys(left), FromKeys(right));
    candidates := SortBy(candidates, EdgeLe);
    matches := TakeGreedily(candidates);
  }

  method GreedyConceptMatches(lex: Lexicon, left: seq<string>, right: seq<string>) returns (matches: seq<Edge>)
    ensures matches == ConceptMatching(lex, left, right)
  {
    var candidates := CollectCandidates(ConceptWeight(lex), left, right);
    candidates := SortBy(candidates, EdgeLe);
    matches := TakeGreedily(candidates);
  }

  /** A pairing of the given labels, each used at most once, weighted by similarity. */
  ghost predicate PairsLabels(lex: Lexicon, left: seq<string>, right: seq<string>, m: seq<Edge>) {
    IsMatching(m) &&
    forall e :: e in m ==> e.left in left && e.right in right && e.weight == LabelSimilarity(lex, e.left, e.right)
  }

  lemma LabelMatchingSound(lex: Lexicon, left: seq<string>, right: seq<string>)
    ensures PairsLabels(lex, left, right, LabelMatching(lex, left, right))
    ensures forall e :: e in LabelMatching(lex, left, right) ==> 0 < e.weight <= ONE
  {
    GreedySound(SimilarityOf(lex), FromKeys(left), FromKeys(right));
    forall e | e in LabelMatching(lex, left, right)
      ensures 0 < e.weight <= ONE
    {
      SimilarityRange(lex, e.left, e.right);
    }
  }

  /** No similar pair is left with both ends free, and what blocks a pair is at least as similar. */
  lemma LabelMatchingMaximal(lex: Lexicon, left: seq<string>, right: seq<string>, l: string, r: string)
    requires l in left && r in right && LabelSimilarity(lex, l, r) != 0
    ensures exists m :: m in LabelMatching(lex, left, right) && m.weight >= LabelSimilarity(lex, l, r)
                        && (m.left == l || m.right == r)
  {
    GreedyDominates(SimilarityOf(lex), FromKeys(left), FromKeys(right), l, r);
  }

  /** Total similarity is at least half that of any pairing of the same labels. */
  lemma LabelMatchingHalfOptimal(lex: Lexicon, left: seq<string>, right: seq<string>, other: seq<Edge>)
    requires PairsLabels(lex, left, right, other)
    ensures Total(other) <= 2 * Total(LabelMatching(lex, left, right))
  {
    forall l, r
      ensures SimilarityOf(lex)(l, r) >= 0
    {
      SimilarityRange(lex, l, r);
    }
    GreedyHalfOptimal(SimilarityOf(lex), FromKeys(left), FromKeys(right), other);
  }

  /** The concept pairing inside a label finds at least half of the largest possible number. */
  lemma ConceptMatchingHalfOptimal(lex: Lexicon, left: seq<string>, right: seq<string>, other: seq<Edge>)
    requires IsMatching(other)
    requires forall e :: e in other ==>
                           e.left in left && e.right in right && e.weight == 1 && lex.equivalent(e.left, e.right)
    ensures |other| <= 2 * |ConceptMatching(lex, left, right)|
  {
    GreedyHalfOptimal(ConceptWeight(lex), left, right, other);
    GreedySound(ConceptWeight(lex), left, right);
    UnitTotal(other);
    UnitTotal(ConceptMatching(lex, left, right));
  }

  lemma {:induction false} UnitTotal(m: seq<Edge>)
    requires forall e :: e in m ==> e.weight == 1
    ensures Total(m) == |m|
  {
    if m != [] {
      UnitTotal(m[1..]);
    }
  }

  function LabelsF1(lex: Lexicon, left: seq<string>, right: seq<string>): (int, seq<Edge>) {
    var matches := LabelMatching(lex, left, right);
    (F1FromMatchCount(|matches|, |FromKeys(left)|, |FromKeys(right)|), matches)
  }

  lemma LabelsF1Range(lex: Lexicon, left: seq<string>, right: seq<string>)
    ensures 0 <= LabelsF1(lex, left, right).0 <= ONE
  {
    GreedyCount(SimilarityOf(lex), FromKeys(left), FromKeys(right));
    F1Range(|LabelMatching(lex, left, right)|, |FromKeys(left)|, |FromKeys(right)|);
  }

  /** Neither the pairing nor its F1 depends on the order or repetition of the labels. */
  lemma LabelMatchingIgnoresOrder(lex: Lexicon, left: seq<string>, right: seq<string>,
                                  left': seq<string>, right': seq<string>)
    requires forall x :: x in left <==> x in left'
    requires forall x :: x in right <==> x in right'
    ensures LabelMatching(lex, left, right) == LabelMatching(lex, left', right')
    ensures LabelsF1(lex, left, right) == LabelsF1(lex, left', right')
  {
    GreedyIgnoresOrder(SimilarityOf(lex), left, right, left', right');
    NoDupPermutation(FromKeys(left), FromKeys(left'));
    PermutationMembers(FromKeys(left), FromKeys(left'));
    NoDupPermutation(FromKeys(right), FromKeys(right'));
    PermutationMembers(FromKeys(right), FromKeys(right'));
  }

  // --- target overlap --------------------------------------------------------

  predicate IsSpecific(lex: Lexicon, name: string) {
    exists c | c in lex.concepts(name) :: c !in GENERIC_TARGET_CONCEPTS
  }

  predicate SharesSpecificConcept(lex: Lexicon, left: string, right: string) {
    exists lc | lc in lex.concepts(left) ::
      exists rc | rc in lex.concepts(right) ::
        lex.equivalent(lc, rc) && (lc !in GENERIC_TARGET_CONCEPTS || rc !in GENERIC_TARGET_CONCEPTS)
  }

  predicate LabelsHaveOverlap(lex: Lexicon, left: seq<string>, right: seq<string>) {
    var matches := LabelMatching(lex, left, right);
    if matches == [] then false
    else if exists e | e in matches ::
              e.weight >= MINIMUM_TARGET_LABEL_SIMILARITY && SharesSpecificConcept(lex, e.left, e.right) then true
    else if exists e | e in matches ::
              e.weight == ONE && (IsSpecific(lex, e.left) || IsSpecific(lex, e.right)) then true
    else (forall l | l in left :: !IsSpecific(lex, l)) || (forall r | r in right :: !IsSpecific(lex, r))
  }

  /** A specific label on both sides is always an overlap, whatever the pairing did with it. */
  lemma SharedLabelOverlaps(lex: Lexicon, left: seq<string>, right: seq<string>, name: string)
    requires name in left && name in right && IsSpecific(lex, name)
    ensures LabelsHaveOverlap(lex, left, right)
  {
    SimilarityRange(lex, name, name);
    LabelMatchingMaximal(lex, left, right, name, name);
    LabelMatchingSound(lex, left, right);
    var m :| m in LabelMatching(lex, left, right) && m.weight >= ONE && (m.left == name || m.right == name);
    assert m.weight == ONE && (IsSpecific(lex, m.left) || IsSpecific(lex, m.right));
  }

  /** Overlap is a property of the two label sets. */
  lemma OverlapIgnoresOrder(lex: Lexicon, left: seq<string>, right: seq<string>,
                            left': seq<string>, right': seq<string>)
    requires forall x :: x in left <==> x in left'
    requires forall x :: x in right <==> x in right'
    ensures LabelsHaveOverlap(lex, left, right) == LabelsHaveOverlap(lex, left', right')
  {
    LabelMatchingIgnoresOrder(lex, left, right, left', right');
  }

  /** Without one similar pair there is never an overlap, not even between generic labels. */
  lemma OverlapNeedsSimilarPair(lex: Lexicon, left: seq<string>, right: seq<string>)
    requires LabelsHaveOverlap(lex, left, right)
    ensures exists l, r :: l in left && r in right && LabelSimilarity(lex, l, r) > 0
  {
    var m := LabelMatching(lex, left, right);
    LabelMatchingSound(lex, left, right);
    assert m[0] in m;
  }
}
