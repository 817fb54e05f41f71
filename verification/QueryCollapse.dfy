/** Collapsing a campaign's queries: exact keys first, then a near-duplicate scan. */
module QueryCollapse {
  import opened Sequences

  // --- normalization -----------------------------------------------------------

  /** Case folding, the word characters and white space, kept abstract. */
  datatype Alphabet = Alphabet(fold: char -> string, isWord: char -> bool, isSpace: char -> bool) {
    /** White space folds to no word character. */
    ghost predicate Valid() {
      forall c, i :: isSpace(c) && 0 <= i < |fold(c)| ==> !isWord(fold(c)[i])
    }
  }

  /** Folding that only lowers letters is sound when white space is no letter. */
  lemma LetterFoldIsSound(isWord: char -> bool, isSpace: char -> bool, lower: char -> char)
    requires forall c :: isSpace(c) ==> !isWord(c) && lower(c) == c
    ensures Alphabet((c: char) => [lower(c)], isWord, isSpace).Valid()
  {
  }

  function Folded(a: Alphabet, t: string): string {
    if t == [] then [] else a.fold(t[0]) + Folded(a, t[1..])
  }

  function RunLength(a: Alphabet, s: string): (n: nat)
    ensures n <= |s| && (forall i :: 0 <= i < n ==> a.isWord(s[i])) && (n < |s| ==> !a.isWord(s[n]))
  {
    if s == [] || !a.isWord(s[0]) then 0 else 1 + RunLength(a, s[1..])
  }

  /** `re.findall(r"[\w-]+", s)`: the maximal runs of word characters. */
  function Words(a: Alphabet, s: string): seq<string>
    decreases |s|
  {
    if s == [] then []
    else if !a.isWord(s[0]) then Words(a, s[1..])
    else
      var n := RunLength(a, s);
      [s[..n]] + Words(a, s[n..])
  }

  function Joined(words: seq<string>): string {
    if words == [] then "" else if |words| == 1 then words[0] else words[0] + " " + Joined(words[1..])
  }

  function Norm(a: Alphabet, t: string): string { Joined(Words(a, Folded(a, t))) }

  /** `str.strip()` */
  function Strip(a: Alphabet, t: string): string
    decreases |t|
  {
    if t == [] then t
    else if a.isSpace(t[0]) then Strip(a, t[1..])
    else if a.isSpace(t[|t| - 1]) then Strip(a, t[..|t| - 1])
    else t
  }

  lemma {:induction false} FoldedAppend(a: Alphabet, s: string, t: string)
    ensures Folded(a, s + t) == Folded(a, s) + Folded(a, t)
  {
    if s == [] {
      assert s + t == t;
    } else {
      assert (s + t)[0] == s[0] && (s + t)[1..] == s[1..] + t;
      FoldedAppend(a, s[1..], t);
    }
  }

  ghost predicate Wordless(a: Alphabet, s: string) { forall i :: 0 <= i < |s| ==> !a.isWord(s[i]) }

  lemma {:induction false} LeadingBlank(a: Alphabet, blank: string, s: string)
    requires Wordless(a, blank)
    ensures Words(a, blank + s) == Words(a, s)
  {
    if blank == [] {
      assert blank + s == s;
    } else {
      assert (blank + s)[1..] == blank[1..] + s;
      LeadingBlank(a, blank[1..], s);
    }
  }

  lemma {:induction false} RunBeforeBlank(a: Alphabet, s: string, blank: string)
    requires Wordless(a, blank)
    ensures RunLength(a, s + blank) == RunLength(a, s)
  {
    if s == [] {
      assert s + blank == blank;
    } else {
      assert (s + blank)[1..] == s[1..] + blank;
      RunBeforeBlank(a, s[1..], blank);
    }
  }

  lemma {:induction false} TrailingBlank(a: Alphabet, s: string, blank: string)
    requires Wordless(a, blank)
    ensures Words(a, s + blank) == Words(a, s)
    decreases |s|
  {
    if s == [] {
      LeadingBlank(a, blank, []);
      assert s + blank == blank == blank + [];
    } else if !a.isWord(s[0]) {
      assert (s + blank)[1..] == s[1..] + blank;
      TrailingBlank(a, s[1..], blank);
    } else {
      RunBeforeBlank(a, s, blank);
      var n := RunLength(a, s);
      assert (s + blank)[..n] == s[..n] && (s + blank)[n..] == s[n..] + blank;
      TrailingBlank(a, s[n..], blank);
    }
  }

  lemma FoldedSpace(a: Alphabet, c: char)
    requires a.Valid() && a.isSpace(c)
    ensures Wordless(a, Folded(a, [c]))
  {
    assert Folded(a, [c]) == a.fold(c) + Folded(a, []);
  }

  /** Stripping a text does not change its normalized key. */
  lemma {:induction false} NormIgnoresStrip(a: Alphabet, t: string)
    requires a.Valid()
    ensures Norm(a, Strip(a, t)) == Norm(a, t)
    decreases |t|
  {
    if t != [] {
      var n := |t| - 1;
      if a.isSpace(t[0]) {
        NormIgnoresStrip(a, t[1..]);
        FoldedSpace(a, t[0]);
        FoldedAppend(a, [t[0]], t[1..]);
        assert [t[0]] + t[1..] == t;
        LeadingBlank(a, Folded(a, [t[0]]), Folded(a, t[1..]));
      } else if a.isSpace(t[n]) {
        NormIgnoresStrip(a, t[..n]);
        FoldedSpace(a, t[n]);
        FoldedAppend(a, t[..n], [t[n]]);
        assert t[..n] + [t[n]] == t;
        TrailingBlank(a, Folded(a, t[..n]), Folded(a, [t[n]]));
      }
    }
  }

  // --- queries --------------------------------------------------------------------

  datatype Family = DirectTelegramSource | SiteTelegram | CommunityDirectory | BuyerHabitat | HubListicle | ProfileGap

  datatype Query = Query(text: string, family: Family, language: string, normalizedKey: string, strategy: string,
                         campaign: string, topic: string)

  datatype Key = Key(campaign: string, family: Family, normalized: string)

  function KeyOf(q: Query): Key { Key(q.campaign, q.family, q.normalizedKey) }

  /** `_query` */
  function BuildQuery(a: Alphabet, text: string, family: Family, language: string, strategy: string, campaign: string,
                      topic: string): Query {
    Query(Strip(a, text), family, language, Norm(a, text), strategy, campaign, topic)
  }

  /** The query is one `_query` returns. */
  ghost predicate Built(a: Alphabet, q: Query) {
    exists text :: q == BuildQuery(a, text, q.family, q.language, q.strategy, q.campaign, q.topic)
  }

  function SpaceSplit(s: string): set<string> {
    var i := IndexOfSpace(s);
    (if i == 0 then {} else {s[..i]}) + (if i == |s| then {} else SpaceSplit(s[i + 1..]))
  }

  function IndexOfSpace(s: string): (i: nat)
    ensures i <= |s|
  {
    if s == [] || s[0] == ' ' then 0 else 1 + IndexOfSpace(s[1..])
  }

  /** `_near_duplicate`: the same non-empty topic words and the same normalized text. */
  predicate NearDuplicate(a: Alphabet, q: Query, e: Query) {
    var left, right := SpaceSplit(Norm(a, q.topic)), SpaceSplit(Norm(a, e.topic));
    left == right && left != {} && Norm(a, q.text) == Norm(a, e.text)
  }

  predicate Repeats(a: Alphabet, q: Query, e: Query) {
    q.campaign == e.campaign && q.family == e.family && q.language == e.language && NearDuplicate(a, q, e)
  }

  predicate HasKey(s: seq<Query>, k: Key) { exists i :: 0 <= i < |s| && KeyOf(s[i]) == k }

  predicate HasRepeat(a: Alphabet, s: seq<Query>, q: Query) { exists i :: 0 <= i < |s| && Repeats(a, q, s[i]) }

  /** What the two-stage loop keeps. */
  function Collapse(a: Alphabet, queries: seq<Query>): seq<Query> {
    if queries == [] then []
    else
      var before, q := queries[..|queries| - 1], queries[|queries| - 1];
      var kept := Collapse(a, before);
      if HasKey(before, KeyOf(q)) || HasRepeat(a, kept, q) then kept else kept + [q]
  }

  /** The first query of each key, in order. */
  function FirstOfEachKey(queries: seq<Query>): seq<Query> {
    if queries == [] then []
    else
      var before, q := queries[..|queries| - 1], queries[|queries| - 1];
      if HasKey(before, KeyOf(q)) then FirstOfEachKey(before) else FirstOfEachKey(before) + [q]
  }

  method CollapseCampaignQueries(a: Alphabet, queries: seq<Query>) returns (output: seq<Query>)
    ensures output == Collapse(a, queries)
  {
    output := [];
    var exact: set<Key> := {};
    for i := 0 to |queries|
      invariant output == Collapse(a, queries[..i])
      invariant forall k :: k in exact <==> HasKey(queries[..i], k)
    {
      assert queries[..i + 1][..i] == queries[..i];
      var q := queries[i];
      HasKeyPush(queries[..i], q);
      assert queries[..i] + [q] == queries[..i + 1];
      hide HasKey;
      if KeyOf(q) !in exact {
        exact := exact + {KeyOf(q)};
        var near := NearAny(a, output, q);
        if !near {
          output := output + [q];
        }
      }
    }
    assert queries[..|queries|] == queries;
  }

  /** The scan over what is already kept. */
  method NearAny(a: Alphabet, output: seq<Query>, q: Query) returns (near: bool)
    ensures near == HasRepeat(a, output, q)
  {
    for j := 0 to |output|
      invariant forall i :: 0 <= i < j ==> !Repeats(a, q, output[i])
    {
      if Repeats(a, q, output[j]) {
        return true;
      }
    }
    near := false;
  }

  lemma HasKeyPush(s: seq<Query>, q: Query)
    ensures forall k :: HasKey(s + [q], k) <==> HasKey(s, k) || k == KeyOf(q)
  {
    forall k
      ensures HasKey(s + [q], k) <==> HasKey(s, k) || k == KeyOf(q)
    {
      if HasKey(s, k) {
        var i :| 0 <= i < |s| && KeyOf(s[i]) == k;
        assert (s + [q])[i] == s[i];
      }
      assert (s + [q])[|s|] == q;
    }
  }

  lemma KeyIsNormOfText(a: Alphabet, q: Query)
    requires a.Valid() && Built(a, q)
    ensures q.normalizedKey == Norm(a, q.text)
  {
    var text :| q == BuildQuery(a, text, q.family, q.language, q.strategy, q.campaign, q.topic);
    NormIgnoresStrip(a, text);
  }

  /** Positions that pick r out of s in order. */
  ghost predicate Picks(s: seq<Query>, r: seq<Query>, at: seq<nat>) {
    && |at| == |r|
    && (forall i :: 0 <= i < |at| ==> at[i] < |s| && s[at[i]] == r[i])
    && (forall i, j :: 0 <= i < j < |at| ==> at[i] < at[j])
  }

  ghost predicate DistinctKeys(s: seq<Query>) {
    forall i, j :: 0 <= i < j < |s| ==> KeyOf(s[i]) != KeyOf(s[j])
  }

  /** The first queries are an order-preserving subsequence, one per key present, each the
      earliest with its key. */
  lemma {:induction false} FirstsAreSubsequence(queries: seq<Query>) returns (at: seq<nat>)
    ensures Picks(queries, FirstOfEachKey(queries), at)
    ensures DistinctKeys(FirstOfEachKey(queries))
    ensures forall k :: HasKey(FirstOfEachKey(queries), k) <==> HasKey(queries, k)
    ensures forall i :: 0 <= i < |at| ==> !HasKey(queries[..at[i]], KeyOf(queries[at[i]]))
  {
    at := [];
    if queries != [] {
      var before, q := queries[..|queries| - 1], queries[|queries| - 1];
      var was := FirstsAreSubsequence(before);
      var kept := FirstOfEachKey(before);
      assert before + [q] == queries;
      HasKeyPush(before, q);
      HasKeyPush(kept, q);
      forall i | 0 <= i < |was|
        ensures queries[..was[i]] == before[..was[i]] && queries[was[i]] == before[was[i]]
      {
      }
      if HasKey(before, KeyOf(q)) {
        at := was;
      } else {
        at := was + [|before|];
        assert queries[..|before|] == before;
        KeysStayDistinct(kept, q);
      }
      hide HasKey, DistinctKeys;
    }
  }

  lemma KeysStayDistinct(kept: seq<Query>, q: Query)
    requires DistinctKeys(kept) && !HasKey(kept, KeyOf(q))
    ensures DistinctKeys(kept + [q])
  {
  }

  /** For queries built by `_query` the near-duplicate scan removes nothing more. */
  lemma {:induction false} NearDuplicatesAreExact(a: Alphabet, queries: seq<Query>)
    requires a.Valid() && forall i :: 0 <= i < |queries| ==> Built(a, queries[i])
    ensures Collapse(a, queries) == FirstOfEachKey(queries)
  {
    if queries != [] {
      var before, q := queries[..|queries| - 1], queries[|queries| - 1];
      NearDuplicatesAreExact(a, before);
      var kept := FirstOfEachKey(before);
      if HasRepeat(a, kept, q) {
        var i :| 0 <= i < |kept| && Repeats(a, q, kept[i]);
        var at := FirstsAreSubsequence(before);
        assert before[at[i]] == kept[i] == queries[at[i]];
        KeyIsNormOfText(a, kept[i]);
        KeyIsNormOfText(a, q);
        assert HasKey(before, KeyOf(q));
      }
    }
  }

  // --- any queries, built or not ---------------------------------------------------

  /** No query is a near duplicate of an earlier one. */
  ghost predicate NoRepeats(a: Alphabet, s: seq<Query>) {
    forall i, j :: 0 <= i < j < |s| ==> !Repeats(a, s[j], s[i])
  }

  /** The query's key is kept, or a query with its key, no later, is a near duplicate of a kept one. */
  ghost predicate Covered(a: Alphabet, queries: seq<Query>, kept: seq<Query>, i: nat)
    requires i < |queries|
  {
    HasKey(kept, KeyOf(queries[i])) ||
    exists j :: 0 <= j <= i && KeyOf(queries[j]) == KeyOf(queries[i]) && HasRepeat(a, kept, queries[j])
  }

  /** For any queries the kept ones are an order-preserving subsequence without repeated keys or
      near duplicates, and every query left out is covered by a kept one. */
  lemma {:induction false} CollapseKeepsSubsequence(a: Alphabet, queries: seq<Query>) returns (at: seq<nat>)
    ensures Picks(queries, Collapse(a, queries), at)
    ensures DistinctKeys(Collapse(a, queries)) && NoRepeats(a, Collapse(a, queries))
    ensures forall i :: 0 <= i < |queries| ==> Covered(a, queries, Collapse(a, queries), i)
  {
    at := [];
    if queries != [] {
      var before, q := queries[..|queries| - 1], queries[|queries| - 1];
      assert before + [q] == queries;
      var kept := Collapse(a, before);
      var left := HasKey(before, KeyOf(q)) || HasRepeat(a, kept, q);
      assert Collapse(a, queries) == if left then kept else kept + [q];
      hide Collapse;
      at := CollapseKeepsSubsequence(a, before);
      KeptKeyIsMet(before, kept, at, KeyOf(q));
      if !left {
        PicksPush(before, kept, at, q);
        at := at + [|before|];
        KeysStayDistinct(kept, q);
        RepeatsStayOut(a, kept, q);
      }
      CoveredPush(a, before, kept, q, left);
    }
  }

  lemma KeptKeyIsMet(s: seq<Query>, kept: seq<Query>, at: seq<nat>, k: Key)
    requires Picks(s, kept, at)
    ensures HasKey(kept, k) ==> HasKey(s, k)
  {
    if HasKey(kept, k) {
      var i :| 0 <= i < |kept| && KeyOf(kept[i]) == k;
      assert s[at[i]] == kept[i];
    }
  }

  lemma PicksPush(s: seq<Query>, kept: seq<Query>, at: seq<nat>, q: Query)
    requires Picks(s, kept, at)
    ensures Picks(s + [q], kept, at) && Picks(s + [q], kept + [q], at + [|s|])
  {
  }

  lemma RepeatsStayOut(a: Alphabet, kept: seq<Query>, q: Query)
    requires NoRepeats(a, kept) && !HasRepeat(a, kept, q)
    ensures NoRepeats(a, kept + [q])
  {
    hide Repeats;
  }

  lemma CoveredPush(a: Alphabet, before: seq<Query>, kept: seq<Query>, q: Query, left: bool)
    requires forall i :: 0 <= i < |before| ==> Covered(a, before, kept, i)
    requires left <==> HasKey(before, KeyOf(q)) || HasRepeat(a, kept, q)
    ensures var queries, next := before + [q], if left then kept else kept + [q];
            forall i :: 0 <= i < |queries| ==> Covered(a, queries, next, i)
  {
    var queries, next := before + [q], if left then kept else kept + [q];
    hide Repeats;
    forall i | 0 <= i < |queries|
      ensures Covered(a, queries, next, i)
    {
      if i < |before| {
        CoveredStays(a, before, kept, q, next, i, i);
      } else if !left {
        assert next[|kept|] == q;
      } else if HasKey(before, KeyOf(q)) {
        var p :| 0 <= p < |before| && KeyOf(before[p]) == KeyOf(q);
        CoveredStays(a, before, kept, q, next, p, i);
      } else {
        assert queries[i] == q;
      }
    }
  }

  /** Covered at p is covered at any later query with the same key, whatever else is kept. */
  lemma CoveredStays(a: Alphabet, before: seq<Query>, kept: seq<Query>, q: Query, next: seq<Query>, p: nat, i: nat)
    requires p < |before| && Covered(a, before, kept, p) && kept <= next
    requires p <= i < |before + [q]| && KeyOf((before + [q])[i]) == KeyOf(before[p])
    ensures Covered(a, before + [q], next, i)
  {
    hide Repeats;
    if HasKey(kept, KeyOf(before[p])) {
      var j :| 0 <= j < |kept| && KeyOf(kept[j]) == KeyOf(before[p]);
      assert next[j] == kept[j];
    } else {
      var j :| 0 <= j <= p && KeyOf(before[j]) == KeyOf(before[p]) && HasRepeat(a, kept, before[j]);
      assert (before + [q])[j] == before[j];
      var m :| 0 <= m < |kept| && Repeats(a, before[j], kept[m]);
      assert next[m] == kept[m];
    }
  }

  lemma {:induction false} NothingToCollapse(a: Alphabet, s: seq<Query>)
    requires DistinctKeys(s) && NoRepeats(a, s)
    ensures Collapse(a, s) == s
  {
    if s != [] {
      NothingToCollapse(a, s[..|s| - 1]);
      hide Repeats;
    }
  }

  /** Collapsing a collapsed list changes nothing. */
  lemma CollapseIsIdempotent(a: Alphabet, queries: seq<Query>)
    ensures Collapse(a, Collapse(a, queries)) == Collapse(a, queries)
  {
    var at := CollapseKeepsSubsequence(a, queries);
    NothingToCollapse(a, Collapse(a, queries));
  }

  // --- near duplicates by their words ----------------------------------------------------

  /** The words of a text, once folded. */
  function WordsOf(a: Alphabet, t: string): seq<string> { Words(a, Folded(a, t)) }

  ghost predicate AllWords(a: Alphabet, words: seq<string>) {
    forall i :: 0 <= i < |words| ==> words[i] != "" && forall k :: 0 <= k < |words[i]| ==> a.isWord(words[i][k])
  }

  lemma {:induction false} WordsAreWords(a: Alphabet, s: string)
    ensures AllWords(a, Words(a, s))
    decreases |s|
  {
    if s != [] {
      if !a.isWord(s[0]) {
        WordsAreWords(a, s[1..]);
      } else {
        WordsAreWords(a, s[RunLength(a, s)..]);
      }
    }
  }

  lemma {:induction false} RunOfWord(a: Alphabet, word: string, rest: string)
    requires (forall k :: 0 <= k < |word| ==> a.isWord(word[k])) && (rest == "" || !a.isWord(rest[0]))
    ensures RunLength(a, word + rest) == |word|
  {
    if word != "" {
      assert (word + rest)[1..] == word[1..] + rest;
      RunOfWord(a, word[1..], rest);
    } else {
      assert word + rest == rest;
    }
  }

  /** Joining words and taking the text apart again gives the words. */
  lemma {:induction false} JoinedSplits(a: Alphabet, words: seq<string>)
    requires AllWords(a, words) && !a.isWord(' ')
    ensures Words(a, Joined(words)) == words
  {
    if words != [] {
      var w, rest := words[0], words[1..];
      var after := if rest == [] then "" else " " + Joined(rest);
      assert Joined(words) == w + after;
      RunOfWord(a, w, after);
      assert (w + after)[..|w|] == w && (w + after)[|w|..] == after;
      JoinedSplits(a, rest);
      if rest != [] {
        assert after[1..] == Joined(rest);
      }
      assert words == [w] + rest;
    }
  }

  /** The normalized key holds the words: two texts have one key exactly when they have the same words in
      the same order. */
  lemma SameNormIffSameWords(a: Alphabet, s: string, t: string)
    requires !a.isWord(' ')
    ensures Norm(a, s) == Norm(a, t) <==> WordsOf(a, s) == WordsOf(a, t)
  {
    WordsAreWords(a, Folded(a, s));
    WordsAreWords(a, Folded(a, t));
    JoinedSplits(a, WordsOf(a, s));
    JoinedSplits(a, WordsOf(a, t));
  }

  lemma {:induction false} SpaceAfterWord(word: string, rest: string)
    requires (forall k :: 0 <= k < |word| ==> word[k] != ' ') && (rest == "" || rest[0] == ' ')
    ensures IndexOfSpace(word + rest) == |word|
  {
    if word != "" {
      assert (word + rest)[1..] == word[1..] + rest;
      SpaceAfterWord(word[1..], rest);
    } else {
      assert word + rest == rest;
    }
  }

  /** Splitting joined words at the spaces gives the set of them. */
  lemma {:induction false} SplitJoined(a: Alphabet, words: seq<string>)
    requires AllWords(a, words) && !a.isWord(' ')
    ensures SpaceSplit(Joined(words)) == set w | w in words
  {
    if words != [] {
      var w, rest := words[0], words[1..];
      var after := if rest == [] then "" else " " + Joined(rest);
      assert Joined(words) == w + after;
      SpaceAfterWord(w, after);
      assert (w + after)[..|w|] == w;
      SplitJoined(a, rest);
      if rest != [] {
        assert (w + after)[|w| + 1..] == Joined(rest);
      }
      assert words == [w] + rest;
    }
  }

  /** A query repeats another exactly when they share campaign, family and language, the words of their
      texts in order, and the set of words of their topics, of which there is at least one. */
  lemma RepeatsIffSameWords(a: Alphabet, q: Query, e: Query)
    requires !a.isWord(' ')
    ensures Repeats(a, q, e)
            <==> q.campaign == e.campaign && q.family == e.family && q.language == e.language
                 && WordsOf(a, q.text) == WordsOf(a, e.text) && WordsOf(a, q.topic) != []
                 && (set w | w in WordsOf(a, q.topic)) == (set w | w in WordsOf(a, e.topic))
  {
    SameNormIffSameWords(a, q.text, e.text);
    WordsAreWords(a, Folded(a, q.topic));
    WordsAreWords(a, Folded(a, e.topic));
    SplitJoined(a, WordsOf(a, q.topic));
    SplitJoined(a, WordsOf(a, e.topic));
    var left := set w | w in WordsOf(a, q.topic);
    assert WordsOf(a, q.topic) != [] ==> WordsOf(a, q.topic)[0] in left;
    assert left != {} ==> WordsOf(a, q.topic) != [];
    hide Words, Folded, Joined, SpaceSplit;
  }

  // --- built queries ------------------------------------------------------------------------

  ghost predicate Blank(a: Alphabet, s: string) { forall i :: 0 <= i < |s| ==> a.isSpace(s[i]) }

  /** Stripping takes off the white space around a text and nothing else. */
  lemma {:induction false} StripRule(a: Alphabet, t: string) returns (before: string, after: string)
    ensures t == before + Strip(a, t) + after && Blank(a, before) && Blank(a, after)
    ensures var s := Strip(a, t); s != "" ==> !a.isSpace(s[0]) && !a.isSpace(s[|s| - 1])
    decreases |t|
  {
    before, after := "", "";
    assert Blank(a, before) && Blank(a, after);
    hide Blank;
    if t != "" && a.isSpace(t[0]) {
      before, after := StripRule(a, t[1..]);
      assert t == [t[0]] + t[1..];
      BlankEnds(a, t[0], before);
      before := [t[0]] + before;
    } else if t != "" && a.isSpace(t[|t| - 1]) {
      before, after := StripRule(a, t[..|t| - 1]);
      assert t == t[..|t| - 1] + [t[|t| - 1]];
      BlankEnds(a, t[|t| - 1], after);
      after := after + [t[|t| - 1]];
    }
  }

  lemma BlankEnds(a: Alphabet, c: char, s: string)
    requires a.isSpace(c) && Blank(a, s)
    ensures Blank(a, [c] + s) && Blank(a, s + [c])
  {
  }

  /** A built query keeps what it was built from, its text stripped and its key that of the text. */
  lemma BuiltQueryRule(a: Alphabet, text: string, family: Family, language: string, strategy: string, campaign: string,
                       topic: string)
    requires a.Valid()
    ensures var q := BuildQuery(a, text, family, language, strategy, campaign, topic);
            && q.text == Strip(a, text) && q.normalizedKey == Norm(a, q.text) == Norm(a, text)
            && q.family == family && q.language == language && q.strategy == strategy && q.campaign == campaign
            && q.topic == topic
  {
    NormIgnoresStrip(a, text);
  }
}
