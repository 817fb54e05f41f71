/** The diverse calibration sample: a round robin over the profiles in name order, one row
    a profile a round. */
module CalibrationSample {
  import opened Sequences
  import opened Ordering

  /** `wanted`: the row's priority class is one of the sampled ones. */
  datatype Row = Row(profile: string, wanted: bool, id: nat)

  function Of(p: string): Row -> bool { (r: Row) => r.profile == p }

  function Wanted(): Row -> bool { (r: Row) => r.wanted }

  /** A profile's wanted rows, in input order. */
  function Group(rows: seq<Row>, p: string): seq<Row> { Filter(Filter(rows, Wanted()), Of(p)) }

  /** How many rows of a profile a selection holds. */
  function Picks(selected: seq<Row>, p: string): nat { |Filter(selected, Of(p))| }

  /** The round in which the i-th row was picked. */
  function Round(selected: seq<Row>, i: nat): nat
    requires i < |selected|
  {
    Picks(selected[..i], selected[i].profile)
  }

  // --- what is selected ---------------------------------------------------------

  /** Each profile's rows come as an initial part of its group. */
  ghost predicate TakesPrefixes(rows: seq<Row>, selected: seq<Row>) {
    forall p :: Filter(selected, Of(p)) <= Group(rows, p)
  }

  /** One profile is more than a row ahead of another only when the other has run out. */
  ghost predicate Balanced(rows: seq<Row>, selected: seq<Row>) {
    forall p, q :: Picks(selected, p) <= Picks(selected, q) + 1 || Picks(selected, q) == |Group(rows, q)|
  }

  /** A later name is never ahead of an earlier one that still has rows. */
  ghost predicate EarlierFirst(rows: seq<Row>, selected: seq<Row>) {
    forall p, q :: StrLt(p, q) ==> Picks(selected, q) <= Picks(selected, p) || Picks(selected, p) == |Group(rows, p)|
  }

  /** What the sample promises apart from its size. */
  ghost predicate FairSample(rows: seq<Row>, selected: seq<Row>) {
    TakesPrefixes(rows, selected) && Balanced(rows, selected) && EarlierFirst(rows, selected) && RoundRobin(selected)
  }

  /** Row i comes in an earlier round than row j, or in the same one with an earlier name. */
  ghost predicate Before(selected: seq<Row>, i: nat, j: nat)
    requires i < |selected| && j < |selected|
  {
    Round(selected, i) < Round(selected, j)
    || (Round(selected, i) == Round(selected, j) && StrLt(selected[i].profile, selected[j].profile))
  }

  ghost predicate RoundRobin(selected: seq<Row>) {
    forall i, j :: 0 <= i < j < |selected| ==> Before(selected, i, j)
  }

  lemma {:induction false} GroupCount(rows: seq<Row>, selected: seq<Row>, r: Row)
    requires TakesPrefixes(rows, selected)
    ensures multiset(selected)[r] <= multiset(Filter(rows, Wanted()))[r]
    ensures Picks(selected, r.profile) == |Group(rows, r.profile)|
            ==> multiset(selected)[r] == multiset(Filter(rows, Wanted()))[r]
  {
    var part, whole := Filter(selected, Of(r.profile)), Group(rows, r.profile);
    assert part <= whole;
    hide TakesPrefixes, Filter;
    FilterCount(selected, Of(r.profile), r);
    FilterCount(Filter(rows, Wanted()), Of(r.profile), r);
    PrefixCounts(part, whole, r);
  }

  lemma PrefixCounts(part: seq<Row>, whole: seq<Row>, r: Row)
    requires part <= whole
    ensures multiset(part)[r] <= multiset(whole)[r]
    ensures |part| == |whole| ==> part == whole
  {
    assert whole == part + whole[|part|..];
  }

  /** A selection of group prefixes is no larger than the wanted rows, and as large once all are exhausted. */
  lemma SelectionSize(rows: seq<Row>, selected: seq<Row>)
    requires TakesPrefixes(rows, selected)
    ensures |selected| <= |Filter(rows, Wanted())|
    ensures (forall p :: Picks(selected, p) == |Group(rows, p)|) ==> |selected| == |Filter(rows, Wanted())|
  {
    var all := Filter(rows, Wanted());
    forall r
      ensures multiset(selected)[r] <= multiset(all)[r]
      ensures Picks(selected, r.profile) == |Group(rows, r.profile)| ==> multiset(selected)[r] == multiset(all)[r]
    {
      GroupCount(rows, selected, r);
    }
    assert multiset(selected) <= multiset(all);
    SubmultisetSize(multiset(selected), multiset(all));
    if forall p :: Picks(selected, p) == |Group(rows, p)| {
      assert multiset(selected) == multiset(all);
    }
  }

  lemma SubmultisetSize<T>(a: multiset<T>, b: multiset<T>)
    requires a <= b
    ensures |a| <= |b|
  {
    assert b == a + (b - a);
  }

  // --- the loop's progress --------------------------------------------------------

  /** In round r, the first j of the names still in play have had their turn. */
  ghost predicate Progress(rows: seq<Row>, selected: seq<Row>, names: seq<string>, r: nat, j: nat)
    requires j <= |names|
  {
    && TakesPrefixes(rows, selected)
    && (forall p :: p in names ==> r < |Group(rows, p)| && Picks(selected, p) == r + (if p in names[..j] then 1 else 0))
    && (forall p :: p !in names ==> |Group(rows, p)| <= r && Picks(selected, p) == |Group(rows, p)|)
  }

  /** The rows picked so far are in order, and the next one comes after them. */
  ghost predicate InOrder(selected: seq<Row>, names: seq<string>, r: nat, j: nat)
    requires j <= |names|
  {
    && RoundRobin(selected)
    && (forall i :: 0 <= i < |selected| ==>
          Round(selected, i) < r || (Round(selected, i) == r && selected[i].profile in names[..j]))
  }

  ghost predicate Ascending(names: seq<string>) {
    forall i, j :: 0 <= i < j < |names| ==> StrLt(names[i], names[j])
  }

  lemma PicksPush(selected: seq<Row>, x: Row, p: string)
    ensures Picks(selected + [x], p) == Picks(selected, p) + if x.profile == p then 1 else 0
    ensures Filter(selected + [x], Of(p)) == Filter(selected, Of(p)) + if x.profile == p then [x] else []
  {
    FilterPush(selected, x, Of(p));
  }

  lemma RoundPush(selected: seq<Row>, x: Row)
    ensures forall i :: 0 <= i < |selected| ==> Round(selected + [x], i) == Round(selected, i)
    ensures Round(selected + [x], |selected|) == Picks(selected, x.profile)
  {
    forall i | 0 <= i < |selected|
      ensures Round(selected + [x], i) == Round(selected, i)
    {
      assert (selected + [x])[..i] == selected[..i];
    }
    assert (selected + [x])[..|selected|] == selected;
  }

  lemma PrefixGrows(s: seq<Row>, whole: seq<Row>, r: nat)
    requires s <= whole && |s| == r < |whole|
    ensures s + [whole[r]] <= whole
  {
  }

  lemma TurnOf(rows: seq<Row>, selected: seq<Row>, x: Row, r: nat, q: string)
    requires Filter(selected, Of(q)) <= Group(rows, q)
    requires x.profile == q ==> Picks(selected, q) == r < |Group(rows, q)| && x == Group(rows, q)[r]
    ensures Filter(selected + [x], Of(q)) <= Group(rows, q)
    ensures Picks(selected + [x], q) == Picks(selected, q) + if x.profile == q then 1 else 0
  {
    PicksPush(selected, x, q);
    if x.profile == q {
      PrefixGrows(Filter(selected, Of(q)), Group(rows, q), r);
    }
    hide Filter, Group;
  }

  /** One turn: the j-th name's next row is picked. */
  lemma TurnProgress(rows: seq<Row>, selected: seq<Row>, names: seq<string>, r: nat, j: nat)
    requires j < |names| && Ascending(names) && Progress(rows, selected, names, r, j)
    ensures r < |Group(rows, names[j])| && Group(rows, names[j])[r].profile == names[j]
    ensures Progress(rows, selected + [Group(rows, names[j])[r]], names, r, j + 1)
  {
    var p := names[j];
    assert p !in names[..j];
    assert r < |Group(rows, p)|;
    var x := Group(rows, p)[r];
    assert x in Group(rows, p) && x.profile == p;
    assert names[..j + 1] == names[..j] + [p];
    var next := selected + [x];
    hide Group, Filter, Picks, Ascending;
    forall q
      ensures Filter(next, Of(q)) <= Group(rows, q)
      ensures Picks(next, q) == Picks(selected, q) + if q == p then 1 else 0
    {
      TurnOf(rows, selected, x, r, q);
    }
  }

  lemma TurnInOrder(rows: seq<Row>, selected: seq<Row>, names: seq<string>, r: nat, j: nat, x: Row)
    requires j < |names| && Ascending(names) && InOrder(selected, names, r, j)
    requires x.profile == names[j] && Picks(selected, names[j]) == r
    ensures InOrder(selected + [x], names, r, j + 1)
  {
    var next := selected + [x];
    RoundPush(selected, x);
    hide Round, Picks;
    assert names[..j + 1] == names[..j] + [names[j]];
    forall a, b | 0 <= a < b < |next|
      ensures Before(next, a, b)
    {
      if b < |selected| {
        assert Before(selected, a, b);
      }
    }
  }

  /** The end of a round: names without rows left drop out. */
  lemma RoundEnds(rows: seq<Row>, selected: seq<Row>, names: seq<string>, r: nat, left: seq<string>)
    requires Progress(rows, selected, names, r, |names|)
    requires forall p :: p in left <==> p in names && r + 1 < |Group(rows, p)|
    ensures Progress(rows, selected, left, r + 1, 0)
  {
    assert names[..|names|] == names;
    hide Group, Picks;
  }

  lemma EarlierName(names: seq<string>, p: string, q: string, j: nat)
    requires j <= |names| && Ascending(names) && StrLt(p, q) && p in names && q in names[..j]
    ensures p in names[..j]
  {
    var a :| 0 <= a < |names| && names[a] == p;
    var b :| 0 <= b < j && names[b] == q;
    if a < b {
      assert names[..j][a] == p;
    } else {
      assert StrLe(q, p);
      StrAntisymmetric(p, q);
    }
  }

  /** A finished or interrupted round leaves the profiles balanced. */
  lemma ProgressBalances(rows: seq<Row>, selected: seq<Row>, names: seq<string>, r: nat, j: nat)
    requires j <= |names| && Progress(rows, selected, names, r, j) && Ascending(names)
    ensures Balanced(rows, selected) && EarlierFirst(rows, selected)
  {
    hide Group, Picks;
    forall p, q | StrLt(p, q)
      ensures Picks(selected, q) <= Picks(selected, p) || Picks(selected, p) == |Group(rows, p)|
    {
      if p in names && q in names[..j] {
        EarlierName(names, p, q, j);
      }
    }
    forall p, q
      ensures Picks(selected, p) <= Picks(selected, q) + 1 || Picks(selected, q) == |Group(rows, q)|
    {
      assert p in names || p !in names;
      assert q in names || q !in names;
    }
  }

  // --- the loop --------------------------------------------------------------------

  /** `grouped` holds each name's rows not yet picked; `order` lists its keys. */
  ghost predicate Remaining(rows: seq<Row>, grouped: map<string, seq<Row>>, names: seq<string>, r: nat, j: nat)
    requires j <= |names|
  {
    && (forall p :: p in grouped <==> p in names)
    && (forall p :: p in names ==> var k := r + (if p in names[..j] then 1 else 0);
                                   k <= |Group(rows, p)| && grouped[p] == Group(rows, p)[k..])
  }

  method GroupRows(rows: seq<Row>) returns (grouped: map<string, seq<Row>>, keys: seq<string>)
    ensures NoDup(keys) && forall p :: p in keys <==> p in grouped
    ensures forall p :: p in keys <==> Group(rows, p) != []
    ensures forall p :: p in keys ==> grouped[p] == Group(rows, p)
  {
    grouped, keys := map[], [];
    assert Grouped([], grouped, keys);
    assert rows[..0] == [];
    for i := 0 to |rows|
      invariant Grouped(rows[..i], grouped, keys)
    {
      assert rows[..i + 1] == rows[..i] + [rows[i]];
      GroupedPush(rows[..i], grouped, keys, rows[i]);
      hide Grouped;
      var p := rows[i].profile;
      if rows[i].wanted {
        if p !in grouped {
          grouped, keys := grouped[p := [rows[i]]], keys + [p];
        } else {
          grouped := grouped[p := grouped[p] + [rows[i]]];
        }
      }
    }
    assert rows[..|rows|] == rows;
  }

  /** `grouped` holds each present profile's wanted rows; `keys` lists its keys. */
  ghost predicate Grouped(rows: seq<Row>, grouped: map<string, seq<Row>>, keys: seq<string>) {
    && NoDup(keys) && (forall p :: p in keys <==> p in grouped)
    && (forall p :: p in keys <==> Group(rows, p) != [])
    && (forall p :: p in keys ==> grouped[p] == Group(rows, p))
  }

  lemma GroupedPush(rows: seq<Row>, grouped: map<string, seq<Row>>, keys: seq<string>, x: Row)
    requires Grouped(rows, grouped, keys)
    ensures var p := x.profile;
            if !x.wanted then Grouped(rows + [x], grouped, keys)
            else if p in grouped then Grouped(rows + [x], grouped[p := grouped[p] + [x]], keys)
            else Grouped(rows + [x], grouped[p := [x]], keys + [p])
  {
    GroupPush(rows, x);
    hide Group, NoDup;
    if x.wanted {
      GroupedWanted(rows, grouped, keys, x);
    }
  }

  lemma GroupedWanted(rows: seq<Row>, grouped: map<string, seq<Row>>, keys: seq<string>, x: Row)
    requires Grouped(rows, grouped, keys) && x.wanted
    ensures var p := x.profile;
            if p in grouped then Grouped(rows + [x], grouped[p := grouped[p] + [x]], keys)
            else Grouped(rows + [x], grouped[p := [x]], keys + [p])
  {
    GroupPush(rows, x);
    hide Group, NoDup;
    if x.profile !in grouped {
      DistinctPush(keys, x.profile);
    }
  }

  lemma DistinctPush(keys: seq<string>, p: string)
    requires NoDup(keys) && p !in keys
    ensures NoDup(keys + [p])
  {
  }

  lemma GroupPush(rows: seq<Row>, x: Row)
    ensures forall p :: Group(rows + [x], p) == Group(rows, p) + if x.wanted && x.profile == p then [x] else []
  {
    FilterPush(rows, x, Wanted());
    forall p
      ensures Group(rows + [x], p) == Group(rows, p) + if x.wanted && x.profile == p then [x] else []
    {
      if x.wanted {
        FilterPush(Filter(rows, Wanted()), x, Of(p));
      }
    }
  }

  /** `sorted` over distinct names. */
  lemma SortedNames(keys: seq<string>)
    requires NoDup(keys)
    ensures Ascending(SortBy(keys, StrLe))
  {
    var names := SortBy(keys, StrLe);
    StrLeIsPreorder();
    SortSorted(keys, StrLe);
    PermutationMembers(keys, names);
  }

  lemma StrLeIsPreorder()
    ensures TotalPreorder(StrLe)
  {
    forall x, y
      ensures StrLe(x, y) || StrLe(y, x)
    {
      StrTotal(x, y);
    }
    forall x, y, z | StrLe(x, y) && StrLe(y, z)
      ensures StrLe(x, z)
    {
      StrTransitive(x, y, z);
    }
  }

  /** One round over the sorted names; `more` is false once the limit is reached. */
  method RunRound(rows: seq<Row>, before: seq<Row>, left: map<string, seq<Row>>, names: seq<string>, limit: int,
                  ghost r: nat)
    returns (selected: seq<Row>, grouped: map<string, seq<Row>>, more: bool)
    requires Ascending(names) && Progress(rows, before, names, r, 0) && InOrder(before, names, r, 0)
    requires Remaining(rows, left, names, r, 0) && |before| < limit && names != []
    ensures |before| < |selected| <= limit && FairSample(rows, selected)
    ensures more <==> |selected| < limit
    ensures more ==> Progress(rows, selected, names, r, |names|) && InOrder(selected, names, r, |names|) &&
                     Remaining(rows, grouped, names, r, |names|)
  {
    selected, grouped := before, left;
    var j := 0;
    while j < |names|
      invariant j <= |names| && |before| + j == |selected| < limit
      invariant Progress(rows, selected, names, r, j) && InOrder(selected, names, r, j)
                && Remaining(rows, grouped, names, r, j)
    {
      TurnProgress(rows, selected, names, r, j);
      TurnRemaining(rows, grouped, names, r, j);
      TurnPicks(rows, selected, names, r, j);
      TurnInOrder(rows, selected, names, r, j, grouped[names[j]][0]);
      hide Progress, InOrder, Remaining;
      selected := selected + [grouped[names[j]][0]];
      grouped := grouped[names[j] := grouped[names[j]][1..]];
      j := j + 1;
      if |selected| >= limit {
        RoundGives(rows, selected, names, r, j);
        return selected, grouped, false;
      }
    }
    RoundGives(rows, selected, names, r, j);
    more := true;
  }

  lemma TurnPicks(rows: seq<Row>, selected: seq<Row>, names: seq<string>, r: nat, j: nat)
    requires j < |names| && Ascending(names) && Progress(rows, selected, names, r, j)
    ensures Picks(selected, names[j]) == r
  {
    assert names[j] !in names[..j];
  }

  lemma RoundGives(rows: seq<Row>, selected: seq<Row>, names: seq<string>, r: nat, j: nat)
    requires j <= |names| && Progress(rows, selected, names, r, j) && InOrder(selected, names, r, j) && Ascending(names)
    ensures FairSample(rows, selected)
  {
    ProgressBalances(rows, selected, names, r, j);
  }

  lemma TurnRemaining(rows: seq<Row>, grouped: map<string, seq<Row>>, names: seq<string>, r: nat, j: nat)
    requires j < |names| && Ascending(names) && Remaining(rows, grouped, names, r, j) && r < |Group(rows, names[j])|
    ensures names[j] in grouped && grouped[names[j]] != [] && grouped[names[j]][0] == Group(rows, names[j])[r]
    ensures Remaining(rows, grouped[names[j] := grouped[names[j]][1..]], names, r, j + 1)
  {
    assert names[j] !in names[..j];
    assert names[..j + 1] == names[..j] + [names[j]];
    hide Group, Ascending;
  }

  /** The end of a round: exhausted names leave the dictionary. */
  method DropExhausted(rows: seq<Row>, selected: seq<Row>, grouped: map<string, seq<Row>>, keys: seq<string>,
                       names: seq<string>, ghost r: nat)
    returns (left: map<string, seq<Row>>, rest: seq<string>)
    requires NoDup(keys) && forall p :: p in keys <==> p in names
    requires Progress(rows, selected, names, r, |names|) && Remaining(rows, grouped, names, r, |names|)
    ensures NoDup(rest) && Progress(rows, selected, rest, r + 1, 0) && Remaining(rows, left, rest, r + 1, 0)
  {
    assert names[..|names|] == names;
    rest := Filter(keys, (p: string) => p in grouped && grouped[p] != []);
    FilterNoDup(keys, (p: string) => p in grouped && grouped[p] != []);
    left := map p | p in rest :: grouped[p];
    hide Group, Filter, NoDup;
    RoundEnds(rows, selected, names, r, rest);
  }

  lemma Regroup(rows: seq<Row>, selected: seq<Row>, grouped: map<string, seq<Row>>, keys: seq<string>,
                names: seq<string>, r: nat)
    requires forall p :: p in keys <==> p in names
    requires Progress(rows, selected, keys, r, 0) && Remaining(rows, grouped, keys, r, 0)
             && InOrder(selected, keys, r, 0)
    ensures Progress(rows, selected, names, r, 0) && Remaining(rows, grouped, names, r, 0)
            && InOrder(selected, names, r, 0)
  {
    hide Group, Picks, RoundRobin;
  }

  /** A round over, all rows so far belong to earlier rounds. */
  lemma NextRoundInOrder(selected: seq<Row>, names: seq<string>, r: nat, rest: seq<string>)
    requires InOrder(selected, names, r, |names|)
    ensures InOrder(selected, rest, r + 1, 0)
  {
    hide RoundRobin;
  }

  /** `_diverse_calibration_sample` */
  method DiverseCalibrationSample(rows: seq<Row>, limit: int) returns (selected: seq<Row>)
    ensures |selected| == if limit < 0 then 0
                          else if limit < |Filter(rows, Wanted())| then limit else |Filter(rows, Wanted())|
    ensures FairSample(rows, selected)
  {
    var grouped, keys := GroupRows(rows);
    selected := [];
    ghost var r := 0;
    Started(rows, grouped, keys);
    SelectionSize(rows, selected);
    hide Progress, Remaining, InOrder, FairSample, NoDup, Filter, TakesPrefixes, Picks;
    while |selected| < limit && keys != []
      invariant NoDup(keys) && Progress(rows, selected, keys, r, 0) && InOrder(selected, keys, r, 0)
                && Remaining(rows, grouped, keys, r, 0)
      invariant |selected| <= (if limit < 0 then 0 else limit) && |selected| <= |Filter(rows, Wanted())|
      decreases |Filter(rows, Wanted())| - |selected|
    {
      var names := SortBy(keys, StrLe);
      SortedNames(keys);
      Regroup(rows, selected, grouped, keys, names, r);
      var more: bool;
      selected, grouped, more := RunRound(rows, selected, grouped, names, limit, r);
      FairMeans(rows, selected);
      SelectionSize(rows, selected);
      if !more {
        return;
      }
      NextRoundInOrder(selected, names, r, []);
      grouped, keys := DropExhausted(rows, selected, grouped, keys, names, r);
      NextRoundInOrder(selected, names, r, keys);
      r := r + 1;
    }
    RoundsEnd(rows, selected, grouped, keys, r);
  }

  /** Between rounds the selection is fair, and with no name left it is everything. */
  lemma RoundsEnd(rows: seq<Row>, selected: seq<Row>, grouped: map<string, seq<Row>>, keys: seq<string>, r: nat)
    requires NoDup(keys) && Progress(rows, selected, keys, r, 0) && InOrder(selected, keys, r, 0)
    requires Remaining(rows, grouped, keys, r, 0)
    ensures FairSample(rows, selected) && |selected| <= |Filter(rows, Wanted())|
    ensures keys == [] ==> |selected| == |Filter(rows, Wanted())|
  {
    hide Progress, Remaining, InOrder, FairSample, NoDup, Filter, Picks;
    var names := SortBy(keys, StrLe);
    SortedNames(keys);
    Regroup(rows, selected, grouped, keys, names, r);
    RoundGives(rows, selected, names, r, 0);
    FairMeans(rows, selected);
    SelectionSize(rows, selected);
    if keys == [] {
      AllTaken(rows, selected, r);
    }
  }

  lemma FairMeans(rows: seq<Row>, selected: seq<Row>)
    requires FairSample(rows, selected)
    ensures TakesPrefixes(rows, selected)
  {
  }

  lemma AllTaken(rows: seq<Row>, selected: seq<Row>, r: nat)
    requires Progress(rows, selected, [], r, 0)
    ensures forall p :: Picks(selected, p) == |Group(rows, p)|
  {
  }

  lemma Started(rows: seq<Row>, grouped: map<string, seq<Row>>, keys: seq<string>)
    requires forall p :: p in keys <==> p in grouped
    requires forall p :: p in keys <==> Group(rows, p) != []
    requires forall p :: p in keys ==> grouped[p] == Group(rows, p)
    ensures Progress(rows, [], keys, 0, 0) && InOrder([], keys, 0, 0) && Remaining(rows, grouped, keys, 0, 0)
    ensures TakesPrefixes(rows, [])
  {
    hide Group;
  }

  // --- the contract determines the result ---------------------------------------------

  /** The next pick of a profile after position i, if it has one. */
  lemma {:induction false} NextPick(s: seq<Row>, i: nat, p: string) returns (m: nat)
    requires i <= |s| && Picks(s[..i], p) < Picks(s, p)
    ensures i <= m < |s| && s[m].profile == p && Round(s, m) == Picks(s[..i], p)
    decreases |s| - i
  {
    assert s[..|s|] == s;
    assert i < |s|;
    assert s[..i + 1] == s[..i] + [s[i]];
    PicksPush(s[..i], s[i], p);
    if s[i].profile == p {
      m := i;
    } else {
      m := NextPick(s, i + 1, p);
    }
  }

  /** The row at a position is the next of its profile's group. */
  lemma RowAt(rows: seq<Row>, s: seq<Row>, i: nat)
    requires TakesPrefixes(rows, s) && i < |s|
    ensures Round(s, i) < |Group(rows, s[i].profile)| && s[i] == Group(rows, s[i].profile)[Round(s, i)]
    ensures Round(s, i) < Picks(s, s[i].profile)
  {
    var p := s[i].profile;
    assert s == s[..i] + [s[i]] + s[i + 1..];
    FilterAppend(s[..i] + [s[i]], s[i + 1..], Of(p));
    FilterPush(s[..i], s[i], Of(p));
    assert Filter(s, Of(p)) <= Group(rows, p);
    assert Filter(s, Of(p))[Round(s, i)] == s[i];
  }

  /** Equal so far, a does not pick before b what b has still to pick. */
  lemma NotAhead(rows: seq<Row>, a: seq<Row>, b: seq<Row>, i: nat)
    requires FairSample(rows, a) && FairSample(rows, b) && i < |a| && i < |b| && a[..i] == b[..i]
    requires forall p :: Picks(a, p) == Picks(b, p)
    ensures a[i].profile == b[i].profile || Round(b, i) < Round(a, i)
            || (Round(b, i) == Round(a, i) && StrLt(b[i].profile, a[i].profile))
  {
    RowAt(rows, a, i);
    var m := NextPick(b, i, a[i].profile);
    if m != i {
      assert Before(b, i, m);
    }
  }

  lemma {:induction false} SameCountsSamePrefix(rows: seq<Row>, a: seq<Row>, b: seq<Row>, i: nat)
    requires FairSample(rows, a) && FairSample(rows, b) && i <= |a| == |b|
    requires forall p :: Picks(a, p) == Picks(b, p)
    ensures a[..i] == b[..i]
  {
    if i > 0 {
      var k := i - 1;
      SameCountsSamePrefix(rows, a, b, k);
      hide FairSample, Round, Picks, Group;
      NotAhead(rows, a, b, k);
      NotAhead(rows, b, a, k);
      NeverBothBefore(a[k].profile, b[k].profile);
      FairMeans(rows, a);
      FairMeans(rows, b);
      RowAt(rows, a, k);
      RowAt(rows, b, k);
      SameRound(a, b, k);
      assert a[..i] == a[..k] + [a[k]] && b[..i] == b[..k] + [b[k]];
    }
  }

  lemma SameRound(a: seq<Row>, b: seq<Row>, k: nat)
    requires k < |a| && k < |b| && a[..k] == b[..k]
    ensures a[k].profile == b[k].profile ==> Round(a, k) == Round(b, k)
  {
  }

  lemma NeverBothBefore(p: string, q: string)
    ensures !(StrLt(p, q) && StrLt(q, p))
  {
    if StrLe(p, q) && StrLe(q, p) {
      StrAntisymmetric(p, q);
    }
  }

  /** What fairness says of two profiles. */
  lemma FairAt(rows: seq<Row>, s: seq<Row>, p: string, q: string)
    requires FairSample(rows, s)
    ensures Picks(s, p) <= |Group(rows, p)|
    ensures Picks(s, p) <= Picks(s, q) + 1 || Picks(s, q) == |Group(rows, q)|
    ensures StrLt(p, q) ==> Picks(s, q) <= Picks(s, p) || Picks(s, p) == |Group(rows, p)|
  {
    hide RoundRobin;
    assert Filter(s, Of(p)) <= Group(rows, p);
  }

  /** No profile can have more rows in a than in b while another has fewer. */
  lemma NoMorePicks(rows: seq<Row>, a: seq<Row>, b: seq<Row>, p: string, q: string)
    requires FairSample(rows, a) && FairSample(rows, b)
    ensures !(Picks(a, p) > Picks(b, p) && Picks(a, q) < Picks(b, q))
  {
    hide Group, Picks, FairSample;
    FairAt(rows, a, p, q);
    FairAt(rows, b, q, p);
    FairAt(rows, a, q, p);
    FairAt(rows, b, p, q);
    StrTotal(p, q);
  }

  lemma SubAt(rows: seq<Row>, a: seq<Row>, b: seq<Row>, r: Row)
    requires TakesPrefixes(rows, a) && TakesPrefixes(rows, b) && Picks(a, r.profile) <= Picks(b, r.profile)
    ensures multiset(a)[r] <= multiset(b)[r]
  {
    var part, whole := Filter(a, Of(r.profile)), Filter(b, Of(r.profile));
    assert part <= Group(rows, r.profile) && whole <= Group(rows, r.profile);
    PrefixOfBoth(part, whole, Group(rows, r.profile));
    hide TakesPrefixes, Group, Filter, Picks;
    FilterCount(a, Of(r.profile), r);
    FilterCount(b, Of(r.profile), r);
    PrefixCounts(part, whole, r);
  }

  lemma PrefixOfBoth(part: seq<Row>, whole: seq<Row>, group: seq<Row>)
    requires part <= group && whole <= group && |part| <= |whole|
    ensures part <= whole
  {
  }

  lemma FewerIsSub(rows: seq<Row>, a: seq<Row>, b: seq<Row>)
    requires TakesPrefixes(rows, a) && TakesPrefixes(rows, b) && forall q :: Picks(a, q) <= Picks(b, q)
    ensures multiset(a) <= multiset(b)
  {
    hide TakesPrefixes, Picks;
    forall r
      ensures multiset(a)[r] <= multiset(b)[r]
    {
      assert Picks(a, r.profile) <= Picks(b, r.profile);
      SubAt(rows, a, b, r);
    }
  }

  lemma SameSizeSameCounts(rows: seq<Row>, a: seq<Row>, b: seq<Row>, p: string)
    requires FairSample(rows, a) && FairSample(rows, b) && |a| == |b|
    ensures Picks(a, p) <= Picks(b, p)
  {
    if Picks(a, p) > Picks(b, p) {
      forall q
        ensures Picks(b, q) <= Picks(a, q)
      {
        NoMorePicks(rows, a, b, p, q);
      }
      FewerIsSub(rows, b, a);
      SubmultisetEqual(multiset(b), multiset(a));
      FilterPermutation(a, b, Of(p));
      PermutationMembers(Filter(a, Of(p)), Filter(b, Of(p)));
    }
  }

  lemma SubmultisetEqual<T>(a: multiset<T>, b: multiset<T>)
    requires a <= b && |a| == |b|
    ensures a == b
  {
    assert b == a + (b - a);
    assert |b - a| == 0;
  }

  /** Any two fair samples of one size are the same, so the contract fixes every row and its place. */
  lemma SampleIsUnique(rows: seq<Row>, a: seq<Row>, b: seq<Row>)
    requires FairSample(rows, a) && FairSample(rows, b) && |a| == |b|
    ensures a == b
  {
    forall p
      ensures Picks(a, p) == Picks(b, p)
    {
      SameSizeSameCounts(rows, a, b, p);
      SameSizeSameCounts(rows, b, a, p);
    }
    SameCountsSamePrefix(rows, a, b, |a|);
    assert a[..|a|] == a && b[..|b|] == b;
  }
}
