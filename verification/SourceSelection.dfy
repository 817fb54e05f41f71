/** The two quota selectors: the monitoring scheduler and the validation canary. */
module SourceSelection {
  import opened Sequences
  import opened Ordering

  function AtMost(s: nat, limit: int): nat { if limit < 0 then 0 else if limit < s then limit else s }

  /** Python's `s[:n]` for n >= 0, and its empty result for n <= 0 after `max(0, n)`. */
  function Prefix<T>(s: seq<T>, n: int): seq<T> { s[..AtMost(|s|, n)] }

  lemma FilterSplitCount<T(!new)>(s: seq<T>, keep: T -> bool, other: T -> bool)
    requires forall x :: x in s ==> (other(x) <==> !keep(x))
    ensures |Filter(s, keep)| + |Filter(s, other)| == |s|
    decreases |s|
  {
    if s != [] {
      FilterSplitCount(s[1..], keep, other);
    }
  }

  // --- the monitoring scheduler --------------------------------------------------

  datatype Tier = A | B | C | D {
    function Rank(): int {
      match this
      case A => 0
      case B => 1
      case C => 2
      case D => 3
    }
  }

  datatype MonitoringCandidate = MonitoringCandidate(sourceId: int, tier: Tier, dueAt: int, campaign: string)

  predicate ChoiceLe(a: MonitoringCandidate, b: MonitoringCandidate) {
    a.tier.Rank() < b.tier.Rank()
    || (a.tier == b.tier && (a.dueAt < b.dueAt || (a.dueAt == b.dueAt && a.sourceId <= b.sourceId)))
  }

  function DueBy(now: int): MonitoringCandidate -> bool { (c: MonitoringCandidate) => c.dueAt <= now }

  function Exploring(): MonitoringCandidate -> bool { (c: MonitoringCandidate) => c.tier.C? || c.tier.D? }

  function Exploiting(): MonitoringCandidate -> bool { (c: MonitoringCandidate) => c.tier.A? || c.tier.B? }

  function NotIn(s: seq<MonitoringCandidate>): MonitoringCandidate -> bool { (c: MonitoringCandidate) => c !in s }

  /** A share between 0 and 1, as an exact fraction. */
  datatype Share = Share(num: nat, den: nat) {
    predicate Valid() { 0 < den && num <= den }

    function Of(limit: nat): (n: nat)
      requires Valid()
      ensures n * den <= limit * num < (n + 1) * den
    {
      limit * num / den
    }
  }

  lemma ShareWithin(share: Share, limit: nat)
    requires share.Valid()
    ensures share.Of(limit) <= limit
  {
    Scale(share.num, share.den, limit);
    Cancel(share.Of(limit), limit, share.den);
  }

  lemma Scale(a: nat, b: nat, c: nat)
    requires a <= b
    ensures c * a <= c * b
  {
  }

  lemma Cancel(a: nat, b: nat, c: nat)
    requires c > 0 && a * c <= b * c
    ensures a <= b
  {
  }

  datatype ChoiceError = NegativeLimit

  class WeightedMonitoringScheduler {
    const explorationShare: Share

    constructor (share: Share)
      requires share.Valid()
      ensures explorationShare == share
    {
      explorationShare := share;
    }

    /** `choose`: explore up to the share, exploit up to the limit, and explore again with what is left. */
    method Choose(candidates: seq<MonitoringCandidate>, now: int, limit: int)
      returns (r: Result<seq<MonitoringCandidate>, ChoiceError>)
      requires explorationShare.Valid()
      ensures limit < 0 ==> r == Failure(NegativeLimit)
      ensures limit >= 0 ==> r.Success? && IsChoice(explorationShare, candidates, now, limit, r.value)
    {
      if limit < 0 {
        return Failure(NegativeLimit);
      }
      var due := SortBy(Filter(candidates, DueBy(now)), ChoiceLe);
      NotInIsExploiting(due);
      FilterSplitCount(due, Exploring(), Exploiting());
      hide Filter, SortBy;
      var exploration := Filter(due, Exploring());
      var exploitation := Filter(due, NotIn(exploration));
      ShareWithin(explorationShare, limit);
      var first := AtMost(|exploration|, explorationShare.Of(limit));
      var selected := TakeShares(exploration, exploitation, first, limit);
      r := Success(selected);
    }
  }

  /** The slicing: `first` to explore, then exploit, then explore again. */
  method TakeShares(exploration: seq<MonitoringCandidate>, exploitation: seq<MonitoringCandidate>, first: nat,
                    limit: nat)
    returns (selected: seq<MonitoringCandidate>)
    requires first <= |exploration| && first <= limit
    ensures |selected| == AtMost(|exploration| + |exploitation|, limit)
    ensures exists taken: nat, last: nat :: ChoiceParts(exploration, exploitation, selected, first, taken, last)
                                            && (last > first ==> taken == |exploitation|)
  {
    selected := exploration[..first];
    selected := selected + Prefix(exploitation, limit - |selected|);
    if |selected| < limit {
      selected := selected + exploration[first..AtMost(|exploration|, limit - |selected| + first)];
    }
    selected := Prefix(selected, limit);
    SlicesAreParts(exploration, exploitation, selected, first, limit);
  }

  /** What the slicing amounts to. */
  lemma SlicesAreParts(exploration: seq<MonitoringCandidate>, exploitation: seq<MonitoringCandidate>,
                       selected: seq<MonitoringCandidate>, first: nat, limit: nat)
    requires first <= |exploration| && first <= limit
    requires var core := exploration[..first] + Prefix(exploitation, limit - first);
             selected == Prefix(if |core| < limit
                                then core + exploration[first..AtMost(|exploration|, limit - |core| + first)]
                                else core, limit)
    ensures |selected| == AtMost(|exploration| + |exploitation|, limit)
    ensures exists taken: nat, last: nat :: ChoiceParts(exploration, exploitation, selected, first, taken, last)
                                  && (last > first ==> taken == |exploitation|)
  {
    var taken := AtMost(|exploitation|, limit - first);
    var core := exploration[..first] + exploitation[..taken];
    var last := if |core| < limit then AtMost(|exploration|, limit - |core| + first) else first;
    assert ChoiceParts(exploration, exploitation, selected, first, taken, last);
  }

  /** An exploration prefix around an exploitation prefix. */
  ghost predicate ChoiceParts(exploration: seq<MonitoringCandidate>, exploitation: seq<MonitoringCandidate>,
                              selected: seq<MonitoringCandidate>, first: nat, taken: nat, last: nat) {
    && first <= last <= |exploration| && taken <= |exploitation|
    && selected == exploration[..first] + exploitation[..taken] + exploration[first..last]
  }

  /** The due candidates sorted; C and D get their share or all they have; each class is taken as a
      sorted prefix; nothing is left over while slots are free. */
  ghost predicate IsChoice(share: Share, candidates: seq<MonitoringCandidate>, now: int, limit: nat,
                           selected: seq<MonitoringCandidate>)
    requires share.Valid()
  {
    var due := SortBy(Filter(candidates, DueBy(now)), ChoiceLe);
    var exploration := Filter(due, Exploring());
    var exploitation := Filter(due, Exploiting());
    && |selected| == AtMost(|due|, limit)
    && exists first: nat, taken: nat, last: nat :: ChoiceParts(exploration, exploitation, selected, first, taken, last)
                                    && first == AtMost(|exploration|, share.Of(limit))
                                    && (last > first ==> taken == |exploitation|)
  }

  /** Comparing whole candidates with the exploration list selects exactly tiers A and B. */
  lemma NotInIsExploiting(due: seq<MonitoringCandidate>)
    ensures Filter(due, NotIn(Filter(due, Exploring()))) == Filter(due, Exploiting())
  {
    FilterAgree(due, NotIn(Filter(due, Exploring())), Exploiting());
  }

  lemma {:induction false} FilterAgree(s: seq<MonitoringCandidate>, p: MonitoringCandidate -> bool,
                                       q: MonitoringCandidate -> bool)
    requires forall x :: x in s ==> p(x) == q(x)
    ensures Filter(s, p) == Filter(s, q)
  {
    if s != [] {
      FilterAgree(s[1..], p, q);
    }
  }

  lemma ChoiceLeIsPreorder()
    ensures TotalPreorder(ChoiceLe)
  {
  }

  /** Of the chosen candidates, exactly the first few of each class in the sorted order. */
  lemma ChoiceTakesSortedPrefixes(share: Share, candidates: seq<MonitoringCandidate>, now: int, limit: nat,
                                  selected: seq<MonitoringCandidate>)
    requires share.Valid() && IsChoice(share, candidates, now, limit, selected)
    ensures var due := SortBy(Filter(candidates, DueBy(now)), ChoiceLe);
            && Filter(selected, Exploring()) <= Filter(due, Exploring())
            && Filter(selected, Exploiting()) <= Filter(due, Exploiting())
            && |Filter(selected, Exploring())| >= AtMost(|Filter(due, Exploring())|, share.Of(limit))
            && |selected| == AtMost(|Filter(candidates, DueBy(now))|, limit)
            && SortedBy(due, ChoiceLe)
  {
    ChoiceLeIsPreorder();
    var due := SortBy(Filter(candidates, DueBy(now)), ChoiceLe);
    SortSorted(Filter(candidates, DueBy(now)), ChoiceLe);
    var exploration, exploitation := Filter(due, Exploring()), Filter(due, Exploiting());
    var first, taken, last :| ChoiceParts(exploration, exploitation, selected, first, taken, last)
                              && first == AtMost(|exploration|, share.Of(limit))
                              && (last > first ==> taken == |exploitation|);
    hide SortBy;
    PartsOf(exploration, exploitation, selected, first, taken, last);
  }

  lemma PartsOf(exploration: seq<MonitoringCandidate>, exploitation: seq<MonitoringCandidate>,
                selected: seq<MonitoringCandidate>, first: nat, taken: nat, last: nat)
    requires ChoiceParts(exploration, exploitation, selected, first, taken, last)
    requires (forall c :: c in exploration ==> Exploring()(c)) && (forall c :: c in exploitation ==> Exploiting()(c))
    ensures Filter(selected, Exploring()) == exploration[..last]
            && Filter(selected, Exploiting()) == exploitation[..taken]
  {
    hide Filter;
    var x, y, z := exploration[..first], exploitation[..taken], exploration[first..last];
    SliceOfClass(exploration, 0, first, Exploring(), Exploiting());
    SliceOfClass(exploration, first, last, Exploring(), Exploiting());
    SliceOfClass(exploitation, 0, taken, Exploiting(), Exploring());
    FilterThree(x, y, z, Exploring());
    FilterThree(x, y, z, Exploiting());
    assert x + z == exploration[..last];
  }

  lemma SliceOfClass(s: seq<MonitoringCandidate>, from: nat, to: nat, p: MonitoringCandidate -> bool,
                     q: MonitoringCandidate -> bool)
    requires from <= to <= |s| && (forall x :: x in s ==> p(x)) && forall x :: p(x) ==> !q(x)
    ensures Filter(s[from..to], p) == s[from..to] && Filter(s[from..to], q) == []
  {
    assert forall x :: x in s[from..to] ==> x in s;
    FilterWhole(s[from..to], p, q);
  }

  lemma FilterThree(x: seq<MonitoringCandidate>, y: seq<MonitoringCandidate>, z: seq<MonitoringCandidate>,
                    p: MonitoringCandidate -> bool)
    ensures Filter(x + y + z, p) == Filter(x, p) + Filter(y, p) + Filter(z, p)
  {
    hide Filter;
    FilterAppend(x + y, z, p);
    FilterAppend(x, y, p);
  }

  lemma {:induction false} FilterWhole(s: seq<MonitoringCandidate>, p: MonitoringCandidate -> bool,
                                       q: MonitoringCandidate -> bool)
    requires forall x :: x in s ==> p(x) && !q(x)
    ensures Filter(s, p) == s && Filter(s, q) == []
  {
    if s != [] {
      FilterWhole(s[1..], p, q);
    }
  }

  /** No candidate is chosen more often than it was offered, and each chosen one was offered and due. */
  lemma ChoiceRepeatsNothing(share: Share, candidates: seq<MonitoringCandidate>, now: int, limit: nat,
                             selected: seq<MonitoringCandidate>)
    requires share.Valid() && IsChoice(share, candidates, now, limit, selected)
    ensures multiset(selected) <= multiset(candidates)
    ensures forall c :: c in selected ==> c.dueAt <= now
  {
    var due := SortBy(Filter(candidates, DueBy(now)), ChoiceLe);
    ChoiceTakesSortedPrefixes(share, candidates, now, limit, selected);
    forall c
      ensures multiset(selected)[c] <= multiset(candidates)[c] && (c in selected ==> c.dueAt <= now)
    {
      var mine := if Exploring()(c) then Exploring() else Exploiting();
      FilterCount(selected, mine, c);
      FilterCount(due, mine, c);
      PrefixCount(Filter(selected, mine), Filter(due, mine), c);
      FilterCount(candidates, DueBy(now), c);
    }
  }

  lemma {:induction false} FilterSorted(s: seq<MonitoringCandidate>, p: MonitoringCandidate -> bool)
    requires SortedBy(s, ChoiceLe)
    ensures SortedBy(Filter(s, p), ChoiceLe)
  {
    if s != [] {
      FilterSorted(s[1..], p);
      assert forall e :: e in s[1..] ==> ChoiceLe(s[0], e);
      hide ChoiceLe;
    }
  }

  /** What the source says of x before y: a lower tier letter, or the same tier and due earlier, or at the
      same time with the smaller identifier. */
  ghost predicate Preferred(x: MonitoringCandidate, y: MonitoringCandidate) {
    || (x.tier.A? && !y.tier.A?) || (x.tier.B? && (y.tier.C? || y.tier.D?)) || (x.tier.C? && y.tier.D?)
    || (x.tier == y.tier && x.dueAt < y.dueAt)
    || (x.tier == y.tier && x.dueAt == y.dueAt && x.sourceId < y.sourceId)
  }

  /** Within tiers A and B, and within C and D, no due candidate is left out for one it is preferred to. */
  lemma ChoicePrefersBetter(share: Share, candidates: seq<MonitoringCandidate>, now: int, limit: nat,
                            selected: seq<MonitoringCandidate>, x: MonitoringCandidate, y: MonitoringCandidate)
    requires share.Valid() && IsChoice(share, candidates, now, limit, selected)
    requires x in candidates && x.dueAt <= now && x !in selected && y in selected
    requires (x.tier.A? || x.tier.B?) <==> (y.tier.A? || y.tier.B?)
    ensures !Preferred(x, y)
  {
    var offered := Filter(candidates, DueBy(now));
    var due := SortBy(offered, ChoiceLe);
    var mine := if x.tier.A? || x.tier.B? then Exploiting() else Exploring();
    assert x in offered && mine(x) && mine(y);
    NotWorse(y, x);
    hide SortBy, IsChoice, ChoiceLe, Preferred;
    ChoiceTakesSortedPrefixes(share, candidates, now, limit, selected);
    FilterSorted(due, mine);
    PermutationMembers(offered, due);
    PrefixPrefers(Filter(due, mine), Filter(selected, mine), x, y);
  }

  lemma PrefixPrefers(all: seq<MonitoringCandidate>, chosen: seq<MonitoringCandidate>,
                      x: MonitoringCandidate, y: MonitoringCandidate)
    requires chosen <= all && SortedBy(all, ChoiceLe) && x in all && x !in chosen && y in chosen
    ensures ChoiceLe(y, x)
  {
    hide ChoiceLe;
    var i :| 0 <= i < |chosen| && chosen[i] == y;
    var j :| 0 <= j < |all| && all[j] == x;
    assert all[i] == y;
    forall k | 0 <= k < |chosen|
      ensures all[k] != x
    {
      assert all[k] == chosen[k] && chosen[k] in chosen;
    }
  }

  lemma NotWorse(y: MonitoringCandidate, x: MonitoringCandidate)
    ensures ChoiceLe(y, x) ==> !Preferred(x, y)
  {
  }

  /** With tiers A and B enough for all slots, C and D get their share of them and no more: the whole
      number of slots within the share, or all the due ones if those are fewer. */
  lemma ExplorationIsCapped(share: Share, candidates: seq<MonitoringCandidate>, now: int, limit: nat,
                            selected: seq<MonitoringCandidate>)
    requires share.Valid() && IsChoice(share, candidates, now, limit, selected)
    requires |Filter(Filter(candidates, DueBy(now)), Exploiting())| >= limit
    ensures var n, offered := |Filter(selected, Exploring())|, |Filter(Filter(candidates, DueBy(now)), Exploring())|;
            n <= offered && n * share.den <= limit * share.num
            && (n < offered ==> limit * share.num < (n + 1) * share.den)
  {
    hide *;
    ExplorationIsShare(share, candidates, now, limit, selected);
    ShareOrLess(share, limit, |Filter(Filter(candidates, DueBy(now)), Exploring())|);
  }

  lemma ExplorationIsShare(share: Share, candidates: seq<MonitoringCandidate>, now: int, limit: nat,
                           selected: seq<MonitoringCandidate>)
    requires share.Valid() && IsChoice(share, candidates, now, limit, selected)
    requires |Filter(Filter(candidates, DueBy(now)), Exploiting())| >= limit
    ensures |Filter(selected, Exploring())|
         == AtMost(|Filter(Filter(candidates, DueBy(now)), Exploring())|, share.Of(limit))
  {
    var offered := Filter(candidates, DueBy(now));
    var due := SortBy(offered, ChoiceLe);
    var exploration, exploitation := Filter(due, Exploring()), Filter(due, Exploiting());
    hide SortBy, Filter;
    SameClassSize(offered, due, Exploring());
    SameClassSize(offered, due, Exploiting());
    ClassMembers(due);
    var first, taken, last :| ChoiceParts(exploration, exploitation, selected, first, taken, last)
                              && first == AtMost(|exploration|, share.Of(limit))
                              && (last > first ==> taken == |exploitation|);
    assert |selected| <= limit;
    hide *;
    CappedParts(exploration, exploitation, selected, first, taken, last, limit);
  }

  lemma ClassMembers(due: seq<MonitoringCandidate>)
    ensures forall c :: c in Filter(due, Exploring()) ==> Exploring()(c)
    ensures forall c :: c in Filter(due, Exploiting()) ==> Exploiting()(c)
  {
  }

  lemma CappedParts(exploration: seq<MonitoringCandidate>, exploitation: seq<MonitoringCandidate>,
                    selected: seq<MonitoringCandidate>, first: nat, taken: nat, last: nat, limit: nat)
    requires ChoiceParts(exploration, exploitation, selected, first, taken, last)
    requires |selected| <= limit <= |exploitation| && (last > first ==> taken == |exploitation|)
    requires (forall c :: c in exploration ==> Exploring()(c)) && (forall c :: c in exploitation ==> Exploiting()(c))
    ensures |Filter(selected, Exploring())| == first
  {
    hide Filter;
    PartsOf(exploration, exploitation, selected, first, taken, last);
  }

  lemma ShareOrLess(share: Share, limit: nat, offered: nat)
    requires share.Valid()
    ensures var n := AtMost(offered, share.Of(limit));
            n <= offered && n * share.den <= limit * share.num
            && (n < offered ==> limit * share.num < (n + 1) * share.den)
  {
    var n, most := AtMost(offered, share.Of(limit)), share.Of(limit);
    Scale(n, most, share.den);
  }

  lemma SameClassSize(s: seq<MonitoringCandidate>, t: seq<MonitoringCandidate>, p: MonitoringCandidate -> bool)
    requires multiset(s) == multiset(t)
    ensures |Filter(s, p)| == |Filter(t, p)|
  {
    FilterPermutation(s, t, p);
    assert |multiset(Filter(s, p))| == |Filter(s, p)|;
  }

  lemma FilterPermutation(s: seq<MonitoringCandidate>, t: seq<MonitoringCandidate>, p: MonitoringCandidate -> bool)
    requires multiset(s) == multiset(t)
    ensures multiset(Filter(s, p)) == multiset(Filter(t, p))
  {
    forall c
      ensures multiset(Filter(s, p))[c] == multiset(Filter(t, p))[c]
    {
      FilterCount(s, p, c);
      FilterCount(t, p, c);
    }
  }

  lemma PrefixCount<T(!new)>(p: seq<T>, s: seq<T>, x: T)
    requires p <= s
    ensures multiset(p)[x] <= multiset(s)[x]
  {
    assert s == p + s[|p|..];
  }

  // --- the validation canary -------------------------------------------------------

  datatype Priority = High | Medium | Low | Insufficient

  datatype Candidate = Candidate(id: int, priority: Priority)

  function Bucket(p: Priority): Candidate -> bool { (c: Candidate) => c.priority == p }

  function Ids(s: seq<Candidate>): seq<int> { Map((c: Candidate) => c.id, s) }

  function Unused(s: seq<Candidate>): Candidate -> bool { (c: Candidate) => c.id !in Ids(s) }

  function HighQuota(limit: int): int {
    var share := limit * 60 / 100;
    if share < 1 then 1 else share
  }

  function MediumQuota(limit: int): int { limit * 25 / 100 }

  /** The quota picks: high, then medium, then the exploration classes up to the limit. */
  function QuotaPicks(candidates: seq<Candidate>, limit: int): seq<Candidate> {
    var core := Prefix(Filter(candidates, Bucket(High)), HighQuota(limit)) +
                Prefix(Filter(candidates, Bucket(Medium)), MediumQuota(limit));
    core + Prefix(Pool(candidates), limit - |core|)
  }

  /** The first candidate of each identifier not used yet. */
  function FreshOf(candidates: seq<Candidate>, used: set<int>): seq<Candidate>
    decreases |candidates|
  {
    if candidates == [] then []
    else if candidates[0].id in used then FreshOf(candidates[1..], used)
    else [candidates[0]] + FreshOf(candidates[1..], used + {candidates[0].id})
  }

  function IdSet(s: seq<Candidate>): set<int> { set c | c in s :: c.id }

  /** The quota picks, filled up in input order with candidates whose identifier is not yet picked. */
  function Canary(candidates: seq<Candidate>, limit: int): seq<Candidate> {
    var picks := QuotaPicks(candidates, limit);
    Prefix(picks + FreshOf(candidates, IdSet(picks)), limit)
  }

  /** `_select_candidate_canary` */
  method SelectCandidateCanary(candidates: seq<Candidate>, limit: int) returns (r: seq<Candidate>)
    ensures r == Canary(candidates, limit)
  {
    var selected := QuotaPicks(candidates, limit);
    if |selected| < limit {
      selected := FillUp(candidates, selected, limit);
    }
    r := Prefix(selected, limit);
  }

  method FillUp(candidates: seq<Candidate>, picks: seq<Candidate>, limit: int) returns (selected: seq<Candidate>)
    requires |picks| < limit
    ensures Prefix(selected, limit) == Prefix(picks + FreshOf(candidates, IdSet(picks)), limit)
  {
    selected := picks;
    var used := set c | c in picks :: c.id;
    ghost var all := picks + FreshOf(candidates, IdSet(picks));
    var n := 0;
    assert candidates[0..] == candidates;
    while n < |candidates| && |selected| < limit
      invariant n <= |candidates| && selected + FreshOf(candidates[n..], used) == all
    {
      FreshNext(candidates[n..], used, selected);
      assert candidates[n..][1..] == candidates[n + 1..];
      hide FreshOf;
      if candidates[n].id !in used {
        selected := selected + [candidates[n]];
        used := used + {candidates[n].id};
      }
      n := n + 1;
    }
    assert n == |candidates| ==> candidates[n..] == [];
    PrefixEnough(selected, FreshOf(candidates[n..], used), limit);
  }

  lemma FreshNext(rest: seq<Candidate>, used: set<int>, selected: seq<Candidate>)
    requires rest != []
    ensures selected + FreshOf(rest, used)
         == if rest[0].id in used then selected + FreshOf(rest[1..], used)
            else selected + [rest[0]] + FreshOf(rest[1..], used + {rest[0].id})
  {
  }

  /** Filling up leaves no identifier out, and picks none twice. */
  lemma {:induction false} FreshCovers(candidates: seq<Candidate>, used: set<int>)
    ensures var filling := FreshOf(candidates, used);
            && IdSet(filling) == IdSet(candidates) - used && NoDup(Ids(filling))
            && forall c :: c in filling ==> c in candidates
    decreases |candidates|
  {
    if candidates != [] {
      var c, tail := candidates[0], candidates[1..];
      IdsOfCons(c, tail);
      assert candidates == [c] + tail;
      if c.id in used {
        FreshCovers(tail, used);
        hide FreshOf, IdSet, NoDup, Ids;
      } else {
        var rest := FreshOf(tail, used + {c.id});
        assert FreshOf(candidates, used) == [c] + rest;
        hide FreshOf, IdSet, Ids, NoDup;
        FreshCovers(tail, used + {c.id});
        IdsOfCons(c, rest);
        assert c.id !in IdSet(rest);
        NoDupCons(c.id, Ids(rest));
        assert forall d :: d in [c] + rest ==> d == c || d in rest;
      }
    }
  }

  lemma IdsOfCons(c: Candidate, rest: seq<Candidate>)
    ensures Ids([c] + rest) == [c.id] + Ids(rest) && IdSet([c] + rest) == {c.id} + IdSet(rest)
    ensures forall id :: id in Ids(rest) <==> id in IdSet(rest)
  {
    IdsListed(rest);
    assert forall d :: d in [c] + rest <==> d == c || d in rest;
  }

  lemma DistinctTail(candidates: seq<Candidate>)
    requires candidates != [] && NoDup(Ids(candidates))
    ensures NoDup(Ids(candidates[1..])) && forall d :: d in candidates[1..] ==> d.id != candidates[0].id
  {
    var ids := Ids(candidates);
    assert Ids(candidates[1..]) == ids[1..];
    forall d | d in candidates[1..]
      ensures d.id != candidates[0].id
    {
      var i :| 0 < i < |candidates| && candidates[i] == d;
      assert ids[0] != ids[i];
    }
  }

  /** Over distinct identifiers the fill is simply the unused candidates. */
  lemma {:induction false} FreshIsUnused(candidates: seq<Candidate>, used: set<int>, keep: Candidate -> bool)
    requires NoDup(Ids(candidates)) && forall c :: c in candidates ==> (keep(c) <==> c.id !in used)
    ensures FreshOf(candidates, used) == Filter(candidates, keep)
    decreases |candidates|
  {
    if candidates != [] {
      var c, rest := candidates[0], candidates[1..];
      DistinctTail(candidates);
      hide NoDup, Ids;
      FreshIsUnused(rest, if c.id in used then used else used + {c.id}, keep);
    }
  }

  lemma PrefixEnough<T>(s: seq<T>, rest: seq<T>, limit: int)
    requires |s| >= limit || rest == []
    ensures Prefix(s + rest, limit) == Prefix(s, limit)
  {
    assert rest == [] ==> s + rest == s;
  }

  lemma IdsListed(s: seq<Candidate>)
    ensures forall id :: id in Ids(s) <==> id in set c | c in s :: c.id
  {
    forall id
      ensures id in Ids(s) <==> exists c :: c in s && c.id == id
    {
      MapMembers((c: Candidate) => c.id, s, id);
    }
  }

  // --- what the canary selects -----------------------------------------------------

  lemma PrefixFilters(s: seq<Candidate>, t: seq<Candidate>, p: Candidate -> bool)
    requires s <= t
    ensures Filter(s, p) <= Filter(t, p)
  {
    assert t == s + t[|s|..];
    FilterAppend(s, t[|s|..], p);
  }

  lemma {:induction false} FiltersCommute(s: seq<Candidate>, p: Candidate -> bool, q: Candidate -> bool)
    ensures Filter(Filter(s, p), q) == Filter(Filter(s, q), p)
  {
    if s != [] {
      FiltersCommute(s[1..], p, q);
    }
  }

  lemma {:induction false} FilterAllOrNone(s: seq<Candidate>, p: Candidate -> bool)
    ensures (forall c :: c in s ==> p(c)) ==> Filter(s, p) == s
    ensures (forall c :: c in s ==> !p(c)) ==> Filter(s, p) == []
  {
    if s != [] {
      FilterAllOrNone(s[1..], p);
    }
  }

  lemma BucketOfBucket(candidates: seq<Candidate>, p: Priority, q: Priority)
    ensures Filter(Filter(candidates, Bucket(p)), Bucket(q)) == if p == q then Filter(candidates, Bucket(p)) else []
  {
    FilterAllOrNone(Filter(candidates, Bucket(p)), Bucket(q));
  }

  /** The exploration pool: low candidates, then insufficient ones. */
  function Pool(candidates: seq<Candidate>): seq<Candidate> {
    Filter(candidates, Bucket(Low)) + Filter(candidates, Bucket(Insufficient))
  }

  lemma PoolOfClass(candidates: seq<Candidate>, p: Priority)
    ensures Filter(Pool(candidates), Bucket(p))
         == if p.Low? || p.Insufficient? then Filter(candidates, Bucket(p)) else []
  {
    hide Filter;
    BucketOfBucket(candidates, Low, p);
    BucketOfBucket(candidates, Insufficient, p);
    FilterAppend(Filter(candidates, Bucket(Low)), Filter(candidates, Bucket(Insufficient)), Bucket(p));
  }

  /** A part of the high class, a part of the medium class and a part of the pool, class by class. */
  lemma ThreeParts(candidates: seq<Candidate>, h: seq<Candidate>, m: seq<Candidate>, x: seq<Candidate>, p: Priority)
    requires h <= Filter(candidates, Bucket(High)) && m <= Filter(candidates, Bucket(Medium)) && x <= Pool(candidates)
    ensures Filter(h + m + x, Bucket(p)) <= Filter(candidates, Bucket(p))
  {
    hide Filter, Pool;
    BucketOfBucket(candidates, High, p);
    BucketOfBucket(candidates, Medium, p);
    PoolOfClass(candidates, p);
    PrefixFilters(h, Filter(candidates, Bucket(High)), Bucket(p));
    PrefixFilters(m, Filter(candidates, Bucket(Medium)), Bucket(p));
    PrefixFilters(x, Pool(candidates), Bucket(p));
    FilterAppend(h + m, x, Bucket(p));
    FilterAppend(h, m, Bucket(p));
  }

  /** The quota picks hold an initial part of each class. */
  lemma PicksArePrefixes(candidates: seq<Candidate>, limit: int, p: Priority)
    ensures Filter(QuotaPicks(candidates, limit), Bucket(p)) <= Filter(candidates, Bucket(p))
  {
    hide Filter, HighQuota, MediumQuota;
    var h := Prefix(Filter(candidates, Bucket(High)), HighQuota(limit));
    var m := Prefix(Filter(candidates, Bucket(Medium)), MediumQuota(limit));
    var x := Prefix(Pool(candidates), limit - |h + m|);
    ThreeParts(candidates, h, m, x, p);
    assert QuotaPicks(candidates, limit) == h + m + x;
  }

  /** The candidates in the order the canary considers them. */
  function Considered(candidates: seq<Candidate>, limit: int): seq<Candidate> {
    var picks := QuotaPicks(candidates, limit);
    picks + Filter(candidates, Unused(picks))
  }

  lemma SameId(candidates: seq<Candidate>, c: Candidate, d: Candidate)
    requires NoDup(Ids(candidates)) && c in candidates && d in candidates && c.id == d.id
    ensures c == d
  {
    var i :| 0 <= i < |candidates| && candidates[i] == c;
    var j :| 0 <= j < |candidates| && candidates[j] == d;
    assert Ids(candidates)[i] == Ids(candidates)[j];
  }

  lemma IdsDistinct(candidates: seq<Candidate>)
    requires NoDup(Ids(candidates))
    ensures NoDup(candidates)
  {
    forall i, j | 0 <= i < j < |candidates|
      ensures candidates[i] != candidates[j]
    {
      assert Ids(candidates)[i] != Ids(candidates)[j];
    }
  }

  lemma PicksAreCandidates(candidates: seq<Candidate>, limit: int)
    ensures forall c :: c in QuotaPicks(candidates, limit) ==> c in candidates
  {
  }

  lemma SplitApart<T(!new)>(s: seq<T>, k: nat, x: T)
    requires NoDup(s) && k <= |s| && x in s[k..]
    ensures x !in s[..k]
  {
  }

  /** A class member beyond the picked part shares no identifier with a pick. */
  lemma RestIsUnused(candidates: seq<Candidate>, limit: int, p: Priority, c: Candidate)
    requires NoDup(Ids(candidates))
    requires var picked := Filter(QuotaPicks(candidates, limit), Bucket(p));
             picked <= Filter(candidates, Bucket(p)) && c in Filter(candidates, Bucket(p))[|picked|..]
    ensures Unused(QuotaPicks(candidates, limit))(c)
  {
    var picks := QuotaPicks(candidates, limit);
    var whole := Filter(candidates, Bucket(p));
    var k := |Filter(picks, Bucket(p))|;
    assert c in whole;
    IdsDistinct(candidates);
    FilterNoDup(candidates, Bucket(p));
    SplitApart(whole, k, c);
    assert whole[..k] == Filter(picks, Bucket(p));
    assert c !in picks;
    PicksAreCandidates(candidates, limit);
    forall d | d in picks
      ensures d.id != c.id
    {
      if d.id == c.id {
        SameId(candidates, c, d);
      }
    }
    MapMembers((c: Candidate) => c.id, picks, c.id);
  }

  /** Whatever was not picked of a class is the rest of it, in order. */
  lemma UnusedOfClass(candidates: seq<Candidate>, limit: int, p: Priority)
    requires NoDup(Ids(candidates))
    ensures var whole := Filter(candidates, Bucket(p));
            var picked := Filter(QuotaPicks(candidates, limit), Bucket(p));
            picked <= whole &&
            Filter(Filter(candidates, Unused(QuotaPicks(candidates, limit))), Bucket(p)) == whole[|picked|..]
  {
    var picks := QuotaPicks(candidates, limit);
    var whole := Filter(candidates, Bucket(p));
    var picked := Filter(picks, Bucket(p));
    hide QuotaPicks, NoDup, Ids;
    PicksArePrefixes(candidates, limit, p);
    var rest := whole[|picked|..];
    assert whole == picked + rest;
    forall c | c in picked
      ensures !Unused(picks)(c)
    {
      IdsListed(picks);
    }
    forall c | c in rest
      ensures Unused(picks)(c)
    {
      RestIsUnused(candidates, limit, p, c);
    }
    FilterAllOrNone(picked, Unused(picks));
    FilterAllOrNone(rest, Unused(picks));
    hide Filter;
    FiltersCommute(candidates, Unused(picks), Bucket(p));
    FilterAppend(picked, rest, Unused(picks));
  }

  /** The canary considers each class in its input order, only interleaving classes differently. */
  lemma ClassOrderKept(candidates: seq<Candidate>, limit: int, p: Priority)
    requires NoDup(Ids(candidates))
    ensures Filter(Considered(candidates, limit), Bucket(p)) == Filter(candidates, Bucket(p))
  {
    UnusedOfClass(candidates, limit, p);
    FilterAppend(QuotaPicks(candidates, limit), Filter(candidates, Unused(QuotaPicks(candidates, limit))), Bucket(p));
    hide Filter, QuotaPicks, Unused;
  }

  lemma ConsideredPermutes(candidates: seq<Candidate>, limit: int)
    requires NoDup(Ids(candidates))
    ensures multiset(Considered(candidates, limit)) == multiset(candidates)
  {
    forall c
      ensures multiset(Considered(candidates, limit))[c] == multiset(candidates)[c]
    {
      ClassOrderKept(candidates, limit, c.priority);
      FilterCount(Considered(candidates, limit), Bucket(c.priority), c);
      FilterCount(candidates, Bucket(c.priority), c);
    }
  }

  lemma CanaryIsConsidered(candidates: seq<Candidate>, limit: int)
    requires NoDup(Ids(candidates))
    ensures Canary(candidates, limit) == Prefix(Considered(candidates, limit), limit)
  {
    var picks := QuotaPicks(candidates, limit);
    hide QuotaPicks, Filter, FreshOf;
    forall c
      ensures Unused(picks)(c) <==> c.id !in IdSet(picks)
    {
      IdsListed(picks);
    }
    FreshIsUnused(candidates, IdSet(picks), Unused(picks));
  }

  /** Even with repeated identifiers the canary is full, or has an item of every identifier there is. */
  lemma CanaryLeavesNoneOut(candidates: seq<Candidate>, limit: int)
    requires limit >= 0
    ensures var r := Canary(candidates, limit);
            && |r| <= limit && (forall c :: c in r ==> c in candidates)
            && (|r| == limit || IdSet(r) == IdSet(candidates))
  {
    var picks := QuotaPicks(candidates, limit);
    var filling := FreshOf(candidates, IdSet(picks));
    PicksAreCandidates(candidates, limit);
    FreshCovers(candidates, IdSet(picks));
    hide QuotaPicks, FreshOf;
    assert forall c :: c in picks + filling <==> c in picks || c in filling;
    assert IdSet(picks + filling) == IdSet(picks) + IdSet(filling);
    assert IdSet(picks) <= IdSet(candidates);
    var r := Canary(candidates, limit);
    assert |picks + filling| < limit ==> r == picks + filling;
    assert forall c :: c in r ==> c in picks + filling;
  }

  /** The canary is full whenever the input allows, repeats nothing, draws only on the input, and
      takes an initial part of every class. */
  lemma CanaryIsFairAndFull(candidates: seq<Candidate>, limit: int)
    requires NoDup(Ids(candidates))
    ensures var r := Canary(candidates, limit);
            && |r| == AtMost(|candidates|, limit)
            && NoDup(r) && (forall c :: c in r ==> c in candidates)
            && forall p :: Filter(r, Bucket(p)) <= Filter(candidates, Bucket(p))
  {
    var all := Considered(candidates, limit);
    var r := Canary(candidates, limit);
    hide Filter, Considered, Canary, Ids;
    CanaryIsConsidered(candidates, limit);
    ConsideredPermutes(candidates, limit);
    InitialPart(all, candidates, limit);
    forall p
      ensures Filter(r, Bucket(p)) <= Filter(candidates, Bucket(p))
    {
      ClassOrderKept(candidates, limit, p);
      PrefixFilters(r, all, Bucket(p));
    }
  }

  /** An initial part of a rearrangement of distinct candidates. */
  lemma InitialPart(all: seq<Candidate>, candidates: seq<Candidate>, limit: int)
    requires multiset(all) == multiset(candidates) && NoDup(Ids(candidates))
    ensures var r := Prefix(all, limit);
            r <= all && |r| == AtMost(|candidates|, limit) && NoDup(r) && forall c :: c in r ==> c in candidates
  {
    hide Ids;
    PermutationMembers(all, candidates);
    IdsDistinct(candidates);
    var r := Prefix(all, limit);
    assert forall c :: c in r ==> c in all;
  }

  /** With room for at least one, the high and medium classes get their quotas. */
  lemma CanaryMeetsQuotas(candidates: seq<Candidate>, limit: int)
    requires limit >= 1
    ensures |Filter(Canary(candidates, limit), Bucket(High))|
         >= AtMost(|Filter(candidates, Bucket(High))|, HighQuota(limit))
    ensures |Filter(Canary(candidates, limit), Bucket(Medium))|
         >= AtMost(|Filter(candidates, Bucket(Medium))|, MediumQuota(limit))
  {
    var h := Prefix(Filter(candidates, Bucket(High)), HighQuota(limit));
    var m := Prefix(Filter(candidates, Bucket(Medium)), MediumQuota(limit));
    var r := Canary(candidates, limit);
    QuotasFit(limit);
    assert h + m <= r;
    PrefixFilters(h + m, r, Bucket(High));
    PrefixFilters(h + m, r, Bucket(Medium));
    FilterAppend(h, m, Bucket(High));
    FilterAppend(h, m, Bucket(Medium));
    assert forall c :: c in h ==> c in Filter(candidates, Bucket(High));
    assert forall c :: c in m ==> c in Filter(candidates, Bucket(Medium));
    FilterAllOrNone(h, Bucket(High));
    FilterAllOrNone(m, Bucket(Medium));
    FilterAllOrNone(h, Bucket(Medium));
    FilterAllOrNone(m, Bucket(High));
  }

  /** Of a limit of at least 1 the high class gets three fifths, in whole slots but never none, and the medium
      class a quarter: all its candidates, or that many. */
  lemma CanaryShares(candidates: seq<Candidate>, limit: int, n: nat)
    requires limit >= 1
    ensures n <= |Filter(candidates, Bucket(High))| && (100 * n <= 60 * limit || n == 1)
            ==> n <= |Filter(Canary(candidates, limit), Bucket(High))|
    ensures n <= |Filter(candidates, Bucket(Medium))| && 100 * n <= 25 * limit
            ==> n <= |Filter(Canary(candidates, limit), Bucket(Medium))|
  {
    hide Canary, Filter;
    CanaryMeetsQuotas(candidates, limit);
  }

  /** With enough of every class the shares are exact: the rest goes to the low and insufficient ones. */
  lemma CanarySharesExact(candidates: seq<Candidate>, limit: int)
    requires limit >= 1 && |Filter(candidates, Bucket(High))| >= limit && |Filter(candidates, Bucket(Medium))| >= limit
    requires |Pool(candidates)| >= limit
    ensures var h := |Filter(Canary(candidates, limit), Bucket(High))|;
            var m := |Filter(Canary(candidates, limit), Bucket(Medium))|;
            && (limit == 1 ==> h == 1) && (limit > 1 ==> 100 * h <= 60 * limit < 100 * (h + 1))
            && 100 * m <= 25 * limit < 100 * (m + 1)
            && |Canary(candidates, limit)| == limit
  {
    var h := Prefix(Filter(candidates, Bucket(High)), HighQuota(limit));
    var m := Prefix(Filter(candidates, Bucket(Medium)), MediumQuota(limit));
    var rest := Prefix(Pool(candidates), limit - |h + m|);
    QuotasFit(limit);
    QuotaRules(limit);
    QuotaPicksFill(candidates, limit);
    ClassesApart(candidates, h, m, rest);
    hide Filter, Pool, Canary, HighQuota, MediumQuota, Prefix;
    ClassSizes(h, m, rest);
  }

  lemma QuotaRules(limit: int)
    requires limit >= 1
    ensures limit == 1 ==> HighQuota(limit) == 1
    ensures limit > 1 ==> 100 * HighQuota(limit) <= 60 * limit < 100 * (HighQuota(limit) + 1)
    ensures 100 * MediumQuota(limit) <= 25 * limit < 100 * (MediumQuota(limit) + 1)
  {
  }

  lemma QuotaPicksFill(candidates: seq<Candidate>, limit: int)
    requires limit >= 1 && |Filter(candidates, Bucket(High))| >= limit && |Filter(candidates, Bucket(Medium))| >= limit
    requires |Pool(candidates)| >= limit
    ensures var h := Prefix(Filter(candidates, Bucket(High)), HighQuota(limit));
            var m := Prefix(Filter(candidates, Bucket(Medium)), MediumQuota(limit));
            && |h| == HighQuota(limit) && |m| == MediumQuota(limit)
            && Canary(candidates, limit) == h + m + Prefix(Pool(candidates), limit - |h + m|)
            && |Canary(candidates, limit)| == limit
  {
    QuotasFit(limit);
    var picks := QuotaPicks(candidates, limit);
    var others := FreshOf(candidates, IdSet(picks));
    hide Filter, Pool, FreshOf, HighQuota, MediumQuota, IdSet;
    FullPicks(Filter(candidates, Bucket(High)), Filter(candidates, Bucket(Medium)), Pool(candidates), others,
              HighQuota(limit), MediumQuota(limit), limit);
  }

  lemma FullPicks(high: seq<Candidate>, medium: seq<Candidate>, pool: seq<Candidate>, others: seq<Candidate>,
                  h: int, m: int, limit: int)
    requires 0 <= h && 0 <= m && h + m <= limit && |high| >= limit && |medium| >= limit && |pool| >= limit
    ensures |Prefix(high, h)| == h && |Prefix(medium, m)| == m
    ensures var core := Prefix(high, h) + Prefix(medium, m);
            var picks := core + Prefix(pool, limit - |core|);
            |picks| == limit && Prefix(picks + others, limit) == picks
  {
  }

  lemma ClassesApart(candidates: seq<Candidate>, h: seq<Candidate>, m: seq<Candidate>, rest: seq<Candidate>)
    requires h <= Filter(candidates, Bucket(High)) && m <= Filter(candidates, Bucket(Medium))
             && rest <= Pool(candidates)
    ensures (forall c :: c in h ==> c.priority.High?) && (forall c :: c in m ==> c.priority.Medium?)
    ensures forall c :: c in rest ==> !c.priority.High? && !c.priority.Medium?
  {
    PoolIsOther(candidates);
    assert forall c :: c in h ==> c in Filter(candidates, Bucket(High));
    assert forall c :: c in m ==> c in Filter(candidates, Bucket(Medium));
    assert forall c :: c in rest ==> c in Pool(candidates);
  }

  lemma PoolIsOther(candidates: seq<Candidate>)
    ensures forall c :: c in Pool(candidates) ==> c.priority.Low? || c.priority.Insufficient?
  {
  }

  lemma ClassSizes(h: seq<Candidate>, m: seq<Candidate>, rest: seq<Candidate>)
    requires (forall c :: c in h ==> c.priority.High?) && (forall c :: c in m ==> c.priority.Medium?)
    requires forall c :: c in rest ==> !c.priority.High? && !c.priority.Medium?
    ensures |Filter(h + m + rest, Bucket(High))| == |h| && |Filter(h + m + rest, Bucket(Medium))| == |m|
  {
    FilterAppend(h + m, rest, Bucket(High));
    FilterAppend(h, m, Bucket(High));
    FilterAppend(h + m, rest, Bucket(Medium));
    FilterAppend(h, m, Bucket(Medium));
    FilterAllOrNone(h, Bucket(High));
    FilterAllOrNone(m, Bucket(High));
    FilterAllOrNone(rest, Bucket(High));
    FilterAllOrNone(h, Bucket(Medium));
    FilterAllOrNone(m, Bucket(Medium));
    FilterAllOrNone(rest, Bucket(Medium));
  }

  lemma QuotasFit(limit: int)
    requires limit >= 1
    ensures HighQuota(limit) + MediumQuota(limit) <= limit && HighQuota(limit) >= 1 && MediumQuota(limit) >= 0
  {
  }
}
