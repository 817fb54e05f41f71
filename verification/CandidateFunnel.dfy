/** The Web-discovery candidate funnel: every Telegram reference met is counted once,
    observed under its hash, and later resolved to a terminal bucket. */
module CandidateFunnel {
  import opened Sequences

  const MAX_OBSERVATIONS := 1000
  const OTHER_REJECTION := "OTHER_REJECTION"

  datatype Extraction = DirectResult | PageExtracted

  /** Reference digests: source keys and rejected URLs never collide. */
  datatype Digest = OfKey(key: string) | OfUrl(url: string)

  datatype Observation = Observation(digest: Digest, kind: Extraction, count: nat, bucket: Option<string>) {
    predicate Pending() { bucket.None? }
  }

  datatype Funnel = Funnel(raw: nat, valid: nat, rejected: nat, normalized: nat, direct: nat, extracted: nat,
                           observations: seq<Observation>, terminal: map<string, nat>)

  const EMPTY: Funnel := Funnel(0, 0, 0, 0, 0, 0, [], map[])

  type Classifications = map<Digest, string>

  datatype Event =
    | Valid(key: string, kind: Extraction)
    | Invalid(url: string, reason: string)
    | Finalize(classes: Classifications)

  /** The resolution's bucket, or `OTHER_REJECTION` when there is none or it is blank. */
  function BucketOf(c: Classifications, d: Digest): (bucket: string)
    ensures bucket != "" && (bucket != "OTHER_REJECTION" ==> d in c && c[d] == bucket)
  {
    if d in c && c[d] != "" then c[d] else OTHER_REJECTION
  }

  /** The first observation of a digest, if any. */
  function Find(s: seq<Observation>, d: Digest): (i: nat)
    ensures i <= |s| && (i < |s| ==> s[i].digest == d) && forall j :: 0 <= j < i ==> s[j].digest != d
  {
    if s == [] || s[0].digest == d then 0 else 1 + Find(s[1..], d)
  }

  function Observe(s: seq<Observation>, key: string, kind: Extraction): seq<Observation> {
    var i := Find(s, OfKey(key));
    if i < |s| then s[i := s[i].(count := s[i].count + 1)]
    else if |s| < MAX_OBSERVATIONS then s + [Observation(OfKey(key), kind, 1, None)]
    else s
  }

  function Resolved(o: Observation, c: Classifications): Observation {
    if o.Pending() then o.(bucket := Some(BucketOf(c, o.digest))) else o
  }

  function Count(terminal: map<string, nat>, bucket: string): nat {
    if bucket in terminal then terminal[bucket] else 0
  }

  function Tallied(terminal: map<string, nat>, o: Observation, c: Classifications): map<string, nat> {
    if o.Pending() then
      var b := BucketOf(c, o.digest);
      terminal[b := Count(terminal, b) + o.count]
    else terminal
  }

  function TallyAll(terminal: map<string, nat>, s: seq<Observation>, c: Classifications): map<string, nat> {
    if s == [] then terminal else Tallied(TallyAll(terminal, s[..|s| - 1], c), s[|s| - 1], c)
  }

  function Apply(f: Funnel, e: Event): Funnel {
    match e
    case Valid(key, kind) =>
      f.(raw := f.raw + 1, valid := f.valid + 1, normalized := f.normalized + 1,
         direct := f.direct + (if kind.DirectResult? then 1 else 0),
         extracted := f.extracted + (if kind.PageExtracted? then 1 else 0),
         observations := Observe(f.observations, key, kind))
    case Invalid(url, reason) =>
      f.(raw := f.raw + 1, rejected := f.rejected + 1,
         observations := if |f.observations| < MAX_OBSERVATIONS
                         then f.observations + [Observation(OfUrl(url), DirectResult, 1, Some(reason))]
                         else f.observations)
    case Finalize(c) =>
      f.(observations := Map((o: Observation) => Resolved(o, c), f.observations),
         terminal := TallyAll(f.terminal, f.observations, c))
  }

  function Replay(f: Funnel, events: seq<Event>): Funnel {
    if events == [] then f else Apply(Replay(f, events[..|events| - 1]), events[|events| - 1])
  }

  lemma {:induction false} ReplayAppend(f: Funnel, a: seq<Event>, b: seq<Event>)
    ensures Replay(f, a + b) == Replay(Replay(f, a), b)
  {
    if b == [] {
      assert a + b == a;
    } else {
      assert (a + b)[..|a + b| - 1] == a + b[..|b| - 1];
      ReplayAppend(f, a, b[..|b| - 1]);
    }
  }

  // --- sums over observations and buckets --------------------------------------

  /** Occurrences over the observations that `keep` selects. */
  function Occurrences(s: seq<Observation>, keep: Observation -> bool): nat {
    if s == [] then 0 else Occurrences(s[..|s| - 1], keep) + if keep(s[|s| - 1]) then s[|s| - 1].count else 0
  }

  lemma OccurrencesPush(s: seq<Observation>, o: Observation, keep: Observation -> bool)
    ensures Occurrences(s + [o], keep) == Occurrences(s, keep) + if keep(o) then o.count else 0
  {
    assert (s + [o])[..|s|] == s;
  }

  lemma {:induction false} OccurrencesUpdate(s: seq<Observation>, i: nat, o: Observation, keep: Observation -> bool)
    requires i < |s|
    ensures Occurrences(s[i := o], keep) + (if keep(s[i]) then s[i].count else 0)
         == Occurrences(s, keep) + (if keep(o) then o.count else 0)
  {
    var n := |s| - 1;
    if i == n {
      assert s[i := o][..n] == s[..n];
    } else {
      assert s[i := o][..n] == s[..n][i := o];
      OccurrencesUpdate(s[..n], i, o, keep);
    }
  }

  ghost function Total(m: map<string, nat>): nat
    decreases |m|
  {
    if m == map[] then 0
    else
      var k :| k in m;
      m[k] + Total(m - {k})
  }

  lemma {:induction false} TotalRemove(m: map<string, nat>, k: string)
    requires k in m
    ensures Total(m) == m[k] + Total(m - {k})
    decreases |m|
  {
    var q :| q in m && Total(m) == m[q] + Total(m - {q});
    if q != k {
      TotalRemove(m - {q}, k);
      TotalRemove(m - {k}, q);
      assert m - {q} - {k} == m - {k} - {q};
    }
  }

  lemma TotalUpdate(m: map<string, nat>, k: string, v: nat)
    ensures Total(m[k := v]) + Count(m, k) == Total(m) + v
  {
    TotalRemove(m[k := v], k);
    assert m[k := v] - {k} == m - {k};
    if k in m {
      TotalRemove(m, k);
    } else {
      assert m - {k} == m;
    }
  }

  // --- selections ----------------------------------------------------------------

  function All(): Observation -> bool { (o: Observation) => true }

  function Unresolved(): Observation -> bool { (o: Observation) => o.Pending() }

  function HeadedFor(c: Classifications, bucket: string): Observation -> bool {
    (o: Observation) => o.Pending() && BucketOf(c, o.digest) == bucket
  }

  lemma {:induction false} TallyTotal(terminal: map<string, nat>, s: seq<Observation>, c: Classifications)
    ensures Total(TallyAll(terminal, s, c)) == Total(terminal) + Occurrences(s, Unresolved())
  {
    if s != [] {
      TallyTotal(terminal, s[..|s| - 1], c);
      var o := s[|s| - 1];
      var t := TallyAll(terminal, s[..|s| - 1], c);
      var b := BucketOf(c, o.digest);
      TotalUpdate(t, b, Count(t, b) + o.count);
    }
  }

  lemma {:induction false} TallyBucket(terminal: map<string, nat>, s: seq<Observation>, c: Classifications,
                                       bucket: string)
    ensures Count(TallyAll(terminal, s, c), bucket) == Count(terminal, bucket) + Occurrences(s, HeadedFor(c, bucket))
  {
    if s != [] {
      TallyBucket(terminal, s[..|s| - 1], c, bucket);
    }
  }

  // --- accounting over any history of events -----------------------------------------

  function CountEvents(events: seq<Event>, p: Event -> bool): nat {
    if events == [] then 0 else CountEvents(events[..|events| - 1], p) + if p(events[|events| - 1]) then 1 else 0
  }

  /** A reference left unobserved because the list is full. */
  predicate Dropped(f: Funnel, e: Event) {
    match e
    case Valid(key, _) => Find(f.observations, OfKey(key)) == |f.observations| >= MAX_OBSERVATIONS
    case Invalid(_, _) => |f.observations| >= MAX_OBSERVATIONS
    case Finalize(_) => false
  }

  /** A valid reference no later finalize will count: unobserved, or met again after its bucket was settled. */
  predicate Lost(f: Funnel, e: Event) {
    e.Valid? &&
    var i := Find(f.observations, OfKey(e.key));
    if i < |f.observations| then !f.observations[i].Pending() else |f.observations| >= MAX_OBSERVATIONS
  }

  function DroppedCount(events: seq<Event>): nat {
    if events == [] then 0
    else
      var before := events[..|events| - 1];
      DroppedCount(before) + if Dropped(Replay(EMPTY, before), events[|events| - 1]) then 1 else 0
  }

  function LostCount(events: seq<Event>): nat {
    if events == [] then 0
    else
      var before := events[..|events| - 1];
      LostCount(before) + if Lost(Replay(EMPTY, before), events[|events| - 1]) then 1 else 0
  }

  ghost predicate Balanced(f: Funnel) {
    && f.raw == f.valid + f.rejected
    && f.valid == f.normalized == f.direct + f.extracted
    && |f.observations| <= MAX_OBSERVATIONS
    && (forall i, j :: 0 <= i < j < |f.observations| && f.observations[i].digest == f.observations[j].digest
                       ==> f.observations[i].digest.OfUrl?)
    && (forall i :: 0 <= i < |f.observations| && f.observations[i].digest.OfUrl? ==> !f.observations[i].Pending())
  }

  /** A selection that looks at the digest and the bucket, never at the count. */
  ghost predicate CountBlind(keep: Observation -> bool) {
    forall o: Observation, n: nat :: keep(o.(count := n)) == keep(o)
  }

  /** Observing adds one to the selected occurrences exactly when the reference's observation is selected. */
  lemma ObserveWeight(s: seq<Observation>, key: string, kind: Extraction, keep: Observation -> bool)
    requires CountBlind(keep)
    ensures var i := Find(s, OfKey(key));
            Occurrences(Observe(s, key, kind), keep) == Occurrences(s, keep) +
              if i < |s| then (if keep(s[i]) then 1 else 0)
              else if |s| < MAX_OBSERVATIONS && keep(Observation(OfKey(key), kind, 1, None)) then 1 else 0
  {
    hide *;
    var i, o := Find(s, OfKey(key)), Observation(OfKey(key), kind, 1, None);
    ObserveCases(s, key, kind);
    if i < |s| {
      MetAgainWeight(s, i, keep);
    } else if |s| < MAX_OBSERVATIONS {
      OccurrencesPush(s, o, keep);
    }
  }

  lemma ObserveCases(s: seq<Observation>, key: string, kind: Extraction)
    ensures var i, o := Find(s, OfKey(key)), Observation(OfKey(key), kind, 1, None);
            && (i < |s| ==> Observe(s, key, kind) == s[i := s[i].(count := s[i].count + 1)])
            && (|s| == i < MAX_OBSERVATIONS ==> Observe(s, key, kind) == s + [o])
            && (|s| == i >= MAX_OBSERVATIONS ==> Observe(s, key, kind) == s)
  {
    hide Find;
  }

  lemma MetAgainWeight(s: seq<Observation>, i: nat, keep: Observation -> bool)
    requires CountBlind(keep) && i < |s|
    ensures Occurrences(s[i := s[i].(count := s[i].count + 1)], keep)
         == Occurrences(s, keep) + if keep(s[i]) then 1 else 0
  {
    hide Occurrences;
    var o := s[i].(count := s[i].count + 1);
    assert keep(o) == keep(s[i]);
    OccurrencesUpdate(s, i, o, keep);
  }

  lemma {:induction false} ResolvedOccurrences(s: seq<Observation>, c: Classifications)
    ensures Occurrences(Map((o: Observation) => Resolved(o, c), s), All()) == Occurrences(s, All())
    ensures Occurrences(Map((o: Observation) => Resolved(o, c), s), Unresolved()) == 0
  {
    if s != [] {
      var f := (o: Observation) => Resolved(o, c);
      assert Map(f, s)[..|s| - 1] == Map(f, s[..|s| - 1]);
      ResolvedOccurrences(s[..|s| - 1], c);
    }
  }

  lemma ApplyBalanced(f: Funnel, e: Event)
    requires Balanced(f)
    ensures Balanced(Apply(f, e))
  {
  }

  /** One event: what it adds to the observed occurrences and to the settled and pending ones. */
  lemma ApplyAccounts(f: Funnel, e: Event)
    requires Balanced(f)
    ensures var g := Apply(f, e);
            && Occurrences(g.observations, All()) - Occurrences(f.observations, All())
               == g.raw - f.raw - (if Dropped(f, e) then 1 else 0)
            && Total(g.terminal) + Occurrences(g.observations, Unresolved()) - Total(f.terminal)
               - Occurrences(f.observations, Unresolved())
               == g.valid - f.valid - (if Lost(f, e) then 1 else 0)
            && (e.Finalize? ==> Occurrences(g.observations, Unresolved()) == 0)
            && |g.observations| >= |f.observations|
            && (|g.observations| < MAX_OBSERVATIONS ==> !Dropped(f, e))
  {
    match e
    case Valid(key, kind) =>
      ObserveWeight(f.observations, key, kind, All());
      ObserveWeight(f.observations, key, kind, Unresolved());
    case Invalid(url, reason) =>
      OccurrencesPush(f.observations, Observation(OfUrl(url), DirectResult, 1, Some(reason)), All());
      OccurrencesPush(f.observations, Observation(OfUrl(url), DirectResult, 1, Some(reason)), Unresolved());
    case Finalize(c) =>
      TallyTotal(f.terminal, f.observations, c);
      ResolvedOccurrences(f.observations, c);
  }

  /** The books balance, given how many references were dropped and lost. */
  ghost predicate Accounted(f: Funnel, dropped: nat, lost: nat) {
    && Balanced(f)
    && Occurrences(f.observations, All()) + dropped == f.raw
    && Total(f.terminal) + Occurrences(f.observations, Unresolved()) + lost == f.valid
    && (|f.observations| < MAX_OBSERVATIONS ==> dropped == 0)
  }

  lemma ApplyAccounted(f: Funnel, e: Event, dropped: nat, lost: nat)
    requires Accounted(f, dropped, lost)
    ensures Accounted(Apply(f, e), dropped + (if Dropped(f, e) then 1 else 0), lost + (if Lost(f, e) then 1 else 0))
  {
    ApplyBalanced(f, e);
    ApplyAccounts(f, e);
    hide Apply, Lost, Dropped, Occurrences, Total, Balanced;
  }

  lemma EmptyBalanced()
    ensures Balanced(EMPTY)
  {
  }

  lemma EmptyAccounted()
    ensures Accounted(EMPTY, 0, 0)
  {
    hide Balanced;
    EmptyBalanced();
  }

  lemma {:induction false} FunnelAccounting(events: seq<Event>)
    ensures Accounted(Replay(EMPTY, events), DroppedCount(events), LostCount(events))
  {
    if events == [] {
      EmptyAccounted();
    } else {
      var before, e := events[..|events| - 1], events[|events| - 1];
      hide Apply, Lost, Dropped, Accounted;
      assert Replay(EMPTY, events) == Apply(Replay(EMPTY, before), e);
      assert DroppedCount(events) == DroppedCount(before) + if Dropped(Replay(EMPTY, before), e) then 1 else 0;
      assert LostCount(events) == LostCount(before) + if Lost(Replay(EMPTY, before), e) then 1 else 0;
      hide Replay, DroppedCount, LostCount;
      FunnelAccounting(before);
      ApplyAccounted(Replay(EMPTY, before), e, DroppedCount(before), LostCount(before));
    }
  }

  /** While there is room for observations, occurrence counts sum to the raw references. */
  lemma OccurrencesSumToRaw(events: seq<Event>)
    requires |Replay(EMPTY, events).observations| < MAX_OBSERVATIONS
    ensures Occurrences(Replay(EMPTY, events).observations, All()) == Replay(EMPTY, events).raw
  {
    FunnelAccounting(events);
  }

  /** After a finalize the buckets sum to the valid references exactly when none was lost on the way. */
  lemma FinalizedIffNoneLost(events: seq<Event>, c: Classifications)
    ensures var f := Apply(Replay(EMPTY, events), Finalize(c));
            && Total(f.terminal) + LostCount(events) == f.valid
            && (Total(f.terminal) == f.valid <==> forall i :: 0 <= i < |events| ==> !LostAt(events, i))
  {
    FunnelAccounting(events);
    ApplyAccounts(Replay(EMPTY, events), Finalize(c));
    NoneLost(events);
  }

  predicate LostAt(events: seq<Event>, i: nat)
    requires i < |events|
  {
    Lost(Replay(EMPTY, events[..i]), events[i])
  }

  lemma LastLost(events: seq<Event>)
    requires events != []
    ensures LostCount(events) == LostCount(events[..|events| - 1]) + if LostAt(events, |events| - 1) then 1 else 0
  {
    hide Lost, Replay;
  }

  lemma LostEarlier(events: seq<Event>, n: nat, i: nat)
    requires i < n <= |events|
    ensures LostAt(events[..n], i) == LostAt(events, i)
  {
    assert events[..n][..i] == events[..i];
  }

  lemma {:induction false} NoneLost(events: seq<Event>)
    ensures LostCount(events) == 0 <==> forall i :: 0 <= i < |events| ==> !LostAt(events, i)
  {
    if events != [] {
      var n := |events| - 1;
      LastLost(events);
      hide LostAt, LostCount;
      NoneLost(events[..n]);
      forall i | 0 <= i < n
        ensures LostAt(events[..n], i) == LostAt(events, i)
      {
        LostEarlier(events, n, i);
      }
    }
  }

  lemma FindFirst(s: seq<Observation>, d: Digest)
    requires s != [] && s[0].digest == d
    ensures Find(s, d) == 0
  {
  }

  lemma OneMore(events: seq<Event>, e: Event)
    ensures Replay(EMPTY, events + [e]) == Apply(Replay(EMPTY, events), e)
    ensures LostCount(events + [e]) == LostCount(events) + if Lost(Replay(EMPTY, events), e) then 1 else 0
  {
    assert (events + [e])[..|events|] == events;
  }

  /** The first reference of a history is observed, waiting for its bucket. */
  lemma MetOnce(key: string, kind: Extraction)
    ensures Replay(EMPTY, [Valid(key, kind)]).observations == [Observation(OfKey(key), kind, 1, None)]
    ensures Replay(EMPTY, [Valid(key, kind)]).valid == 1 && LostCount([Valid(key, kind)]) == 0
  {
    OneMore([], Valid(key, kind));
    assert [] + [Valid(key, kind)] == [Valid(key, kind)];
    assert Replay(EMPTY, []) == EMPTY && LostCount([]) == 0;
    hide Replay, LostCount;
    assert Find([], OfKey(key)) == 0;
  }

  lemma SettledOnce(key: string, kind: Extraction, c: Classifications)
    ensures var f := Replay(EMPTY, [Valid(key, kind), Finalize(c)]);
            f.valid == 1 && |f.observations| == 1 &&
            f.observations[0].digest == OfKey(key) && !f.observations[0].Pending()
    ensures LostCount([Valid(key, kind), Finalize(c)]) == 0
  {
    MetOnce(key, kind);
    OneMore([Valid(key, kind)], Finalize(c));
    assert [Valid(key, kind)] + [Finalize(c)] == [Valid(key, kind), Finalize(c)];
    hide Replay, LostCount, TallyAll;
  }

  lemma MetAgain(key: string, kind: Extraction, c: Classifications)
    ensures Lost(Replay(EMPTY, [Valid(key, kind), Finalize(c)]), Valid(key, kind))
  {
    SettledOnce(key, kind, c);
    FindFirst(Replay(EMPTY, [Valid(key, kind), Finalize(c)]).observations, OfKey(key));
    hide Find, Replay;
  }

  /** A reference met again after its bucket was settled is valid but ends up in no bucket. */
  lemma LateReferenceIsLost(key: string, kind: Extraction, c: Classifications)
    ensures var events := [Valid(key, kind), Finalize(c), Valid(key, kind)];
            var f := Apply(Replay(EMPTY, events), Finalize(c));
            f.valid == 2 && Total(f.terminal) == 1
  {
    var before, met := [Valid(key, kind), Finalize(c)], Valid(key, kind);
    SettledOnce(key, kind, c);
    MetAgain(key, kind, c);
    OneMore(before, met);
    assert before + [met] == [Valid(key, kind), Finalize(c), Valid(key, kind)];
    hide Find, Observe, Total, Replay, LostCount, Lost, TallyAll, Map, LostAt;
    FinalizedIffNoneLost(before + [met], c);
  }

  /** A second finalize, whatever its resolutions, changes nothing. */
  lemma FinalizeIsIdempotent(f: Funnel, c: Classifications, again: Classifications)
    ensures Apply(Apply(f, Finalize(c)), Finalize(again)) == Apply(f, Finalize(c))
  {
    var g := Apply(f, Finalize(c));
    assert Map((o: Observation) => Resolved(o, again), g.observations) == g.observations;
    TallySettled(g.terminal, g.observations, again);
  }

  lemma {:induction false} TallySettled(terminal: map<string, nat>, s: seq<Observation>, c: Classifications)
    requires forall o :: o in s ==> !o.Pending()
    ensures TallyAll(terminal, s, c) == terminal
  {
    if s != [] {
      TallySettled(terminal, s[..|s| - 1], c);
    }
  }

  function ValidIn(c: Classifications, bucket: string): Event -> bool {
    (e: Event) => e.Valid? && BucketOf(c, OfKey(e.key)) == bucket
  }

  /** One event adds one to a bucket's pending references exactly when it is a valid reference headed there. */
  lemma PendingPush(f: Funnel, e: Event, c: Classifications, bucket: string)
    requires Balanced(f) && !e.Finalize? && !Lost(f, e)
    ensures Occurrences(Apply(f, e).observations, HeadedFor(c, bucket))
         == Occurrences(f.observations, HeadedFor(c, bucket)) + if ValidIn(c, bucket)(e) then 1 else 0
    ensures Apply(f, e).terminal == f.terminal
  {
    match e
    case Valid(key, kind) =>
      ObserveWeight(f.observations, key, kind, HeadedFor(c, bucket));
    case Invalid(url, reason) =>
      OccurrencesPush(f.observations, Observation(OfUrl(url), DirectResult, 1, Some(reason)), HeadedFor(c, bucket));
  }

  lemma {:induction false} PendingByBucket(events: seq<Event>, c: Classifications, bucket: string)
    requires forall e :: e in events ==> !e.Finalize?
    requires LostCount(events) == 0
    ensures Occurrences(Replay(EMPTY, events).observations, HeadedFor(c, bucket))
            == CountEvents(events, ValidIn(c, bucket))
    ensures Replay(EMPTY, events).terminal == map[]
  {
    if events != [] {
      var before, e := events[..|events| - 1], events[|events| - 1];
      PendingByBucket(before, c, bucket);
      FunnelAccounting(before);
      PendingPush(Replay(EMPTY, before), e, c, bucket);
      hide Apply, Lost, Occurrences, Balanced;
    }
  }

  /** Each bucket of a first finalize counts exactly the references resolved to it. */
  lemma BucketsCountReferences(events: seq<Event>, c: Classifications, bucket: string)
    requires forall e :: e in events ==> !e.Finalize?
    requires LostCount(events) == 0
    ensures Count(Apply(Replay(EMPTY, events), Finalize(c)).terminal, bucket) == CountEvents(events, ValidIn(c, bucket))
  {
    PendingByBucket(events, c, bucket);
    TallyBucket(map[], Replay(EMPTY, events).observations, c, bucket);
  }

  ghost predicate KeysPending(f: Funnel) {
    forall o :: o in f.observations && o.digest.OfKey? ==> o.Pending()
  }

  lemma PendingWithRoom(f: Funnel, e: Event)
    requires KeysPending(f) && !e.Finalize?
    ensures KeysPending(Apply(f, e)) && |Apply(f, e).observations| >= |f.observations|
    ensures |Apply(f, e).observations| < MAX_OBSERVATIONS ==> !Lost(f, e)
  {
  }

  lemma {:induction false} NoneLostWithRoom(events: seq<Event>)
    requires forall e :: e in events ==> !e.Finalize?
    ensures KeysPending(Replay(EMPTY, events))
    ensures |Replay(EMPTY, events).observations| < MAX_OBSERVATIONS ==> LostCount(events) == 0
  {
    if events != [] {
      hide Apply, Lost, KeysPending;
      NoneLostWithRoom(events[..|events| - 1]);
      PendingWithRoom(Replay(EMPTY, events[..|events| - 1]), events[|events| - 1]);
    }
  }

  /** Before any finalize, and with room left, finalizing resolves every valid reference. */
  lemma FirstFinalizeResolvesAll(events: seq<Event>, c: Classifications)
    requires forall e :: e in events ==> !e.Finalize?
    requires |Replay(EMPTY, events).observations| < MAX_OBSERVATIONS
    ensures var f := Apply(Replay(EMPTY, events), Finalize(c));
            && Total(f.terminal) == f.valid
            && forall b :: Count(f.terminal, b) == CountEvents(events, ValidIn(c, b))
  {
    NoneLostWithRoom(events);
    FinalizedIffNoneLost(events, c);
    forall b
      ensures Count(Apply(Replay(EMPTY, events), Finalize(c)).terminal, b) == CountEvents(events, ValidIn(c, b))
    {
      BucketsCountReferences(events, c, b);
    }
  }

  /** A waiting reference gets the bucket it is given, or `OTHER_REJECTION` when none is or it is blank. */
  lemma FinalizeGivesBuckets(f: Funnel, c: Classifications, i: nat)
    requires i < |f.observations| && f.observations[i].bucket.None?
    ensures var d := f.observations[i].digest;
            var g := Apply(f, Finalize(c));
            && |g.observations| == |f.observations|
            && (d in c && c[d] != "" ==> g.observations[i].bucket == Some(c[d]))
            && (d !in c || c[d] == "" ==> g.observations[i].bucket == Some("OTHER_REJECTION"))
  {
  }

  // --- a full list ---------------------------------------------------

  /** A thousand and more distinct keys. */
  function NthKey(n: nat): string {
    if n == 0 then "" else "x" + NthKey(n - 1)
  }

  lemma {:induction false} NthKeyLength(n: nat)
    ensures |NthKey(n)| == n
  {
    if n > 0 {
      NthKeyLength(n - 1);
    }
  }

  /** One malformed reference, then n new keys. */
  function Meetings(n: nat): seq<Event> {
    if n == 0 then [Invalid("t.me/", "INVALID_SOURCE_TYPE")]
    else Meetings(n - 1) + [Valid(NthKey(n - 1), PageExtracted)]
  }

  /** The observations hold the malformed reference and the first n keys, one each. */
  ghost predicate HoldsKeys(f: Funnel, n: nat) {
    && |f.observations| == n + 1 && f.valid == n && f.observations[0].digest.OfUrl?
    && (forall i :: 0 <= i < n ==> f.observations[i + 1].digest == OfKey(NthKey(i)))
  }

  lemma NewKeyUnseen(f: Funnel, n: nat)
    requires HoldsKeys(f, n)
    ensures Find(f.observations, OfKey(NthKey(n))) == n + 1
  {
    forall i | 0 <= i < n + 1
      ensures f.observations[i].digest != OfKey(NthKey(n))
    {
      if i > 0 {
        NthKeyLength(i - 1);
        NthKeyLength(n);
        assert f.observations[i - 1 + 1].digest == OfKey(NthKey(i - 1));
      }
    }
    hide NthKey;
  }

  lemma MeetNext(f: Funnel, n: nat)
    requires HoldsKeys(f, n) && n + 1 < MAX_OBSERVATIONS
    ensures HoldsKeys(Apply(f, Valid(NthKey(n), PageExtracted)), n + 1) && !Lost(f, Valid(NthKey(n), PageExtracted))
  {
    NewKeyUnseen(f, n);
    hide Find, NthKey;
  }

  lemma FirstMeeting()
    ensures HoldsKeys(Replay(EMPTY, Meetings(0)), 0) && LostCount(Meetings(0)) == 0
  {
    var e := Invalid("t.me/", "INVALID_SOURCE_TYPE");
    assert Meetings(0) == [] + [e];
    OneMore([], e);
    assert Replay(EMPTY, []) == EMPTY && LostCount([]) == 0 && !Lost(EMPTY, e);
    hide Replay, LostCount, Meetings, Lost;
  }

  lemma {:induction false} MeetingsFill(n: nat)
    requires n < MAX_OBSERVATIONS
    ensures HoldsKeys(Replay(EMPTY, Meetings(n)), n) && LostCount(Meetings(n)) == 0
  {
    hide Replay, LostCount, Lost, NthKey, HoldsKeys, Apply;
    if n == 0 {
      FirstMeeting();
    } else {
      MeetingsFill(n - 1);
      MeetNext(Replay(EMPTY, Meetings(n - 1)), n - 1);
      OneMore(Meetings(n - 1), Valid(NthKey(n - 1), PageExtracted));
    }
  }

  /** A malformed reference and 999 keys fill the list, and the thousandth key is valid but ends up
      in no bucket. */
  lemma FullListLosesReference(c: Classifications)
    ensures var f := Apply(Replay(EMPTY, Meetings(1000)), Finalize(c));
            f.valid == 1000 && Total(f.terminal) == 999
  {
    hide Replay, LostCount, Find, NthKey, TallyAll, Total, LostAt, Map;
    var before, met := Meetings(MAX_OBSERVATIONS - 1), Valid(NthKey(MAX_OBSERVATIONS - 1), PageExtracted);
    MeetingsFill(MAX_OBSERVATIONS - 1);
    NewKeyUnseen(Replay(EMPTY, before), MAX_OBSERVATIONS - 1);
    OneMore(before, met);
    FinalizedIffNoneLost(before + [met], c);
  }
}
