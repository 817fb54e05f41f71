/** The cache conflict does happen: a run of both systems, from empty tables, that ends with a
    refused store. */
module CacheConflict {
  import opened Sequences
  import opened OpportunityAnalysis
  import opened AnalysisTables
  import Prefilter = MessagePrefilter
  import Replay = AnalysisReplay
  import EndToEnd

  // --- two overlapping attempts ----------------------------------------------------------

  /** Two jobs of one key, nothing running and nothing analyzed yet. */
  ghost predicate Quiet(x: Texts, s: Replay.State, key: CompatibilityKey) {
    && Replay.Inv(x, s) && s.workers == map[] && s.tables.cache == map[] && s.tables.opportunities == {}
    && 1 in s.tables.jobs && s.tables.jobs[1].key == key && 1 in s.tables.jobs[1].messages
    && 2 in s.tables.jobs && s.tables.jobs[2].key == key
  }

  /** Both jobs are loaded and analyzed before either result is stored. */
  function Overlap(a: Analyzer, first: Call, second: Call): seq<Replay.Step> {
    [Replay.Start(1, a, 1), Replay.Start(2, a, 2),
     Replay.Read(1, Replied(first), true), Replay.Read(2, Replied(second), true)]
  }

  /** Then the first stores and commits. */
  function FirstCommits(a: Analyzer, first: Call, second: Call, draws: Draws): seq<Replay.Step> {
    Overlap(a, first, second) + [Replay.Store(1, 1), Replay.Commit(1, draws)]
  }

  lemma {:induction false} OneMoreStep(x: Texts, s: Replay.State, run: seq<Replay.Step>, step: Replay.Step)
    requires Replay.ValidRun(x, s, run) && Replay.Enabled(x, Replay.Final(x, s, run), step)
    ensures Replay.ValidRun(x, s, run + [step])
    ensures Replay.Final(x, s, run + [step]) == Replay.Next(x, Replay.Final(x, s, run), step)
    decreases |run|
  {
    hide Replay.Enabled, Replay.Next;
    if run == [] {
      assert [] + [step] == [step] && [step][1..] == [];
    } else {
      assert (run + [step])[0] == run[0] && (run + [step])[1..] == run[1..] + [step];
      OneMoreStep(x, Replay.Next(x, s, run[0]), run[1..], step);
    }
  }

  /** After the overlap both workers have found nothing cached. */
  ghost predicate BothMissing(s: Replay.State, n: Replay.State, a: Analyzer, key: CompatibilityKey,
                              first: Call, second: Call) {
    && n.tables == s.tables
    && n.workers == map[1 := Replay.Missing(a, 1, key, EnvelopeOf(first, key.analyzerVersion)),
                        2 := Replay.Missing(a, 2, key, EnvelopeOf(second, key.analyzerVersion))]
  }

  lemma OverlapReaches(x: Texts, s: Replay.State, a: Analyzer, key: CompatibilityKey, first: Call, second: Call)
    requires Quiet(x, s, key) && a.Valid() && SupportsJob(x, a, key) && a.AcceptsCall(first) && a.AcceptsCall(second)
    ensures Replay.ValidRun(x, s, Overlap(a, first, second))
    ensures BothMissing(s, Replay.Final(x, s, Overlap(a, first, second)), a, key, first, second)
  {
    hide SupportsJob, Replay.Inv;
    var steps := Overlap(a, first, second);
    OneMoreStep(x, s, [], steps[0]);
    assert steps[..1] == [] + [steps[0]];
    OneMoreStep(x, s, steps[..1], steps[1]);
    assert steps[..2] == steps[..1] + [steps[1]];
    var s2 := Replay.Final(x, s, steps[..2]);
    assert s2.workers == map[1 := Replay.Loaded(a, 1, key, None), 2 := Replay.Loaded(a, 2, key, None)];
    OneMoreStep(x, s, steps[..2], steps[2]);
    assert steps[..3] == steps[..2] + [steps[2]];
    OneMoreStep(x, s, steps[..3], steps[3]);
    assert steps == steps[..3] + [steps[3]];
  }

  lemma FirstStores(x: Texts, s: Replay.State, n: Replay.State, a: Analyzer, key: CompatibilityKey,
                    first: Call, second: Call)
    requires Quiet(x, s, key) && BothMissing(s, n, a, key, first, second)
    ensures Replay.Enabled(x, n, Replay.Store(1, 1))
    ensures var m := Replay.Next(x, n, Replay.Store(1, 1));
            && m.tables == s.tables && m.workers.Keys == {1, 2}
            && m.workers[2] == Replay.Missing(a, 2, key, EnvelopeOf(second, key.analyzerVersion))
            && m.workers[1].Inserting() && m.workers[1].job == 1
            && m.workers[1].entry == AnalysisTables.Entry(1, key, EnvelopeOf(first, key.analyzerVersion))
  {
    hide Replay.Inv;
  }

  lemma FirstIsCommitted(x: Texts, s: Replay.State, own: AnalysisTables.Entry, draws: Draws)
    requires Replay.Inv(x, s) && s.workers.Keys == {1, 2} && s.workers[1].Inserting() && s.workers[2].Missing?
    requires s.tables.opportunities == {} && s.tables.cache == map[] && s.workers[1].entry == own
    requires draws.similar.None? && Listed(s.tables.jobs, s.workers[1].job, draws.messages)
    ensures Replay.Enabled(x, s, Replay.Commit(1, draws))
    ensures var n := Replay.Next(x, s, Replay.Commit(1, draws));
            n.workers.Keys == {2} && n.workers[2] == s.workers[2] && n.tables.cache == map[own.key := own]
  {
    assert Replay.AttemptOk(x, s.tables, s.workers[1]);
    Replay.CompleteOk(x, s.tables, s.workers[1], draws);
    hide TablesOk, Replay.Complete, SupportsJob, Extends;
  }

  lemma SecondConflicts(x: Texts, s: Replay.State, a: Analyzer, key: CompatibilityKey, first: Call, second: Call)
    requires s.workers.Keys == {2}
    requires s.workers[2] == Replay.Missing(a, 2, key, EnvelopeOf(second, key.analyzerVersion))
    requires s.tables.cache == map[key := AnalysisTables.Entry(1, key, EnvelopeOf(first, key.analyzerVersion))]
    requires EnvelopeOf(first, key.analyzerVersion) != EnvelopeOf(second, key.analyzerVersion)
    ensures Refused(x, s)
  {
  }

  /** The second worker is about to store and will be refused. */
  ghost predicate Refused(x: Texts, s: Replay.State) {
    && Replay.Enabled(x, s, Replay.Store(2, 2))
    && Replay.StoreEntry(s.tables, s.workers[2], 2) == Failure(CacheConflict)
  }

  /** Of two overlapping attempts at one key whose calls differ in anything that is cached, the
      second to store is refused. */
  lemma ConflictHappens(x: Texts, s: Replay.State, a: Analyzer, key: CompatibilityKey, first: Call, second: Call,
                        draws: Draws)
    requires Quiet(x, s, key) && a.Valid() && SupportsJob(x, a, key) && a.AcceptsCall(first) && a.AcceptsCall(second)
    requires EnvelopeOf(first, key.analyzerVersion) != EnvelopeOf(second, key.analyzerVersion)
    requires draws.similar.None? && draws.messages == [1]
    ensures Replay.ValidRun(x, s, FirstCommits(a, first, second, draws))
    ensures Refused(x, Replay.Final(x, s, FirstCommits(a, first, second, draws)))
  {
    var run, own := Overlap(a, first, second), EnvelopeOf(first, key.analyzerVersion);
    hide Replay.Inv, Replay.ValidRun, Replay.Final, SupportsJob, Replay.Enabled, Replay.Next, Overlap, BothMissing;
    OverlapReaches(x, s, a, key, first, second);
    FirstStores(x, s, Replay.Final(x, s, run), a, key, first, second);
    OneMoreStep(x, s, run, Replay.Store(1, 1));
    var stored := run + [Replay.Store(1, 1)];
    Replay.RunKeeps(x, s, stored);
    FirstIsCommitted(x, Replay.Final(x, s, stored), AnalysisTables.Entry(1, key, own), draws);
    OneMoreStep(x, s, stored, Replay.Commit(1, draws));
    assert stored + [Replay.Commit(1, draws)] == FirstCommits(a, first, second, draws);
    SecondConflicts(x, Replay.Final(x, s, FirstCommits(a, first, second, draws)), a, key, first, second);
  }

  // --- two jobs of one key, routed by the prefilter ----------------------------------------

  /** The n-th copy of a message that replies to nothing. */
  function Copy(n: nat, content: string): Prefilter.Raw { Prefilter.Raw(0, n, content, false, None) }

  function InputOf(env: Prefilter.Env, content: string): string {
    Prefilter.AnalysisInput(env.normalize(content), None)
  }

  function KeyOf(env: Prefilter.Env, config: Prefilter.Config, content: string): CompatibilityKey {
    Prefilter.CompatibilityKey(config.analyzerVersion, config.schemaVersion, env.normalize(content),
                               InputOf(env, content))
  }

  function RouteOf(env: Prefilter.Env, content: string, n: nat): Prefilter.Route {
    Prefilter.Route(n, None, env.normalize(content), InputOf(env, content), Prefilter.Canonical)
  }

  /** Its row: canonical, under a job of its own. */
  function CanonicalRow(env: Prefilter.Env, config: Prefilter.Config, content: string, n: nat,
                        now: nat): Prefilter.Row {
    Prefilter.Row(n, None, Prefilter.Passed(RouteOf(env, content, n), config), now)
  }

  /** The copy is ingested, not yet routed, and every row on record is older than the window. */
  ghost predicate Pending(env: Prefilter.Env, s: Prefilter.State, config: Prefilter.Config, content: string, n: nat) {
    && s.workers.Keys <= {1} && Prefilter.PhaseOf(s, 1).Idle? && config.window > 0 && !env.blank(content)
    && n in s.db.raws && s.db.raws[n] == Copy(n, content) && n !in s.db.rows && n !in s.db.jobs
    && (forall r :: r in s.db.rows ==> s.db.rows[r].raw != n && s.db.rows[r].createdAt + config.window < s.db.clock)
    && (forall j :: j in s.db.jobs ==> s.db.jobs[j] != n)
  }

  lemma ThreeSteps(env: Prefilter.Env, s: Prefilter.State, a: Prefilter.Step, b: Prefilter.Step, c: Prefilter.Step)
    requires Prefilter.Enabled(env, s, a)
    requires var one := Prefilter.Next(env, s, a);
             && Prefilter.Enabled(env, one, b) && Prefilter.Enabled(env, Prefilter.Next(env, one, b), c)
    ensures Prefilter.ValidRun(env, s, [a, b, c])
    ensures Prefilter.Final(env, s, [a, b, c])
         == Prefilter.Next(env, Prefilter.Next(env, Prefilter.Next(env, s, a), b), c)
  {
    hide Prefilter.Enabled, Prefilter.Next;
    var run := [a, b, c];
    assert run[1..] == [b, c] && run[1..][1..] == [c] && run[1..][1..][1..] == [];
    var two := Prefilter.Next(env, Prefilter.Next(env, s, a), b);
    var three := Prefilter.Next(env, two, c);
    assert Prefilter.ValidRun(env, three, []) && Prefilter.Final(env, three, []) == three;
    assert Prefilter.ValidRun(env, two, [c]) && Prefilter.Final(env, two, [c]) == three;
  }

  lemma CopyIsKeyed(env: Prefilter.Env, s: Prefilter.State, config: Prefilter.Config, content: string, n: nat)
    requires Pending(env, s, config, content, n)
    ensures var run := [Prefilter.Open(1, config, n), Prefilter.CheckExisting(1), Prefilter.ReadParent(1, None)];
            && Prefilter.ValidRun(env, s, run)
            && Prefilter.Final(env, s, run)
               == Prefilter.At(s, 1, Prefilter.Keyed(Prefilter.Tx(config, n, s.db.clock), None))
  {
    hide Prefilter.ValidRun, Prefilter.Final;
    var tx := Prefilter.Tx(config, n, s.db.clock);
    var one := Prefilter.At(s, 1, Prefilter.Opened(tx));
    var two := Prefilter.At(one, 1, Prefilter.Unrecorded(tx));
    var three := Prefilter.At(two, 1, Prefilter.Keyed(tx, None));
    assert Prefilter.Next(env, s, Prefilter.Open(1, config, n)) == one;
    assert Prefilter.Next(env, one, Prefilter.CheckExisting(1)) == two;
    assert Prefilter.Next(env, two, Prefilter.ReadParent(1, None)) == three;
    assert three == Prefilter.At(s, 1, Prefilter.Keyed(tx, None));
    ThreeSteps(env, s, Prefilter.Open(1, config, n), Prefilter.CheckExisting(1), Prefilter.ReadParent(1, None));
  }

  lemma CopyNeedsJob(env: Prefilter.Env, s: Prefilter.State, config: Prefilter.Config, content: string, n: nat)
    requires Pending(env, s, config, content, n)
    ensures var run := [Prefilter.AcquireLock(1), Prefilter.Recheck(1), Prefilter.FindCanonical(1, None)];
            var tx := Prefilter.Tx(config, n, s.db.clock);
            var from := Prefilter.At(s, 1, Prefilter.Keyed(tx, None));
            && Prefilter.ValidRun(env, from, run)
            && Prefilter.Final(env, from, run) == Prefilter.At(s, 1, Prefilter.NeedsJob(tx, None))
  {
    hide Prefilter.ValidRun, Prefilter.Final;
    var tx := Prefilter.Tx(config, n, s.db.clock);
    var from := Prefilter.At(s, 1, Prefilter.Keyed(tx, None));
    var one := Prefilter.At(from, 1, Prefilter.Locked(tx, None));
    var two := Prefilter.At(one, 1, Prefilter.Rechecked(tx, None));
    var three := Prefilter.At(two, 1, Prefilter.NeedsJob(tx, None));
    assert Prefilter.Next(env, from, Prefilter.AcquireLock(1)) == one;
    assert Prefilter.Next(env, one, Prefilter.Recheck(1)) == two;
    assert Prefilter.Next(env, two, Prefilter.FindCanonical(1, None)) == three;
    assert three == Prefilter.At(s, 1, Prefilter.NeedsJob(tx, None));
    ThreeSteps(env, from, Prefilter.AcquireLock(1), Prefilter.Recheck(1), Prefilter.FindCanonical(1, None));
  }

  /** The tables with the copy's row and job. */
  function Routed(env: Prefilter.Env, d: Prefilter.Db, config: Prefilter.Config, content: string,
                  n: nat): Prefilter.Db {
    d.(rows := d.rows[n := CanonicalRow(env, config, content, n, d.clock)], jobs := d.jobs[n := n])
  }

  /** The worker has queued the copy's job. */
  function WithJob(env: Prefilter.Env, s: Prefilter.State, config: Prefilter.Config, content: string, n: nat)
    : Prefilter.State
  {
    Prefilter.At(s, 1,
                 Prefilter.Phase.Routed(Prefilter.Tx(config, n, s.db.clock), None, RouteOf(env, content, n), Some(n)))
  }

  /** And has inserted its row. */
  function WithRow(env: Prefilter.Env, s: Prefilter.State, config: Prefilter.Config, content: string, n: nat)
    : Prefilter.State
  {
    Prefilter.At(s, 1, Prefilter.Recorded(Prefilter.Tx(config, n, s.db.clock), None, true, Some(n), Some(n),
                                          CanonicalRow(env, config, content, n, s.db.clock)))
  }

  lemma CopyIsQueued(env: Prefilter.Env, s: Prefilter.State, config: Prefilter.Config, content: string, n: nat)
    requires Pending(env, s, config, content, n)
    ensures var from := Prefilter.At(s, 1, Prefilter.NeedsJob(Prefilter.Tx(config, n, s.db.clock), None));
            && Prefilter.Enabled(env, from, Prefilter.Enqueue(1, n))
            && Prefilter.Next(env, from, Prefilter.Enqueue(1, n)) == WithJob(env, s, config, content, n)
  {
  }

  lemma CopyIsRecorded(env: Prefilter.Env, s: Prefilter.State, config: Prefilter.Config, content: string, n: nat)
    requires Pending(env, s, config, content, n)
    ensures var from := WithJob(env, s, config, content, n);
            && Prefilter.Enabled(env, from, Prefilter.Record(1, n))
            && Prefilter.Next(env, from, Prefilter.Record(1, n)) == WithRow(env, s, config, content, n)
  {
    hide RouteOf;
    assert !Prefilter.HasRow(s.db, n);
  }

  lemma CopyIsCommitted(env: Prefilter.Env, s: Prefilter.State, config: Prefilter.Config, content: string, n: nat)
    requires Pending(env, s, config, content, n)
    ensures var run := [Prefilter.Enqueue(1, n), Prefilter.Record(1, n), Prefilter.Commit(1)];
            var from := Prefilter.At(s, 1, Prefilter.NeedsJob(Prefilter.Tx(config, n, s.db.clock), None));
            && Prefilter.ValidRun(env, from, run)
            && Prefilter.Final(env, from, run)
               == Prefilter.At(s.(db := Routed(env, s.db, config, content, n)), 1, Prefilter.Idle)
  {
    hide Prefilter.ValidRun, Prefilter.Final, RouteOf, CanonicalRow, Pending;
    var from := Prefilter.At(s, 1, Prefilter.NeedsJob(Prefilter.Tx(config, n, s.db.clock), None));
    CopyIsQueued(env, s, config, content, n);
    CopyIsRecorded(env, s, config, content, n);
    var two := WithRow(env, s, config, content, n);
    assert Prefilter.Next(env, two, Prefilter.Commit(1))
        == Prefilter.At(s.(db := Routed(env, s.db, config, content, n)), 1, Prefilter.Idle);
    ThreeSteps(env, from, Prefilter.Enqueue(1, n), Prefilter.Record(1, n), Prefilter.Commit(1));
  }

  lemma {:induction false} RunThen(env: Prefilter.Env, s: Prefilter.State, a: seq<Prefilter.Step>,
                                   b: seq<Prefilter.Step>)
    requires Prefilter.ValidRun(env, s, a) && Prefilter.ValidRun(env, Prefilter.Final(env, s, a), b)
    ensures Prefilter.ValidRun(env, s, a + b)
    ensures Prefilter.Final(env, s, a + b) == Prefilter.Final(env, Prefilter.Final(env, s, a), b)
    decreases |a|
  {
    hide Prefilter.Enabled, Prefilter.Next;
    if a == [] {
      assert a + b == b;
    } else {
      assert (a + b)[0] == a[0] && (a + b)[1..] == a[1..] + b;
      RunThen(env, Prefilter.Next(env, s, a[0]), a[1..], b);
    }
  }

  /** One worker's whole transaction for the copy, nothing else running. */
  lemma CopyIsRouted(env: Prefilter.Env, s: Prefilter.State, config: Prefilter.Config, content: string, n: nat)
    returns (run: seq<Prefilter.Step>)
    requires Pending(env, s, config, content, n)
    ensures Prefilter.ValidRun(env, s, run)
    ensures Prefilter.Final(env, s, run)
         == Prefilter.At(s.(db := Routed(env, s.db, config, content, n)), 1, Prefilter.Idle)
  {
    hide *;
    CopyIsKeyed(env, s, config, content, n);
    CopyNeedsJob(env, s, config, content, n);
    CopyIsCommitted(env, s, config, content, n);
    var a := [Prefilter.Open(1, config, n), Prefilter.CheckExisting(1), Prefilter.ReadParent(1, None)];
    var b := [Prefilter.AcquireLock(1), Prefilter.Recheck(1), Prefilter.FindCanonical(1, None)];
    var c := [Prefilter.Enqueue(1, n), Prefilter.Record(1, n), Prefilter.Commit(1)];
    RunThen(env, s, a, b);
    RunThen(env, s, a + b, c);
    run := a + b + c;
  }

  lemma {:induction false} TimePasses(env: Prefilter.Env, s: Prefilter.State, n: nat) returns (run: seq<Prefilter.Step>)
    ensures Prefilter.ValidRun(env, s, run)
    ensures Prefilter.Final(env, s, run) == s.(db := s.db.(clock := s.db.clock + n))
    decreases n
  {
    if n == 0 {
      run := [];
    } else {
      var rest := TimePasses(env, s.(db := s.db.(clock := s.db.clock + 1)), n - 1);
      run := [Prefilter.Tick] + rest;
      assert run[1..] == rest;
    }
  }

  /** The copy arrives once the earlier ones are older than the window, and is routed. */
  lemma CopyArrives(env: Prefilter.Env, s: Prefilter.State, config: Prefilter.Config, content: string, n: nat)
    returns (run: seq<Prefilter.Step>)
    requires Pending(env, s.(db := s.db.(raws := s.db.raws[n := Copy(n, content)])), config, content, n)
    requires n !in s.db.raws && forall i :: i in s.db.raws ==> s.db.raws[i].externalId != n
    ensures var d := s.db.(raws := s.db.raws[n := Copy(n, content)]);
            && Prefilter.ValidRun(env, s, run)
            && Prefilter.Final(env, s, run)
               == Prefilter.At(Prefilter.State(Routed(env, d, config, content, n), s.workers), 1, Prefilter.Idle)
  {
    var next := s.(db := s.db.(raws := s.db.raws[n := Copy(n, content)]));
    var rest := CopyIsRouted(env, next, config, content, n);
    run := [Prefilter.Ingest(n, Copy(n, content))] + rest;
    assert run[1..] == rest;
    assert Prefilter.Next(env, s, run[0]) == next;
    hide Routed, Pending;
  }

  /** Two copies under jobs of their own, as the window allows. */
  ghost predicate HoldsCopies(env: Prefilter.Env, d: Prefilter.Db, config: Prefilter.Config, content: string) {
    && d.jobs == map[1 := 1, 2 := 2]
    && d.rows == map[1 := CanonicalRow(env, config, content, 1, 0),
                     2 := CanonicalRow(env, config, content, 2, config.window + 1)]
  }

  lemma CopiesAreRouted(env: Prefilter.Env, config: Prefilter.Config, content: string)
    returns (run: seq<Prefilter.Step>)
    requires config.window > 0 && !env.blank(content)
    ensures Prefilter.ValidRun(env, Prefilter.INITIAL, run)
    ensures HoldsCopies(env, Prefilter.Final(env, Prefilter.INITIAL, run).db, config, content)
  {
    hide Prefilter.ValidRun, Prefilter.Final, CanonicalRow;
    var one := CopyArrives(env, Prefilter.INITIAL, config, content, 1);
    var s := Prefilter.Final(env, Prefilter.INITIAL, one);
    var wait := TimePasses(env, s, config.window + 1);
    var later := s.(db := s.db.(clock := s.db.clock + config.window + 1));
    CopiesApart(env, config, content);
    var two := CopyArrives(env, later, config, content, 2);
    RunThen(env, Prefilter.INITIAL, one, wait);
    RunThen(env, Prefilter.INITIAL, one + wait, two);
    run := one + wait + two;
  }

  lemma CopiesApart(env: Prefilter.Env, config: Prefilter.Config, content: string)
    ensures forall n, now :: CanonicalRow(env, config, content, n, now).raw == n
                             && CanonicalRow(env, config, content, n, now).createdAt == now
  {
  }

  /** Where every row passed under one key, every listed job has it. */
  lemma OnlyKey(d: Prefilter.Db, jobs: map<nat, JobRows>, j: nat, key: CompatibilityKey)
    requires EndToEnd.Lists(d, jobs) && j in jobs
    requires forall r :: r in d.rows ==> d.rows[r].decision.Passed? && d.rows[r].Key() == key
    ensures jobs[j].key == key
  {
    var c :| c in Prefilter.CanonicalRows(d, j) && d.rows[c].Key() == jobs[j].key;
  }

  lemma CopyIsListed(d: Prefilter.Db, jobs: map<nat, JobRows>, j: nat, r: nat)
    requires EndToEnd.Lists(d, jobs) && j in jobs && r in d.rows && d.rows[r].raw == r
    requires d.rows[r].decision.Passed? && d.rows[r].decision.route.job == j
    ensures r in jobs[j].messages
  {
    assert EndToEnd.RoutedTo(d, j, r);
  }

  lemma CopiesHaveKey(env: Prefilter.Env, d: Prefilter.Db, config: Prefilter.Config, content: string)
    requires HoldsCopies(env, d, config, content)
    ensures forall r :: r in d.rows ==> d.rows[r].decision.Passed? && d.rows[r].Key() == KeyOf(env, config, content)
    ensures d.rows[1].raw == 1 && d.rows[1].decision.route.job == 1
  {
  }

  /** The classifier sees two jobs of one key. */
  lemma CopiesShareKey(env: Prefilter.Env, d: Prefilter.Db, config: Prefilter.Config, content: string)
    requires Prefilter.StoreOk(env, d) && HoldsCopies(env, d, config, content)
    ensures var jobs := EndToEnd.Listing(d);
            && 1 in jobs && jobs[1].key == KeyOf(env, config, content) && 1 in jobs[1].messages
            && 2 in jobs && jobs[2].key == KeyOf(env, config, content)
  {
    var jobs := EndToEnd.Listing(d);
    assert 1 in jobs && 2 in jobs && 1 in d.rows;
    EndToEnd.ListingLists(env, d);
    CopiesHaveKey(env, d, config, content);
    hide *;
    OnlyKey(d, jobs, 1, KeyOf(env, config, content));
    OnlyKey(d, jobs, 2, KeyOf(env, config, content));
    CopyIsListed(d, jobs, 1, 1);
  }

  // --- the joint run ----------------------------------------------------------------------

  lemma {:induction false} RoutingLifts(env: Prefilter.Env, x: Texts, s: EndToEnd.Joint, run: seq<Prefilter.Step>)
    returns (joint: seq<EndToEnd.Step>)
    requires Prefilter.ValidRun(env, s.routing, run) && s.analysis.tables.jobs == EndToEnd.Listing(s.routing.db)
    ensures EndToEnd.ValidRun(env, x, s, joint)
    ensures var r := Prefilter.Final(env, s.routing, run);
            EndToEnd.Final(env, x, s, joint)
            == EndToEnd.Joint(r, s.analysis.(tables := s.analysis.tables.(jobs := EndToEnd.Listing(r.db))))
    decreases |run|
  {
    hide Prefilter.Enabled, Prefilter.Next, EndToEnd.Listing;
    if run == [] {
      joint := [];
    } else {
      var rest := RoutingLifts(env, x, EndToEnd.Next(env, x, s, EndToEnd.Routing(run[0])), run[1..]);
      joint := [EndToEnd.Routing(run[0])] + rest;
      assert joint[1..] == rest;
    }
  }

  lemma {:induction false} AnalysisLifts(env: Prefilter.Env, x: Texts, s: EndToEnd.Joint, run: seq<Replay.Step>)
    returns (joint: seq<EndToEnd.Step>)
    requires Replay.ValidRun(x, s.analysis, run) && forall i :: 0 <= i < |run| ==> !run[i].Route?
    ensures EndToEnd.ValidRun(env, x, s, joint)
    ensures EndToEnd.Final(env, x, s, joint) == s.(analysis := Replay.Final(x, s.analysis, run))
    decreases |run|
  {
    hide Replay.Enabled, Replay.Next;
    if run == [] {
      joint := [];
    } else {
      var rest := AnalysisLifts(env, x, EndToEnd.Next(env, x, s, EndToEnd.Analyzing(run[0])), run[1..]);
      joint := [EndToEnd.Analyzing(run[0])] + rest;
      assert joint[1..] == rest;
    }
  }

  lemma {:induction false} JointRunThen(env: Prefilter.Env, x: Texts, s: EndToEnd.Joint,
                                        a: seq<EndToEnd.Step>, b: seq<EndToEnd.Step>)
    requires EndToEnd.ValidRun(env, x, s, a) && EndToEnd.ValidRun(env, x, EndToEnd.Final(env, x, s, a), b)
    ensures EndToEnd.ValidRun(env, x, s, a + b)
    ensures EndToEnd.Final(env, x, s, a + b) == EndToEnd.Final(env, x, EndToEnd.Final(env, x, s, a), b)
    decreases |a|
  {
    hide EndToEnd.Enabled, EndToEnd.Next;
    if a == [] {
      assert a + b == b;
    } else {
      assert (a + b)[0] == a[0] && (a + b)[1..] == a[1..] + b;
      JointRunThen(env, x, EndToEnd.Next(env, x, s, a[0]), a[1..], b);
    }
  }

  /** From empty tables both systems reach a state with two jobs of one key. */
  lemma QuietIsReachable(env: Prefilter.Env, x: Texts, config: Prefilter.Config, content: string)
    returns (run: seq<EndToEnd.Step>)
    requires config.window > 0 && !env.blank(content)
    ensures EndToEnd.ValidRun(env, x, EndToEnd.INITIAL, run)
    ensures Quiet(x, EndToEnd.Final(env, x, EndToEnd.INITIAL, run).analysis, KeyOf(env, config, content))
  {
    hide Prefilter.ValidRun, Prefilter.Final, EndToEnd.ValidRun, EndToEnd.Final, EndToEnd.Listing, KeyOf, HoldsCopies;
    hide Replay.Inv, Prefilter.StoreOk;
    EndToEnd.InitialInv(env, x);
    var routing := CopiesAreRouted(env, config, content);
    run := RoutingLifts(env, x, EndToEnd.INITIAL, routing);
    EndToEnd.RunKeeps(env, x, EndToEnd.INITIAL, run);
    CopiesShareKey(env, Prefilter.Final(env, Prefilter.INITIAL, routing).db, config, content);
  }

  /** From empty tables: the prefilter routes one text twice, a window apart, two attempts at the two
      jobs overlap, and the second is refused. */
  lemma ConflictIsReachable(env: Prefilter.Env, x: Texts, config: Prefilter.Config, content: string,
                            a: Analyzer, first: Call, second: Call, draws: Draws)
    returns (run: seq<EndToEnd.Step>)
    requires config.window > 0 && !env.blank(content)
    requires a.Valid() && SupportsJob(x, a, KeyOf(env, config, content)) && a.AcceptsCall(first)
             && a.AcceptsCall(second)
    requires EnvelopeOf(first, config.analyzerVersion) != EnvelopeOf(second, config.analyzerVersion)
    requires draws.similar.None? && draws.messages == [1]
    ensures EndToEnd.ValidRun(env, x, EndToEnd.INITIAL, run)
    ensures Refused(x, EndToEnd.Final(env, x, EndToEnd.INITIAL, run).analysis)
  {
    hide EndToEnd.ValidRun, EndToEnd.Final, Replay.ValidRun, Replay.Final, Quiet, Refused, SupportsJob;
    var routing := QuietIsReachable(env, x, config, content);
    var s := EndToEnd.Final(env, x, EndToEnd.INITIAL, routing);
    ConflictHappens(x, s.analysis, a, KeyOf(env, config, content), first, second, draws);
    var overlap := AnalysisLifts(env, x, s, FirstCommits(a, first, second, draws));
    JointRunThen(env, x, EndToEnd.INITIAL, routing, overlap);
    run := routing + overlap;
  }
}
