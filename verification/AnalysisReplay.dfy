/** Processing analysis jobs at least once: any number of attempts, under any mix of
    configurations, interleaved statement by statement, crashing and retried. */
module AnalysisReplay {
  import opened Sequences
  import opened OpportunityAnalysis
  import opened MatchingDelivery
  import opened AnalysisTables

  // --- one attempt -------------------------------------------------------------------

  /** How a transaction came by its cache entry: its own read found it, its insert met an
      identical row, or the row is its own and not yet committed. */
  datatype Origin = FoundByRead | FoundByStore | Inserted

  /** `Loaded` after the first connection; `Missing` in the write transaction, whose read found
      nothing cached; `Holding` once it has an entry. The envelope is the attempt's own. */
  datatype Attempt =
    | Loaded(analyzer: Analyzer, job: nat, key: CompatibilityKey, cached: Option<Entry>)
    | Missing(analyzer: Analyzer, job: nat, key: CompatibilityKey, envelope: Envelope)
    | Holding(analyzer: Analyzer, job: nat, key: CompatibilityKey, envelope: Envelope, entry: Entry, origin: Origin)
  {
    predicate Inserting() { Holding? && origin.Inserted? }

    predicate Ready() { Holding? || (Loaded? && cached.Some?) }

    function Entry(): Entry
      requires Ready()
    {
      if Loaded? then cached.value else entry
    }

    /** A replay uses the cached analysis, any other run its own. */
    function Analysis(): Analysis
      requires Ready()
    {
      if Loaded? then cached.value.envelope.analysis else envelope.analysis
    }
  }

  datatype Done = Done(analysis: Analysis, entry: Entry, opportunity: Option<nat>, analyzed: bool)

  /** What the first connection reads. */
  function Begin(x: Texts, t: Tables, a: Analyzer, job: nat): Result<Attempt, Error> {
    if job !in t.jobs then Failure(UnknownJob)
    else if !SupportsJob(x, a, t.jobs[job].key) then Failure(IncompatibleJob)
    else
      var key := t.jobs[job].key;
      Success(Loaded(a, job, key, if key in t.cache then Some(t.cache[key]) else None))
  }

  /** The analyzer's answer, then the write transaction's own reads. */
  function ReadCache(x: Texts, t: Tables, l: Attempt, reply: Reply, grounded: bool): Result<Attempt, Error>
    requires l.Loaded?
  {
    if !reply.Replied? then Failure(AnalyzerFailed)
    else if !l.analyzer.AcceptsCall(reply.call) then Failure(IncompatibleCall)
    else if !grounded then Failure(Ungrounded)
    else if l.job !in t.jobs then Failure(UnknownJob)
    else if !SupportsJob(x, l.analyzer, t.jobs[l.job].key) then Failure(IncompatibleJob)
    else
      var key := t.jobs[l.job].key;
      var own := EnvelopeOf(reply.call, l.key.analyzerVersion);
      Success(if key in t.cache then Holding(l.analyzer, l.job, key, own, t.cache[key], FoundByRead)
              else Missing(l.analyzer, l.job, key, own))
  }

  /** `store_for_prefilter_result`, once no rival's insert is pending: a committed row must be
      identical, else the insert is this transaction's own. */
  function StoreEntry(t: Tables, m: Attempt, id: nat): Result<Attempt, Error>
    requires m.Missing?
  {
    if m.key !in t.cache then
      Success(Holding(m.analyzer, m.job, m.key, m.envelope, AnalysisTables.Entry(id, m.key, m.envelope), Inserted))
    else if t.cache[m.key].envelope != m.envelope then Failure(CacheConflict)
    else Success(Holding(m.analyzer, m.job, m.key, m.envelope, t.cache[m.key], FoundByStore))
  }

  /** The tables with this transaction's own insert. */
  function WithInsert(t: Tables, a: Attempt): Tables {
    if a.Inserting() then t.(cache := t.cache[a.entry.key := a.entry]) else t
  }

  /** Persisting and committing; the dedup lock serializes this part of all transactions. */
  function Complete(x: Texts, t: Tables, a: Attempt, draws: Draws): Result<(Tables, Done), Error>
    requires a.Ready()
  {
    var e := a.Entry();
    if a.Loaded? && (!a.analyzer.AcceptsEnvelope(e.envelope) || e.envelope.cacheVersion != e.key.analyzerVersion)
    then Failure(IncompatibleEnvelope)
    else
      var persisted := Persisted(x, WithInsert(t, a), e.id, a.Analysis(), draws);
      if persisted.Failure? then Failure(persisted.error)
      else Success((persisted.value.0, Done(a.Analysis(), e, persisted.value.1, a.Holding?)))
  }

  /** A whole run that nothing overlaps, the listing included. */
  function RunAlone(x: Texts, t: Tables, a: Analyzer, job: nat, reply: Reply, grounded: bool, id: nat, draws: Draws)
    : Result<(Tables, Done), Error>
  {
    var begun, found := Begin(x, t, a, job), draws.(messages := JobMessages(t, job));
    if begun.Failure? then Failure(begun.error)
    else if begun.value.cached.Some? then Complete(x, t, begun.value, found)
    else
      var read := ReadCache(x, t, begun.value, reply, grounded);
      if read.Failure? then Failure(read.error)
      else if read.value.Holding? then Complete(x, t, read.value, found)
      else
        var stored := StoreEntry(t, read.value, id);
        if stored.Failure? then Failure(stored.error) else Complete(x, t, stored.value, found)
  }

  /** The database as one processor sees it when nothing overlaps its run. */
  class AnalysisDatabase {
    var tables: Tables
    const texts: Texts

    constructor (texts: Texts, jobs: map<nat, JobRows>)
      ensures this.texts == texts && tables == Tables(jobs, map[], map[], {}, map[], map[])
    {
      this.texts := texts;
      tables := Tables(jobs, map[], map[], {}, map[], map[]);
    }

    /** The second half of `process`, on the transaction's own copy: read, store, persist. */
    method AnalyzeAndStore(l: Attempt, reply: Reply, grounded: bool, id: nat, draws: Draws)
      returns (r: Result<(Tables, Done), Error>)
      requires l.Loaded?
      ensures r == var found := draws.(messages := JobMessages(tables, l.job));
                   var read := ReadCache(texts, tables, l, reply, grounded);
                   if read.Failure? then Failure(read.error)
                   else if read.value.Holding? then Complete(texts, tables, read.value, found)
                   else
                     var stored := StoreEntry(tables, read.value, id);
                     if stored.Failure? then Failure(stored.error) else Complete(texts, tables, stored.value, found)
    {
      hide Persisted;
      if !reply.Replied? {
        return Failure(AnalyzerFailed);
      }
      if !l.analyzer.AcceptsCall(reply.call) {
        return Failure(IncompatibleCall);
      }
      if !grounded {
        return Failure(Ungrounded);
      }
      if l.job !in tables.jobs {
        return Failure(UnknownJob);
      }
      var rows := tables.jobs[l.job];
      if !SupportsJob(texts, l.analyzer, rows.key) {
        return Failure(IncompatibleJob);
      }
      var envelope := EnvelopeOf(reply.call, l.key.analyzerVersion);
      var scratch := tables;
      var entry: Entry;
      if rows.key in scratch.cache {
        entry := scratch.cache[rows.key];
      } else {
        entry := AnalysisTables.Entry(id, rows.key, envelope);
        scratch := scratch.(cache := scratch.cache[rows.key := entry]);
      }
      var found := draws.(messages := rows.messages);
      var persisted := PersistOpportunity(texts, scratch, entry.id, envelope.analysis, found);
      if persisted.Failure? {
        return Failure(persisted.error);
      }
      r := Success((persisted.value.0, Done(envelope.analysis, entry, persisted.value.1, true)));
    }

    /** `_result_from_cache`, on the transaction's own copy. */
    method ReplayCached(l: Attempt, draws: Draws) returns (r: Result<(Tables, Done), Error>)
      requires l.Loaded? && l.cached.Some?
      ensures r == Complete(texts, tables, l, draws.(messages := JobMessages(tables, l.job)))
    {
      hide Persisted;
      var cached := l.cached.value;
      if !l.analyzer.AcceptsEnvelope(cached.envelope) || cached.envelope.cacheVersion != cached.key.analyzerVersion {
        return Failure(IncompatibleEnvelope);
      }
      var found := draws.(messages := JobMessages(tables, l.job));
      var persisted := PersistOpportunity(texts, tables, cached.id, cached.envelope.analysis, found);
      if persisted.Failure? {
        return Failure(persisted.error);
      }
      r := Success((persisted.value.0, Done(cached.envelope.analysis, cached, persisted.value.1, false)));
    }

    /** `process`: a crash or an error before the commit leaves the tables alone. */
    method Process(a: Analyzer, job: nat, first: Reply, second: Reply, grounded: bool, id: nat, draws: Draws,
                   crash: bool)
      returns (r: Result<Done, Error>)
      modifies this
      ensures match RunAlone(texts, old(tables), a, job, Analyze(a, first, second), grounded, id, draws)
              case Failure(e) => r == Failure(e) && tables == old(tables)
              case Success(done) =>
                if crash then r == Failure(Crashed) && tables == old(tables)
                else r == Success(done.1) && tables == done.0
    {
      if job !in tables.jobs {
        return Failure(UnknownJob);
      }
      var key := tables.jobs[job].key;
      if !SupportsJob(texts, a, key) {
        return Failure(IncompatibleJob);
      }
      var written: Result<(Tables, Done), Error>;
      if key in tables.cache {
        written := ReplayCached(Loaded(a, job, key, Some(tables.cache[key])), draws);
      } else {
        written := AnalyzeAndStore(Loaded(a, job, key, None), Analyze(a, first, second), grounded, id, draws);
      }
      if written.Failure? {
        return Failure(written.error);
      }
      if crash {
        return Failure(Crashed);
      }
      tables := written.value.0;
      r := Success(written.value.1);
    }
  }

  // --- interleaved attempts ------------------------------------------------------------

  datatype State = State(tables: Tables, workers: map<nat, Attempt>)

  datatype Step =
    | Route(jobs: map<nat, JobRows>)
    | Start(w: nat, analyzer: Analyzer, job: nat)
    | Read(w: nat, reply: Reply, grounded: bool)
    | Store(w: nat, id: nat)
    | Commit(w: nat, draws: Draws)
    | Crash(w: nat)

  /** Drawn identifiers are new, a near-duplicate is an opportunity on record, and the job's
      messages are as they were when listed. */
  ghost predicate FreshDraws(t: Tables, job: nat, draws: Draws) {
    && Listed(t.jobs, job, draws.messages)
    && draws.opportunity !in t.opportunities
    && (draws.similar.Some? ==> draws.similar.value in t.opportunities)
  }

  /** The identifier is no row's, committed or not. */
  ghost predicate FreshId(s: State, id: nat) {
    && (forall k :: k in s.tables.cache ==> s.tables.cache[k].id != id)
    && (forall v :: v in s.workers && s.workers[v].Inserting() ==> s.workers[v].entry.id != id)
  }

  /** A store waits while another transaction's insert of the key is uncommitted. */
  ghost predicate Enabled(x: Texts, s: State, step: Step) {
    match step
    case Route(jobs) => Partitioned(jobs) && Grows(s.tables.jobs, jobs)
    case Start(w, a, job) => w !in s.workers && a.Valid()
    case Read(w, reply, grounded) => w in s.workers && s.workers[w].Loaded? && s.workers[w].cached.None?
    case Store(w, id) =>
      && w in s.workers && s.workers[w].Missing? && FreshId(s, id)
      && (forall v :: v in s.workers && s.workers[v].Inserting() ==> s.workers[v].key != s.workers[w].key)
    case Commit(w, draws) => w in s.workers && s.workers[w].Ready() && FreshDraws(s.tables, s.workers[w].job, draws)
    case Crash(w) => w in s.workers
  }

  /** The worker goes on, or its transaction is gone. */
  function Moved(s: State, w: nat, r: Result<Attempt, Error>): State {
    s.(workers := if r.Success? then s.workers[w := r.value] else s.workers - {w})
  }

  ghost function Next(x: Texts, s: State, step: Step): State
    requires Enabled(x, s, step)
  {
    match step
    case Route(jobs) => s.(tables := s.tables.(jobs := jobs))
    case Start(w, a, job) => Moved(s, w, Begin(x, s.tables, a, job))
    case Read(w, reply, grounded) => Moved(s, w, ReadCache(x, s.tables, s.workers[w], reply, grounded))
    case Store(w, id) => Moved(s, w, StoreEntry(s.tables, s.workers[w], id))
    case Commit(w, draws) =>
      var r := Complete(x, s.tables, s.workers[w], draws);
      State(if r.Success? then r.value.0 else s.tables, s.workers - {w})
    case Crash(w) => s.(workers := s.workers - {w})
  }

  ghost predicate ValidRun(x: Texts, s: State, run: seq<Step>)
    decreases |run|
  {
    run == [] || (Enabled(x, s, run[0]) && ValidRun(x, Next(x, s, run[0]), run[1..]))
  }

  ghost function Final(x: Texts, s: State, run: seq<Step>): State
    requires ValidRun(x, s, run)
    decreases |run|
  {
    if run == [] then s else Final(x, Next(x, s, run[0]), run[1..])
  }

  const EMPTY: State := State(Tables(map[], map[], map[], {}, map[], map[]), map[])

  // --- the inductive invariant -----------------------------------------------------------

  ghost predicate HasEntry(t: Tables, key: CompatibilityKey, e: Entry) { key in t.cache && t.cache[key] == e }

  ghost predicate AttemptOk(x: Texts, t: Tables, a: Attempt) {
    && a.job in t.jobs && t.jobs[a.job].key == a.key && SupportsJob(x, a.analyzer, a.key)
    && match a
       case Loaded(_, _, key, cached) => cached.Some? ==> HasEntry(t, key, cached.value)
       case Missing(analyzer, _, key, own) => analyzer.AcceptsEnvelope(own) && own.cacheVersion == key.analyzerVersion
       case Holding(analyzer, _, key, own, e, origin) =>
         && analyzer.AcceptsEnvelope(own) && own.cacheVersion == key.analyzerVersion
         && (if origin.Inserted?
             then key !in t.cache && e.key == key && e.envelope == own &&
                  forall k :: k in t.cache ==> t.cache[k].id != e.id
             else HasEntry(t, key, e) && (origin.FoundByStore? ==> e.envelope == own))
  }

  /** Uncommitted inserts have distinct keys and identifiers. */
  predicate Apart(a: Attempt, b: Attempt) {
    a.Inserting() && b.Inserting() ==> a.key != b.key && a.entry.id != b.entry.id
  }

  ghost predicate Inv(x: Texts, s: State) {
    && TablesOk(x, s.tables)
    && (forall w :: w in s.workers ==> AttemptOk(x, s.tables, s.workers[w]))
    && (forall w, v :: w in s.workers && v in s.workers && w != v ==> Apart(s.workers[w], s.workers[v]))
  }

  // --- what each step does -----------------------------------------------------------------

  lemma BeginOk(x: Texts, t: Tables, a: Analyzer, job: nat)
    ensures var r := Begin(x, t, a, job);
            && (r.Success? <==> job in t.jobs && SupportsJob(x, a, t.jobs[job].key))
            && (r.Success? ==> AttemptOk(x, t, r.value) && r.value.Loaded?)
  {
  }

  lemma ReadOk(x: Texts, t: Tables, l: Attempt, reply: Reply, grounded: bool)
    requires AttemptOk(x, t, l) && l.Loaded?
    ensures var r := ReadCache(x, t, l, reply, grounded);
            && (r.Success? <==> reply.Replied? && l.analyzer.AcceptsCall(reply.call) && grounded)
            && (r.Failure? ==> r.error in {AnalyzerFailed, IncompatibleCall, Ungrounded})
            && (r.Success? ==>
                  && AttemptOk(x, t, r.value) && !r.value.Inserting()
                  && r.value.envelope == EnvelopeOf(reply.call, l.key.analyzerVersion)
                  && (if l.key in t.cache then r.value.Holding? && r.value.origin.FoundByRead? else r.value.Missing?))
  {
    hide SupportsJob;
    if reply.Replied? && l.analyzer.AcceptsCall(reply.call) {
      OwnEnvelopeIsAccepted(l.analyzer, reply.call, l.key.analyzerVersion);
    }
  }

  lemma StoreOk(x: Texts, t: Tables, m: Attempt, id: nat)
    requires AttemptOk(x, t, m) && m.Missing? && TablesOk(x, t) && forall k :: k in t.cache ==> t.cache[k].id != id
    ensures var r := StoreEntry(t, m, id);
            && (r.Failure? <==> m.key in t.cache && t.cache[m.key].envelope != m.envelope)
            && (r.Failure? ==> r.error == CacheConflict)
            && (r.Success? ==> AttemptOk(x, t, r.value) && r.value.Holding? && !r.value.origin.FoundByRead?)
            && (r.Success? && r.value.Inserting() ==> r.value.key == m.key && r.value.entry.id == id)
  {
    hide SupportsJob, LinksOk, SourcesOk, Partitioned;
  }

  predicate CanReplay(x: Texts, a: Analyzer, e: Entry) {
    SupportsJob(x, a, e.key) && a.AcceptsEnvelope(e.envelope)
  }

  /** What a finished attempt has returned and left behind. */
  ghost predicate Finished(x: Texts, t: Tables, a: Attempt, u: Tables, done: Done)
    requires a.Ready()
  {
    && TablesOk(x, u) && Extends(t, u) && u.jobs == t.jobs && u.cache == WithInsert(t, a).cache
    && HasEntry(u, a.key, a.Entry()) && done.entry == a.Entry() && done.entry.key == a.key
    && done.analysis == a.Analysis() && (done.analyzed <==> a.Holding?)
    && (done.opportunity.Some? <==> done.analysis.isOpportunity)
    && (done.opportunity.Some? ==> done.entry.id in u.links && u.links[done.entry.id] == done.opportunity.value)
  }

  lemma InsertKeeps(x: Texts, t: Tables, a: Attempt)
    requires TablesOk(x, t) && AttemptOk(x, t, a) && a.Ready()
    ensures var u := WithInsert(t, a);
            && TablesOk(x, u) && Extends(t, u) && u.jobs == t.jobs && HasEntry(u, a.key, a.Entry())
            && a.Entry().key == a.key && a.Entry().envelope.cacheVersion == a.key.analyzerVersion
  {
    hide LinksOk, SourcesOk, Partitioned, SupportsJob;
    if a.Inserting() {
      StoreKeeps(x, t, a.entry);
    }
  }

  /** An attempt that gets this far fails only if it is a replay of an envelope its
      configuration does not accept. */
  lemma CompleteOk(x: Texts, t: Tables, a: Attempt, draws: Draws)
    requires TablesOk(x, t) && AttemptOk(x, t, a) && a.Ready() && Listed(t.jobs, a.job, draws.messages)
    ensures var r := Complete(x, t, a, draws);
            && (r.Success? <==> a.Holding? || a.analyzer.AcceptsEnvelope(a.cached.value.envelope))
            && (r.Failure? ==> r.error == IncompatibleEnvelope)
            && (r.Success? ==> Finished(x, t, a, r.value.0, r.value.1))
  {
    InsertKeeps(x, t, a);
    var s := WithInsert(t, a);
    PersistKeeps(x, s, a.job, a.Analysis(), draws);
    var u := Persisted(x, s, a.Entry().id, a.Analysis(), draws).value.0;
    ExtendsTransitive(t, s, u);
    hide TablesOk, Extends, Persisted, SupportsJob, WithInsert;
  }

  /** Whoever is still running keeps what it relied on. */
  lemma OthersSurvive(x: Texts, t: Tables, a: Attempt, u: Tables, b: Attempt)
    requires a.Ready() && Apart(a, b) && AttemptOk(x, t, a) && AttemptOk(x, t, b)
    requires Extends(t, u) && u.jobs == t.jobs && u.cache == WithInsert(t, a).cache
    ensures AttemptOk(x, u, b)
  {
    hide SupportsJob;
  }

  // --- every step keeps the invariant ----------------------------------------------------------

  /** A worker goes on without inserting, or with an insert apart from all others. */
  lemma MoveKeeps(x: Texts, s: State, w: nat, r: Result<Attempt, Error>)
    requires Inv(x, s)
    requires r.Success? ==> AttemptOk(x, s.tables, r.value)
    requires r.Success? ==> forall v :: v in s.workers && v != w ==> Apart(r.value, s.workers[v])
    ensures Inv(x, Moved(s, w, r)) && Extends(s.tables, Moved(s, w, r).tables)
  {
    hide TablesOk, AttemptOk;
  }

  lemma RouteKeeps(x: Texts, s: State, jobs: map<nat, JobRows>)
    requires Inv(x, s) && Partitioned(jobs) && Grows(s.tables.jobs, jobs)
    ensures Inv(x, s.(tables := s.tables.(jobs := jobs))) && Extends(s.tables, s.tables.(jobs := jobs))
  {
    RoutingKeeps(x, s.tables, jobs);
    hide TablesOk, SupportsJob, Partitioned;
  }

  lemma StoreKeepsInv(x: Texts, s: State, step: Step)
    requires Inv(x, s) && Enabled(x, s, step) && step.Store?
    ensures Inv(x, Next(x, s, step)) && Extends(s.tables, Next(x, s, step).tables)
  {
    StoreOk(x, s.tables, s.workers[step.w], step.id);
    hide TablesOk, AttemptOk, StoreEntry;
    MoveKeeps(x, s, step.w, StoreEntry(s.tables, s.workers[step.w], step.id));
  }

  lemma CommitKeeps(x: Texts, s: State, step: Step)
    requires Inv(x, s) && Enabled(x, s, step) && step.Commit?
    ensures Inv(x, Next(x, s, step)) && Extends(s.tables, Next(x, s, step).tables)
  {
    var a := s.workers[step.w];
    var n := Next(x, s, step);
    CompleteOk(x, s.tables, a, step.draws);
    assert Extends(s.tables, s.tables);
    var r := Complete(x, s.tables, a, step.draws);
    assert r.Success? ==> n.tables == r.value.0;
    hide TablesOk, AttemptOk, Complete, Extends, FreshDraws;
    forall v | v in n.workers
      ensures AttemptOk(x, n.tables, n.workers[v])
    {
      if r.Success? {
        OthersSurvive(x, s.tables, a, n.tables, s.workers[v]);
      }
    }
  }

  lemma StepKeeps(x: Texts, s: State, step: Step)
    requires Inv(x, s) && Enabled(x, s, step)
    ensures Inv(x, Next(x, s, step)) && Extends(s.tables, Next(x, s, step).tables)
  {
    hide TablesOk, AttemptOk, Extends, Begin, ReadCache, StoreEntry, Complete, Partitioned, Grows, FreshId, FreshDraws;
    match step {
      case Route(jobs) => RouteKeeps(x, s, jobs);
      case Start(w, a, job) =>
        BeginOk(x, s.tables, a, job);
        MoveKeeps(x, s, w, Begin(x, s.tables, a, job));
      case Read(w, reply, grounded) =>
        ReadOk(x, s.tables, s.workers[w], reply, grounded);
        MoveKeeps(x, s, w, ReadCache(x, s.tables, s.workers[w], reply, grounded));
      case Store(w, id) => StoreKeepsInv(x, s, step);
      case Commit(w, draws) => CommitKeeps(x, s, step);
      case Crash(w) => MoveKeeps(x, s, w, Failure(Crashed));
    }
  }

  lemma {:induction false} RunKeeps(x: Texts, s: State, run: seq<Step>)
    requires Inv(x, s) && ValidRun(x, s, run)
    ensures Inv(x, Final(x, s, run)) && Extends(s.tables, Final(x, s, run).tables)
    decreases |run|
  {
    if run != [] {
      hide TablesOk, Next, Inv;
      StepKeeps(x, s, run[0]);
      RunKeeps(x, Next(x, s, run[0]), run[1..]);
      ExtendsTransitive(s.tables, Next(x, s, run[0]).tables, Final(x, s, run).tables);
    }
  }

  lemma ReachableOk(x: Texts, run: seq<Step>)
    requires ValidRun(x, EMPTY, run)
    ensures Inv(x, Final(x, EMPTY, run))
  {
    RunKeeps(x, EMPTY, run);
  }

  // --- what a run leaves behind ------------------------------------------------------------------

  /** The ways an attempt can fail in a reachable state: a job this configuration does not know or
      support, the analyzer's answer, a rival's different envelope at the store, or a cached
      envelope this configuration does not accept. */
  lemma FailuresAreKnown(x: Texts, run: seq<Step>, step: Step)
    requires ValidRun(x, EMPTY, run) && Enabled(x, Final(x, EMPTY, run), step)
    ensures var s := Final(x, EMPTY, run);
            match step
            case Start(w, a, job) =>
              var r := Begin(x, s.tables, a, job);
              && (r == Failure(UnknownJob) <==> job !in s.tables.jobs)
              && (r == Failure(IncompatibleJob)
                  <==> job in s.tables.jobs && !SupportsJob(x, a, s.tables.jobs[job].key))
              && (r.Failure? ==> r.error in {UnknownJob, IncompatibleJob})
            case Read(w, reply, grounded) =>
              var r := ReadCache(x, s.tables, s.workers[w], reply, grounded);
              && (r.Success? <==> reply.Replied? && s.workers[w].analyzer.AcceptsCall(reply.call) && grounded)
              && (r.Failure? ==> r.error in {AnalyzerFailed, IncompatibleCall, Ungrounded})
            case Store(w, id) =>
              var m := s.workers[w];
              var r := StoreEntry(s.tables, m, id);
              && (r.Failure? <==> m.key in s.tables.cache && s.tables.cache[m.key].envelope != m.envelope)
              && (r.Failure? ==> r.error == CacheConflict)
            case Commit(w, draws) =>
              var a := s.workers[w];
              var r := Complete(x, s.tables, a, draws);
              && (r.Success? <==> a.Holding? || a.analyzer.AcceptsEnvelope(a.cached.value.envelope))
              && (r.Failure? ==> r.error == IncompatibleEnvelope)
            case _ => true
  {
    ReachableOk(x, run);
    var s := Final(x, EMPTY, run);
    hide TablesOk, AttemptOk, ReadCache, StoreEntry, Complete, Extends, SupportsJob;
    match step {
      case Read(w, reply, grounded) => ReadOk(x, s.tables, s.workers[w], reply, grounded);
      case Store(w, id) => StoreOk(x, s.tables, s.workers[w], id);
      case Commit(w, draws) => CompleteOk(x, s.tables, s.workers[w], draws);
      case _ =>
    }
  }

  /** Some commit in the run inserts the key with an envelope other than `own`. */
  ghost predicate RivalCommits(x: Texts, s: State, run: seq<Step>, key: CompatibilityKey, own: Envelope)
    requires ValidRun(x, s, run)
    decreases |run|
  {
    run != [] &&
    (CommitsRival(s, run[0], key, own) || RivalCommits(x, Next(x, s, run[0]), run[1..], key, own))
  }

  predicate CommitsRival(s: State, step: Step, key: CompatibilityKey, own: Envelope) {
    && step.Commit? && step.w in s.workers && s.workers[step.w].Inserting()
    && s.workers[step.w].key == key && s.workers[step.w].envelope != own
  }

  /** The committed entry of the key differs from `own`. */
  predicate Contradicts(t: Tables, key: CompatibilityKey, own: Envelope) {
    key in t.cache && t.cache[key].envelope != own
  }

  lemma StepContradicts(x: Texts, s: State, step: Step, key: CompatibilityKey, own: Envelope)
    requires Inv(x, s) && Enabled(x, s, step)
    ensures Contradicts(Next(x, s, step).tables, key, own)
            <==> Contradicts(s.tables, key, own) || CommitsRival(s, step, key, own)
  {
    if step.Commit? {
      var a := s.workers[step.w];
      assert AttemptOk(x, s.tables, a);
      CompleteOk(x, s.tables, a, step.draws);
      hide TablesOk, Complete, SupportsJob, Extends, FreshDraws;
    }
  }

  lemma {:induction false} RunContradicts(x: Texts, s: State, run: seq<Step>, key: CompatibilityKey, own: Envelope)
    requires Inv(x, s) && ValidRun(x, s, run)
    ensures Contradicts(Final(x, s, run).tables, key, own)
            <==> Contradicts(s.tables, key, own) || RivalCommits(x, s, run, key, own)
    decreases |run|
  {
    if run != [] {
      hide Inv, Next, Enabled, Contradicts;
      StepContradicts(x, s, run[0], key, own);
      StepKeeps(x, s, run[0]);
      RunContradicts(x, Next(x, s, run[0]), run[1..], key, own);
    }
  }

  /** The step is not this worker's. */
  predicate Spares(step: Step, w: nat) { step.Route? || step.w != w }

  lemma {:induction false} SparedWorkerStays(x: Texts, s: State, run: seq<Step>, w: nat)
    requires ValidRun(x, s, run) && w in s.workers && forall i :: 0 <= i < |run| ==> Spares(run[i], w)
    ensures w in Final(x, s, run).workers && Final(x, s, run).workers[w] == s.workers[w]
    decreases |run|
  {
    if run != [] {
      assert Spares(run[0], w);
      SparedWorkerStays(x, Next(x, s, run[0]), run[1..], w);
    }
  }

  /** A store is refused exactly when, between the transaction's read and its store, another
      attempt committed a different envelope for the key. */
  lemma ConflictIffRivalCommitted(x: Texts, before: seq<Step>, w: nat, reply: Reply, grounded: bool,
                                  between: seq<Step>, id: nat)
    requires ValidRun(x, EMPTY, before) && Enabled(x, Final(x, EMPTY, before), Read(w, reply, grounded))
    requires var s := Next(x, Final(x, EMPTY, before), Read(w, reply, grounded));
             && w in s.workers && s.workers[w].Missing? && ValidRun(x, s, between)
             && (forall i :: 0 <= i < |between| ==> Spares(between[i], w))
             && Enabled(x, Final(x, s, between), Store(w, id))
    ensures var s := Next(x, Final(x, EMPTY, before), Read(w, reply, grounded));
            var m := s.workers[w];
            && Final(x, s, between).workers[w] == m
            && (StoreEntry(Final(x, s, between).tables, m, id) == Failure(CacheConflict)
                <==> RivalCommits(x, s, between, m.key, m.envelope))
  {
    hide Inv, Next, Enabled, RivalCommits, Final, ValidRun, Contradicts;
    ReachableOk(x, before);
    var r := Final(x, EMPTY, before);
    var s := Next(x, r, Read(w, reply, grounded));
    StepKeeps(x, r, Read(w, reply, grounded));
    ReadFoundNothing(x, r, w, reply, grounded);
    RunContradicts(x, s, between, s.workers[w].key, s.workers[w].envelope);
    SparedWorkerStays(x, s, between, w);
    StoreContradicts(Final(x, s, between).tables, s.workers[w], id);
  }

  lemma ReadFoundNothing(x: Texts, s: State, w: nat, reply: Reply, grounded: bool)
    requires Enabled(x, s, Read(w, reply, grounded))
    requires var n := Next(x, s, Read(w, reply, grounded)); w in n.workers && n.workers[w].Missing?
    ensures var n := Next(x, s, Read(w, reply, grounded));
            !Contradicts(n.tables, n.workers[w].key, n.workers[w].envelope)
  {
    hide SupportsJob;
  }

  lemma StoreContradicts(t: Tables, m: Attempt, id: nat)
    requires m.Missing?
    ensures StoreEntry(t, m, id) == Failure(CacheConflict) <==> Contradicts(t, m.key, m.envelope)
  {
  }

  /** Once a key is cached, every later attempt under any configuration either is refused for
      that configuration or returns the cached analysis, with no analyzer call. */
  lemma CachedAnalysisIsFinal(x: Texts, s: State, a: Analyzer, job: nat, later: seq<Step>, draws: Draws)
    requires Inv(x, s) && job in s.tables.jobs && s.tables.jobs[job].key in s.tables.cache
    requires ValidRun(x, s, later) && Listed(Final(x, s, later).tables.jobs, job, draws.messages)
    ensures var e := s.tables.cache[s.tables.jobs[job].key];
            var begun := Begin(x, s.tables, a, job);
            && (begun.Success? <==> SupportsJob(x, a, e.key))
            && (begun.Success? ==>
                  && begun.value.Ready()
                  && var r := Complete(x, Final(x, s, later).tables, begun.value, draws);
                  && (r.Success? <==> CanReplay(x, a, e))
                  && (r.Success? ==> ReplayOf(s.tables, e, r.value.1)))
  {
    RunKeeps(x, s, later);
    var begun := Begin(x, s.tables, a, job);
    var u := Final(x, s, later).tables;
    BeginOk(x, s.tables, a, job);
    assert s.tables.cache[s.tables.jobs[job].key].key == s.tables.jobs[job].key;
    if begun.Success? {
      hide TablesOk, SupportsJob;
      assert AttemptOk(x, u, begun.value);
      hide Extends, AttemptOk;
      CompleteOk(x, u, begun.value, draws);
      assert Extends(s.tables, u);
      if Complete(x, u, begun.value, draws).Success? {
        FinishedReplay(x, s.tables, u, begun.value, Complete(x, u, begun.value, draws).value.0,
                       Complete(x, u, begun.value, draws).value.1);
      }
    }
  }

  /** The cached analysis, under the entry's opportunity, without the analyzer. */
  predicate ReplayOf(t: Tables, e: Entry, done: Done) {
    && done.entry == e && done.analysis == e.envelope.analysis && !done.analyzed
    && (done.opportunity.Some? <==> done.analysis.isOpportunity)
    && (done.opportunity.Some? && e.id in t.links ==> done.opportunity.value == t.links[e.id])
  }

  lemma FinishedReplay(x: Texts, t: Tables, u: Tables, a: Attempt, v: Tables, done: Done)
    requires a.Loaded? && a.cached.Some? && Extends(t, u) && Finished(x, u, a, v, done)
    ensures ReplayOf(t, a.cached.value, done)
  {
    hide TablesOk;
  }

  /** The attempt did not find the key stored since its first read, or found an envelope its
      configuration accepts, with the analysis it obtained itself. */
  predicate Agrees(a: Attempt) {
    a.Holding? && a.origin.FoundByRead? ==>
      a.analyzer.AcceptsEnvelope(a.entry.envelope) && a.entry.envelope.analysis == a.envelope.analysis
  }

  /** A committed run leaves an entry its own configuration can replay, holding what it returned,
      exactly when it agrees with whoever stored the key first. */
  lemma CommitIsReplayable(x: Texts, s: State, w: nat, draws: Draws)
    requires Inv(x, s) && Enabled(x, s, Commit(w, draws)) && Complete(x, s.tables, s.workers[w], draws).Success?
    ensures var a := s.workers[w];
            var (u, done) := Complete(x, s.tables, a, draws).value;
            && Finished(x, s.tables, a, u, done) && a.job in u.jobs && u.jobs[a.job].key == a.key
            && (CanReplay(x, a.analyzer, done.entry) && done.analysis == done.entry.envelope.analysis <==> Agrees(a))
  {
    var a := s.workers[w];
    assert AttemptOk(x, s.tables, a);
    CompleteOk(x, s.tables, a, draws);
    hide TablesOk, Complete, Extends, FreshDraws, SupportsJob;
  }

  /** What a finished attempt's job, entry and opportunity still are later on. */
  ghost predicate Left(x: Texts, t: Tables, a: Attempt, done: Done) {
    && a.job in t.jobs && t.jobs[a.job].key == a.key && SupportsJob(x, a.analyzer, a.key)
    && HasEntry(t, a.key, done.entry) && done.entry.key == a.key
    && (done.opportunity.Some? <==> done.analysis.isOpportunity)
    && (done.opportunity.Some? ==> done.entry.id in t.links && t.links[done.entry.id] == done.opportunity.value)
  }

  lemma LeftStays(x: Texts, t: Tables, u: Tables, a: Attempt, done: Done)
    requires Left(x, t, a, done) && Extends(t, u)
    ensures Left(x, u, a, done)
  {
    hide SupportsJob;
  }

  /** Retrying what was left behind repeats it exactly when the entry can be replayed and agrees. */
  lemma RetryRepeats(x: Texts, s: State, a: Attempt, done: Done, later: seq<Step>, draws: Draws)
    requires Inv(x, s) && Left(x, s.tables, a, done)
    requires ValidRun(x, s, later) && Listed(Final(x, s, later).tables.jobs, a.job, draws.messages)
    ensures var begun := Begin(x, s.tables, a.analyzer, a.job);
            && begun.Success? && begun.value.Ready()
            && var r := Complete(x, Final(x, s, later).tables, begun.value, draws);
               (r.Success? && r.value.1 == done.(analyzed := false))
               <==> CanReplay(x, a.analyzer, done.entry) && done.analysis == done.entry.envelope.analysis
  {
    hide Inv, SupportsJob, Complete, Begin, ValidRun, Final;
    CachedAnalysisIsFinal(x, s, a.analyzer, a.job, later, draws);
  }

  /** After a committed run, whatever happens in between, a later run of the same job with the
      same configuration succeeds and returns the same result, without the analyzer, exactly when
      the committed run agreed with whoever stored the key first; a run that stored the key itself,
      or met an identical row, always does. */
  lemma CommittedRunReplays(x: Texts, before: seq<Step>, w: nat, draws: Draws, between: seq<Step>,
                            later: seq<Step>, redraws: Draws)
    requires ValidRun(x, EMPTY, before) && Enabled(x, Final(x, EMPTY, before), Commit(w, draws))
    requires Complete(x, Final(x, EMPTY, before).tables, Final(x, EMPTY, before).workers[w], draws).Success?
    requires ValidRun(x, Next(x, Final(x, EMPTY, before), Commit(w, draws)), between)
    requires ValidRun(x, Final(x, Next(x, Final(x, EMPTY, before), Commit(w, draws)), between), later)
    requires var resumed := Final(x, Next(x, Final(x, EMPTY, before), Commit(w, draws)), between);
             Listed(Final(x, resumed, later).tables.jobs, Final(x, EMPTY, before).workers[w].job, redraws.messages)
    ensures var s := Final(x, EMPTY, before);
            var a := s.workers[w];
            var done := Complete(x, s.tables, a, draws).value.1;
            var resumed := Final(x, Next(x, s, Commit(w, draws)), between);
            var begun := Begin(x, resumed.tables, a.analyzer, a.job);
            && begun.Success? && begun.value.Ready()
            && var r := Complete(x, Final(x, resumed, later).tables, begun.value, redraws);
               (r.Success? && r.value.1 == done.(analyzed := false)) <==> Agrees(a)
  {
    ReachableOk(x, before);
    var s := Final(x, EMPTY, before);
    var a := s.workers[w];
    var s1 := Next(x, s, Commit(w, draws));
    var done := Complete(x, s.tables, a, draws).value.1;
    CommitIsReplayable(x, s, w, draws);
    StepKeeps(x, s, Commit(w, draws));
    assert AttemptOk(x, s.tables, a);
    assert Left(x, s1.tables, a, done);
    hide Inv, Enabled, Next, SupportsJob, Agrees, Complete, Begin, Left, Extends, AttemptOk, CanReplay;
    RunKeeps(x, s1, between);
    LeftStays(x, s1.tables, Final(x, s1, between).tables, a, done);
    RetryRepeats(x, Final(x, s1, between), a, done, later, redraws);
  }

  /** In every reachable state a job has at most one opportunity, all its filed messages are
      under it, and opportunities, links and fan-out jobs match one to one. */
  lemma OneOpportunityOneFanout(x: Texts, run: seq<Step>)
    requires x.Valid() && ValidRun(x, EMPTY, run)
    ensures Matched(x, Final(x, EMPTY, run).tables)
  {
    hide Matched, TablesOk;
    ReachableOk(x, run);
    SoundTablesMatch(x, Final(x, EMPTY, run).tables);
  }
}
