/** The exact-dedup protocol: many workers, each running one prefilter transaction at a
    time, interleaved statement by statement, any of which may crash and be retried. */
module MessagePrefilter {
  import opened Sequences

  // --- entities --------------------------------------------------------------

  datatype Raw = Raw(source: nat, externalId: nat, content: string, serviceEvent: bool, replyTo: Option<nat>)

  /** Text normalization and the blank test, kept abstract. */
  datatype Env = Env(normalize: string -> string, blank: string -> bool)

  datatype Config = Config(analyzerVersion: string, schemaVersion: string, window: nat)

  datatype Relation = Canonical | ExactDuplicate

  datatype Route = Route(job: nat, canonicalRow: Option<nat>, content: string, input: string, relation: Relation)

  datatype Reason = ServiceEvent | EmptyContent

  datatype Decision =
    | Rejected(reason: Reason)
    | Passed(route: Route, config: Config)

  datatype Row = Row(raw: nat, parent: Option<nat>, decision: Decision, createdAt: nat) {
    function Verdict(): Option<Reason> { if decision.Passed? then None else Some(decision.reason) }

    predicate IsCanonical() { decision.Passed? && decision.route.relation.Canonical? }

    function Key(): CompatibilityKey
      requires decision.Passed?
    {
      CompatibilityKey(decision.config.analyzerVersion, decision.config.schemaVersion,
                       decision.route.content, decision.route.input)
    }
  }

  /** The lock key; hashes are injective, so each stands for the text it digests. */
  datatype CompatibilityKey = CompatibilityKey(analyzerVersion: string, schemaVersion: string, content: string,
                                               input: string)

  function ParentText(parent: Option<string>): string {
    if parent.None? then "<none>" else parent.value
  }

  function AnalysisInput(current: string, parent: Option<string>): string {
    "current\0" + current + "\0parent\0" + ParentText(parent)
  }

  /** With the current text equal, equal inputs have equal parent texts. */
  lemma InputDeterminesParent(current: string, p: Option<string>, q: Option<string>)
    requires AnalysisInput(current, p) == AnalysisInput(current, q)
    ensures ParentText(p) == ParentText(q)
  {
    var prefix := "current\0" + current + "\0parent\0";
    assert AnalysisInput(current, p)[|prefix|..] == ParentText(p);
    assert AnalysisInput(current, q)[|prefix|..] == ParentText(q);
  }

  /** `CheapMessagePrefilter.evaluate`: why a message is rejected, if it is. */
  function Evaluate(env: Env, raw: Raw): Option<Reason> {
    if raw.serviceEvent then Some(ServiceEvent)
    else if env.blank(raw.content) then Some(EmptyContent)
    else None
  }

  // --- state -----------------------------------------------------------------

  /** A transaction: its settings, its message, and `now()`, the time it began. */
  datatype Tx = Tx(config: Config, raw: nat, now: nat)

  datatype Phase =
    | Idle
    | Opened(tx: Tx)
    | Rejecting(tx: Tx, reason: Reason)
    | Unrecorded(tx: Tx)
    | Keyed(tx: Tx, parent: Option<nat>)
    | Locked(tx: Tx, parent: Option<nat>)
    | Rechecked(tx: Tx, parent: Option<nat>)
    | NeedsJob(tx: Tx, parent: Option<nat>)
    | Routed(tx: Tx, parent: Option<nat>, route: Route, newJob: Option<nat>)
    | Recorded(tx: Tx, parent: Option<nat>, locked: bool, newJob: Option<nat>, newRow: Option<nat>, row: Row)
  {
    predicate HoldsLock() {
      Locked? || Rechecked? || NeedsJob? || Routed? || (Recorded? && locked)
    }

    predicate WritesJob() { (Routed? || Recorded?) && newJob.Some? }

    predicate WritesRow() { Recorded? && newRow.Some? }
  }

  /** Committed tables (a job is filed under the message whose key it was enqueued with) and the clock. */
  datatype Db = Db(raws: map<nat, Raw>, rows: map<nat, Row>, jobs: map<nat, nat>, clock: nat)

  /** The database and what each worker's open transaction has done so far. */
  datatype State = State(db: Db, workers: map<nat, Phase>)

  const INITIAL: State := State(Db(map[], map[], map[], 0), map[])

  function PhaseOf(s: State, w: nat): Phase {
    if w in s.workers then s.workers[w] else Idle
  }

  function TextOf(env: Env, d: Db, id: nat): string
    requires id in d.raws
  {
    env.normalize(d.raws[id].content)
  }

  function ParentTextOf(env: Env, d: Db, parent: Option<nat>): Option<string>
    requires parent.Some? ==> parent.value in d.raws
  {
    if parent.None? then None else Some(TextOf(env, d, parent.value))
  }

  ghost predicate Known(d: Db, raw: nat, parent: Option<nat>) {
    raw in d.raws && (parent.Some? ==> parent.value in d.raws)
  }

  function InputOf(env: Env, d: Db, raw: nat, parent: Option<nat>): string
    requires raw in d.raws && (parent.Some? ==> parent.value in d.raws)
  {
    AnalysisInput(TextOf(env, d, raw), ParentTextOf(env, d, parent))
  }

  function KeyFor(env: Env, d: Db, tx: Tx, parent: Option<nat>): CompatibilityKey
    requires Known(d, tx.raw, parent)
  {
    CompatibilityKey(tx.config.analyzerVersion, tx.config.schemaVersion, TextOf(env, d, tx.raw),
                     InputOf(env, d, tx.raw, parent))
  }

  ghost predicate HasRow(d: Db, raw: nat) {
    exists r :: r in d.rows && d.rows[r].raw == raw
  }

  ghost function RowFor(d: Db, raw: nat): nat
    requires HasRow(d, raw)
  {
    var r :| r in d.rows && d.rows[r].raw == raw;
    r
  }

  /** What `find_recent_canonical` selects. */
  predicate RecentCanonical(row: Row, key: CompatibilityKey, tx: Tx) {
    row.IsCanonical() && row.Key() == key && row.createdAt + tx.config.window >= tx.now
  }

  ghost predicate NoRecentCanonical(d: Db, key: CompatibilityKey, tx: Tx) {
    forall r :: r in d.rows ==> !RecentCanonical(d.rows[r], key, tx)
  }

  // --- steps -----------------------------------------------------------------

  datatype Step =
    | Tick
    | Ingest(id: nat, raw: Raw)
    | Open(w: nat, config: Config, rawId: nat)
    | CheckExisting(w: nat)
    | ReadParent(w: nat, parent: Option<nat>)
    | AcquireLock(w: nat)
    | Recheck(w: nat)
    | FindCanonical(w: nat, found: Option<nat>)
    | Enqueue(w: nat, jobId: nat)
    | Record(w: nat, rowId: nat)
    | Commit(w: nat)
    | Abort(w: nat)

  /** The message the reply points at, when it has already been ingested. */
  ghost predicate IsDirectParent(d: Db, raw: Raw, parent: Option<nat>) {
    var matches := (id: nat) =>
      id in d.raws && raw.replyTo == Some(d.raws[id].externalId) && d.raws[id].source == raw.source;
    if parent.Some? then matches(parent.value) else forall id :: id in d.raws ==> !matches(id)
  }

  /** The values a row would be written with. */
  function RowOf(p: Phase): Row
    requires p.Routed? || p.Rejecting?
  {
    if p.Rejecting? then Row(p.tx.raw, None, Rejected(p.reason), p.tx.now)
    else Row(p.tx.raw, p.parent, Passed(p.route, p.tx.config), p.tx.now)
  }

  /** Same values; the creation time is the database's. */
  predicate Compatible(a: Row, b: Row) { a.(createdAt := 0) == b.(createdAt := 0) }

  ghost predicate Enabled(env: Env, s: State, step: Step) {
    match step
    case Tick => true
    case Ingest(id, raw) =>
      id !in s.db.raws &&
      forall i :: i in s.db.raws ==> s.db.raws[i].source != raw.source || s.db.raws[i].externalId != raw.externalId
    case Open(w, config, rawId) => PhaseOf(s, w).Idle? && config.window > 0
    case CheckExisting(w) => PhaseOf(s, w).Opened?
    case ReadParent(w, parent) =>
      var p := PhaseOf(s, w);
      p.Unrecorded? && p.tx.raw in s.db.raws && IsDirectParent(s.db, s.db.raws[p.tx.raw], parent)
    case AcquireLock(w) =>
      var p := PhaseOf(s, w);
      p.Keyed? && Known(s.db, p.tx.raw, p.parent) &&
      forall v :: v in s.workers && v != w && s.workers[v].HoldsLock() &&
                  Known(s.db, s.workers[v].tx.raw, s.workers[v].parent)
                  ==> KeyFor(env, s.db, s.workers[v].tx, s.workers[v].parent) != KeyFor(env, s.db, p.tx, p.parent)
    case Recheck(w) => PhaseOf(s, w).Locked?
    case FindCanonical(w, found) =>
      var p := PhaseOf(s, w);
      p.Rechecked? && Known(s.db, p.tx.raw, p.parent) &&
      var key := KeyFor(env, s.db, p.tx, p.parent);
      if found.None? then NoRecentCanonical(s.db, key, p.tx)
      else found.value in s.db.rows && RecentCanonical(s.db.rows[found.value], key, p.tx) &&
           forall r :: r in s.db.rows && RecentCanonical(s.db.rows[r], key, p.tx) ==>
             s.db.rows[r].createdAt <= s.db.rows[found.value].createdAt
    case Enqueue(w, jobId) =>
      var p := PhaseOf(s, w);
      p.NeedsJob? && Known(s.db, p.tx.raw, p.parent) &&
      if exists j :: j in s.db.jobs && s.db.jobs[j] == p.tx.raw then jobId in s.db.jobs && s.db.jobs[jobId] == p.tx.raw
      else jobId !in s.db.jobs &&
           forall v :: v in s.workers && v != w && s.workers[v].WritesJob()
                       ==> s.workers[v].tx.raw != p.tx.raw && s.workers[v].newJob.value != jobId
    case Record(w, rowId) =>
      var p := PhaseOf(s, w);
      (p.Routed? || p.Rejecting?) &&
      (HasRow(s.db, p.tx.raw) ||
       (rowId !in s.db.rows &&
        forall v :: v in s.workers && v != w && s.workers[v].WritesRow()
                    ==> s.workers[v].tx.raw != p.tx.raw && s.workers[v].newRow.value != rowId))
    case Commit(w) => PhaseOf(s, w).Recorded?
    case Abort(w) => !PhaseOf(s, w).Idle?
  }

  /** What a commit makes visible. */
  function Committed(d: Db, p: Phase): Db
    requires p.Recorded?
  {
    d.(rows := if p.newRow.Some? then d.rows[p.newRow.value := p.row] else d.rows,
       jobs := if p.newJob.Some? then d.jobs[p.newJob.value := p.tx.raw] else d.jobs)
  }

  function At(s: State, w: nat, p: Phase): State { s.(workers := s.workers[w := p]) }

  ghost function Next(env: Env, s: State, step: Step): State
    requires Enabled(env, s, step)
  {
    match step
    case Tick => s.(db := s.db.(clock := s.db.clock + 1))
    case Ingest(id, raw) => s.(db := s.db.(raws := s.db.raws[id := raw]))
    case Open(w, config, rawId) => At(s, w, Opened(Tx(config, rawId, s.db.clock)))
    case CheckExisting(w) =>
      var tx := PhaseOf(s, w).tx;
      At(s, w,
         if HasRow(s.db, tx.raw) || tx.raw !in s.db.raws then Idle
         else
           var verdict := Evaluate(env, s.db.raws[tx.raw]);
           if verdict.Some? then Rejecting(tx, verdict.value) else Unrecorded(tx))
    case ReadParent(w, parent) => At(s, w, Keyed(PhaseOf(s, w).tx, parent))
    case AcquireLock(w) => At(s, w, Locked(PhaseOf(s, w).tx, PhaseOf(s, w).parent))
    case Recheck(w) =>
      var p := PhaseOf(s, w);
      At(s, w,
         if !HasRow(s.db, p.tx.raw) then Rechecked(p.tx, p.parent)
         else
           var existing := s.db.rows[RowFor(s.db, p.tx.raw)].decision;
           if existing.Passed? then Routed(p.tx, p.parent, existing.route, None) else Idle)
    case FindCanonical(w, found) =>
      var p := PhaseOf(s, w);
      At(s, w,
         if found.None? then NeedsJob(p.tx, p.parent)
         else
           var key := KeyFor(env, s.db, p.tx, p.parent);
           Routed(p.tx, p.parent,
                  Route(s.db.rows[found.value].decision.route.job, found, key.content, key.input, ExactDuplicate),
                  None))
    case Enqueue(w, jobId) =>
      var p := PhaseOf(s, w);
      var key := KeyFor(env, s.db, p.tx, p.parent);
      At(s, w, Routed(p.tx, p.parent, Route(jobId, None, key.content, key.input, Canonical),
                      if jobId in s.db.jobs then None else Some(jobId)))
    case Record(w, rowId) =>
      var p := PhaseOf(s, w);
      var newJob := if p.Routed? then p.newJob else None;
      var parent := if p.Routed? then p.parent else None;
      At(s, w,
         if HasRow(s.db, p.tx.raw) then
           var existing := s.db.rows[RowFor(s.db, p.tx.raw)];
           if Compatible(existing, RowOf(p)) then Recorded(p.tx, parent, p.Routed?, newJob, None, existing) else Idle
         else if parent == Some(p.tx.raw) then Idle
         else Recorded(p.tx, parent, p.Routed?, newJob, Some(rowId), RowOf(p)))
    case Commit(w) =>
      At(s.(db := Committed(s.db, PhaseOf(s, w))), w, Idle)
    case Abort(w) => At(s, w, Idle)
  }

  ghost predicate ValidRun(env: Env, s: State, run: seq<Step>)
    decreases |run|
  {
    run == [] || (Enabled(env, s, run[0]) && ValidRun(env, Next(env, s, run[0]), run[1..]))
  }

  ghost function Final(env: Env, s: State, run: seq<Step>): State
    requires ValidRun(env, s, run)
    decreases |run|
  {
    if run == [] then s else Final(env, Next(env, s, run[0]), run[1..])
  }

  // --- the inductive invariant -----------------------------------------------

  /** The row a duplicate points at: canonical, same key, same job, and recent when it was found. */
  ghost predicate PointsAtCanonical(d: Db, row: Row)
    requires row.decision.Passed?
  {
    var route := row.decision.route;
    route.canonicalRow.Some? && route.canonicalRow.value in d.rows &&
    var target := d.rows[route.canonicalRow.value];
    target.IsCanonical() && target.Key() == row.Key() && target.decision.route.job == route.job
    && target.createdAt + row.decision.config.window >= row.createdAt
  }

  ghost predicate RowOk(env: Env, d: Db, row: Row) {
    && row.raw in d.raws && row.createdAt <= d.clock && row.Verdict() == Evaluate(env, d.raws[row.raw])
    && (row.decision.Passed? ==>
          var route := row.decision.route;
          && (row.parent.Some? ==> row.parent.value in d.raws)
          && route.content == TextOf(env, d, row.raw) && route.input == InputOf(env, d, row.raw, row.parent)
          && route.job in d.jobs
          && (if route.relation.Canonical? then route.canonicalRow.None? && d.jobs[route.job] == row.raw
              else PointsAtCanonical(d, row)))
  }

  /** Two canonical rows for one compatibility key. */
  predicate SameKey(a: Row, b: Row) {
    a.IsCanonical() && b.IsCanonical() && a.Key() == b.Key()
  }

  /** The later of two canonical rows with one key was created more than its window after the earlier. */
  ghost predicate Apart(a: Row, b: Row)
    requires a.IsCanonical() && b.IsCanonical()
  {
    a.createdAt + b.decision.config.window < b.createdAt || b.createdAt + a.decision.config.window < a.createdAt
  }

  ghost predicate StoreOk(env: Env, d: Db) {
    && (forall r :: r in d.rows ==> RowOk(env, d, d.rows[r]))
    && (forall r, q :: r in d.rows && q in d.rows && d.rows[r].raw == d.rows[q].raw ==> r == q)
    && (forall r, q :: r in d.rows && q in d.rows && r != q && SameKey(d.rows[r], d.rows[q]) ==>
          Apart(d.rows[r], d.rows[q]))
    && (forall j :: j in d.jobs ==> HasCanonicalRow(d, j))
  }

  ghost predicate HasCanonicalRow(d: Db, j: nat)
    requires j in d.jobs
  {
    exists r :: r in d.rows && d.rows[r].raw == d.jobs[j] &&
                d.rows[r].IsCanonical() && d.rows[r].decision.route.job == j
  }

  ghost predicate TxOk(env: Env, d: Db, tx: Tx, verdict: Option<Reason>) {
    tx.raw in d.raws && tx.now <= d.clock && tx.config.window > 0 && Evaluate(env, d.raws[tx.raw]) == verdict
  }

  /** A route that may be written: its texts are the message's and its job is justified. */
  ghost predicate RouteOk(env: Env, d: Db, tx: Tx, parent: Option<nat>, route: Route, newJob: Option<nat>)
    requires Known(d, tx.raw, parent)
  {
    && route.content == TextOf(env, d, tx.raw) && route.input == InputOf(env, d, tx.raw, parent)
    && if route.relation.Canonical? then
         route.canonicalRow.None? && newJob == Some(route.job)
         && NoRecentCanonical(d, KeyFor(env, d, tx, parent), tx)
       else
         newJob.None? && route.job in d.jobs
         && PointsAtCanonical(d, Row(tx.raw, parent, Passed(route, tx.config), tx.now))
  }

  ghost predicate NewJobOk(d: Db, tx: Tx, newJob: Option<nat>) {
    newJob.Some? ==> newJob.value !in d.jobs && forall j :: j in d.jobs ==> d.jobs[j] != tx.raw
  }

  ghost predicate WorkerOk(env: Env, d: Db, p: Phase) {
    match p
    case Idle => true
    case Opened(tx) => tx.now <= d.clock && tx.config.window > 0
    case Rejecting(tx, reason) => TxOk(env, d, tx, Some(reason))
    case Unrecorded(tx) => TxOk(env, d, tx, None)
    case Keyed(tx, parent) => TxOk(env, d, tx, None) && Known(d, tx.raw, parent)
    case Locked(tx, parent) => TxOk(env, d, tx, None) && Known(d, tx.raw, parent)
    case Rechecked(tx, parent) => TxOk(env, d, tx, None) && Known(d, tx.raw, parent)
    case NeedsJob(tx, parent) =>
      TxOk(env, d, tx, None) && Known(d, tx.raw, parent) && NoRecentCanonical(d, KeyFor(env, d, tx, parent), tx)
    case Routed(tx, parent, route, newJob) =>
      && TxOk(env, d, tx, None) && Known(d, tx.raw, parent) && NewJobOk(d, tx, newJob)
      && ((HasRow(d, tx.raw) && newJob.None?) || RouteOk(env, d, tx, parent, route, newJob))
    case Recorded(tx, parent, locked, newJob, newRow, row) =>
      && TxOk(env, d, tx, row.Verdict()) && Known(d, tx.raw, parent) && NewJobOk(d, tx, newJob)
      && (newRow.None? ==> newJob.None? && row in d.rows.Values && row.raw == tx.raw)
      && (newRow.Some? ==>
            && newRow.value !in d.rows && !HasRow(d, tx.raw)
            && row.raw == tx.raw && row.createdAt == tx.now
            && (row.decision.Rejected? ==> newJob.None?)
            && (row.decision.Passed? ==>
                  && locked && row.parent == parent && row.decision.config == tx.config
                  && RouteOk(env, d, tx, parent, row.decision.route, newJob)))
  }

  /** Two open transactions never hold one lock, nor write for one message. */
  ghost predicate PairOk(env: Env, d: Db, p: Phase, q: Phase)
    requires WorkerOk(env, d, p) && WorkerOk(env, d, q)
  {
    && (p.HoldsLock() && q.HoldsLock() ==> KeyFor(env, d, p.tx, p.parent) != KeyFor(env, d, q.tx, q.parent))
    && (p.WritesJob() && q.WritesJob() ==> p.tx.raw != q.tx.raw && p.newJob != q.newJob)
    && (p.WritesRow() && q.WritesRow() ==> p.tx.raw != q.tx.raw && p.newRow != q.newRow)
  }

  ghost predicate Inv(env: Env, s: State) {
    && StoreOk(env, s.db)
    && (forall w :: w in s.workers ==> WorkerOk(env, s.db, s.workers[w]))
    && (forall w, v :: w in s.workers && v in s.workers && w != v ==> PairOk(env, s.db, s.workers[w], s.workers[v]))
  }

  // --- every step keeps the invariant ----------------------------------------

  /** One worker moves on while the tables stay as they are. */
  lemma MoveKeeps(env: Env, s: State, w: nat, p: Phase)
    requires Inv(env, s) && WorkerOk(env, s.db, p)
    requires forall v :: v in s.workers && v != w ==> PairOk(env, s.db, p, s.workers[v])
    ensures Inv(env, At(s, w, p))
  {
    hide StoreOk, WorkerOk;
  }

  /** Phases that hold no more than the worker already held. */
  predicate Inherits(p: Phase, q: Phase) {
    && (q.HoldsLock() ==> p.HoldsLock() && p.tx == q.tx && p.parent == q.parent)
    && (q.WritesJob() ==> p.WritesJob() && p.tx == q.tx && p.newJob == q.newJob)
    && !q.WritesRow()
  }

  lemma InheritKeeps(env: Env, s: State, w: nat, q: Phase)
    requires Inv(env, s) && Inherits(PhaseOf(s, w), q) && WorkerOk(env, s.db, q)
    ensures Inv(env, At(s, w, q))
  {
    hide StoreOk;
    MoveKeeps(env, s, w, q);
  }

  lemma StartKeeps(env: Env, s: State, step: Step)
    requires Inv(env, s) && Enabled(env, s, step)
    requires step.Open? || step.CheckExisting? || step.ReadParent? || step.Abort?
    ensures Inv(env, Next(env, s, step))
  {
    hide StoreOk;
    InheritKeeps(env, s, step.w, Next(env, s, step).workers[step.w]);
  }

  lemma LockKeeps(env: Env, s: State, step: Step)
    requires Inv(env, s) && Enabled(env, s, step) && step.AcquireLock?
    ensures Inv(env, Next(env, s, step))
  {
    hide StoreOk;
    MoveKeeps(env, s, step.w, Next(env, s, step).workers[step.w]);
  }

  /** After the lock: the route of a row recorded meanwhile, or nothing yet. */
  lemma RecheckedOk(env: Env, s: State, step: Step)
    requires Inv(env, s) && Enabled(env, s, step) && step.Recheck?
    ensures var q := Next(env, s, step).workers[step.w];
            WorkerOk(env, s.db, q) && Inherits(PhaseOf(s, step.w), q)
  {
    assert WorkerOk(env, s.db, s.workers[step.w]);
    hide StoreOk, PairOk, NoRecentCanonical, RouteOk, KeyFor;
  }

  /** A canonical row found has the searcher's key and is recent. */
  lemma FoundOk(env: Env, s: State, step: Step)
    requires Inv(env, s) && Enabled(env, s, step) && step.FindCanonical?
    ensures var q := Next(env, s, step).workers[step.w];
            WorkerOk(env, s.db, q) && Inherits(PhaseOf(s, step.w), q)
  {
    var p := s.workers[step.w];
    assert WorkerOk(env, s.db, p);
    if step.found.Some? {
      assert RowOk(env, s.db, s.db.rows[step.found.value]);
    }
    hide StoreOk, PairOk, HasRow, RowOk;
  }

  lemma RouteKeeps(env: Env, s: State, step: Step)
    requires Inv(env, s) && Enabled(env, s, step)
    requires step.Recheck? || step.FindCanonical?
    ensures Inv(env, Next(env, s, step))
  {
    var q := Next(env, s, step).workers[step.w];
    assert Next(env, s, step) == At(s, step.w, q);
    hide Inv, Enabled, Next, Inherits, WorkerOk;
    if step.Recheck? {
      RecheckedOk(env, s, step);
    } else {
      FoundOk(env, s, step);
    }
    InheritKeeps(env, s, step.w, q);
  }

  lemma EnqueueKeeps(env: Env, s: State, step: Step)
    requires Inv(env, s) && Enabled(env, s, step) && step.Enqueue?
    ensures Inv(env, Next(env, s, step))
  {
    MoveKeeps(env, s, step.w, Next(env, s, step).workers[step.w]);
  }

  /** A row already recorded is returned only if it matches, and then no job was created. */
  lemma RecordedExistingOk(env: Env, s: State, step: Step)
    requires Inv(env, s) && Enabled(env, s, step) && step.Record? && HasRow(s.db, PhaseOf(s, step.w).tx.raw)
    ensures WorkerOk(env, s.db, Next(env, s, step).workers[step.w])
  {
    var p := s.workers[step.w];
    var existing := s.db.rows[RowFor(s.db, p.tx.raw)];
    assert WorkerOk(env, s.db, p) && RowOk(env, s.db, existing) && existing in s.db.rows.Values;
    assert Next(env, s, step).workers[step.w] == if Compatible(existing, RowOf(p)) then Matched(p, existing) else Idle;
    hide Inv, Enabled, Next, RowOk, Compatible, Matched, RowFor;
    if Compatible(existing, RowOf(p)) {
      MatchedOk(env, s.db, p, existing);
    }
  }

  /** The phase of a worker whose row turned out to be recorded already. */
  function Matched(p: Phase, existing: Row): Phase
    requires p.Routed? || p.Rejecting?
  {
    Recorded(p.tx, if p.Routed? then p.parent else None, p.Routed?,
             if p.Routed? then p.newJob else None, None, existing)
  }

  lemma MatchedOk(env: Env, d: Db, p: Phase, existing: Row)
    requires WorkerOk(env, d, p) && (p.Routed? || p.Rejecting?) && existing in d.rows.Values
    requires RowOk(env, d, existing) && Compatible(existing, RowOf(p))
    ensures WorkerOk(env, d, Matched(p, existing))
  {
    MatchMadeNoJob(env, d, p, existing);
    hide PointsAtCanonical, KeyFor, NoRecentCanonical, TextOf, InputOf, Evaluate, RowOk, RouteOk, NewJobOk, Compatible;
  }

  /** A stored row's job is committed, so one that matches leaves no new job behind. */
  lemma MatchMadeNoJob(env: Env, d: Db, p: Phase, existing: Row)
    requires WorkerOk(env, d, p) && (p.Routed? || p.Rejecting?)
    requires RowOk(env, d, existing) && Compatible(existing, RowOf(p))
    ensures existing.raw == p.tx.raw && existing.Verdict() == RowOf(p).Verdict()
    ensures p.Routed? ==> p.newJob.None?
  {
    hide PointsAtCanonical, KeyFor, NoRecentCanonical, TextOf, InputOf, Evaluate;
  }

  lemma RecordedNewOk(env: Env, s: State, step: Step)
    requires Inv(env, s) && Enabled(env, s, step) && step.Record? && !HasRow(s.db, PhaseOf(s, step.w).tx.raw)
    ensures WorkerOk(env, s.db, Next(env, s, step).workers[step.w])
  {
    var p := s.workers[step.w];
    assert WorkerOk(env, s.db, p);
    hide StoreOk, PairOk, RouteOk, KeyFor, NewJobOk, Evaluate;
  }

  lemma RecordKeeps(env: Env, s: State, step: Step)
    requires Inv(env, s) && Enabled(env, s, step) && step.Record?
    ensures Inv(env, Next(env, s, step))
  {
    if HasRow(s.db, PhaseOf(s, step.w).tx.raw) {
      RecordedExistingOk(env, s, step);
    } else {
      RecordedNewOk(env, s, step);
    }
    var q := Next(env, s, step).workers[step.w];
    assert Next(env, s, step) == At(s, step.w, q);
    hide Inv, Enabled, Next, WorkerOk, PairOk;
    forall v | v in s.workers && v != step.w
      ensures PairOk(env, s.db, q, s.workers[v])
    {
      RecordPairs(env, s, step, v);
    }
    MoveKeeps(env, s, step.w, q);
  }

  lemma RecordPairs(env: Env, s: State, step: Step, v: nat)
    requires Inv(env, s) && Enabled(env, s, step) && step.Record? && v in s.workers && v != step.w
    requires WorkerOk(env, s.db, Next(env, s, step).workers[step.w])
    ensures WorkerOk(env, s.db, s.workers[v])
    ensures PairOk(env, s.db, Next(env, s, step).workers[step.w], s.workers[v])
  {
    hide StoreOk, WorkerOk, RowOf, KeyFor, Known;
    assert PairOk(env, s.db, s.workers[step.w], s.workers[v]);
  }

  /** The same rows and jobs, later, with no message lost. */
  ghost predicate Grown(d: Db, e: Db) {
    && (forall r :: r in d.raws ==> r in e.raws && e.raws[r] == d.raws[r])
    && e.rows == d.rows && e.jobs == d.jobs && d.clock <= e.clock
  }

  lemma GrownStore(env: Env, d: Db, e: Db)
    requires StoreOk(env, d) && Grown(d, e)
    ensures StoreOk(env, e)
  {
    forall r | r in e.rows
      ensures RowOk(env, e, e.rows[r])
    {
      assert RowOk(env, d, d.rows[r]);
    }
    forall j | j in e.jobs
      ensures HasCanonicalRow(e, j)
    {
      assert HasCanonicalRow(d, j);
    }
  }

  lemma GrownWorker(env: Env, d: Db, e: Db, p: Phase)
    requires WorkerOk(env, d, p) && Grown(d, e)
    ensures WorkerOk(env, e, p)
    ensures p.HoldsLock() ==> Known(d, p.tx.raw, p.parent) && Known(e, p.tx.raw, p.parent)
                              && KeyFor(env, d, p.tx, p.parent) == KeyFor(env, e, p.tx, p.parent)
  {
    assert (p.Routed? || p.Recorded?) && HasRow(d, p.tx.raw) ==> HasRow(e, p.tx.raw);
  }

  lemma GrownPair(env: Env, d: Db, e: Db, p: Phase, q: Phase)
    requires WorkerOk(env, d, p) && WorkerOk(env, d, q) && PairOk(env, d, p, q) && Grown(d, e)
    ensures WorkerOk(env, e, p) && WorkerOk(env, e, q) && PairOk(env, e, p, q)
  {
    GrownWorker(env, d, e, p);
    GrownWorker(env, d, e, q);
    hide WorkerOk;
  }

  /** Time passes or a message arrives. */
  lemma GrowthKeeps(env: Env, s: State, step: Step)
    requires Inv(env, s) && Enabled(env, s, step)
    requires step.Tick? || step.Ingest?
    ensures Inv(env, Next(env, s, step))
  {
    var t := Next(env, s, step);
    assert Grown(s.db, t.db);
    hide Enabled, Next, StoreOk, WorkerOk, PairOk, Grown;
    GrownStore(env, s.db, t.db);
    forall w | w in t.workers
      ensures WorkerOk(env, t.db, t.workers[w])
    {
      GrownWorker(env, s.db, t.db, s.workers[w]);
    }
    forall w, v | w in t.workers && v in t.workers && w != v
      ensures PairOk(env, t.db, t.workers[w], t.workers[v])
    {
      GrownPair(env, s.db, t.db, s.workers[w], s.workers[v]);
    }
  }

  // --- committing ------------------------------------------------------------

  lemma CommittedExtends(env: Env, d: Db, p: Phase)
    requires WorkerOk(env, d, p) && p.Recorded?
    ensures forall r :: r in d.rows ==> r in Committed(d, p).rows && Committed(d, p).rows[r] == d.rows[r]
    ensures forall j :: j in d.jobs ==> j in Committed(d, p).jobs && Committed(d, p).jobs[j] == d.jobs[j]
    ensures p.newJob.Some? ==> p.newRow.Some? && p.row.IsCanonical() && p.row.raw == p.tx.raw &&
                               p.row.decision.route.job == p.newJob.value
    ensures p.newRow.Some? && p.row.decision.Passed? ==> p.row.Key() == KeyFor(env, d, p.tx, p.parent)
  {
  }

  lemma CommitNewRow(env: Env, d: Db, p: Phase)
    requires StoreOk(env, d) && WorkerOk(env, d, p) && p.WritesRow()
    ensures RowOk(env, Committed(d, p), p.row)
    ensures forall q :: q in d.rows ==> d.rows[q].raw != p.row.raw
    ensures forall q :: q in d.rows && SameKey(p.row, d.rows[q]) ==> Apart(p.row, d.rows[q])
  {
    var e := Committed(d, p);
    CommittedExtends(env, d, p);
    forall q | q in d.rows && SameKey(p.row, d.rows[q])
      ensures Apart(p.row, d.rows[q])
    {
      assert RowOk(env, d, d.rows[q]);
      assert !RecentCanonical(d.rows[q], KeyFor(env, d, p.tx, p.parent), p.tx);
    }
  }

  lemma CommitOldRow(env: Env, d: Db, p: Phase, r: nat)
    requires StoreOk(env, d) && WorkerOk(env, d, p) && p.Recorded? && r in d.rows
    ensures RowOk(env, Committed(d, p), d.rows[r])
  {
    CommittedExtends(env, d, p);
    assert RowOk(env, d, d.rows[r]);
  }

  lemma CommitJobs(env: Env, d: Db, p: Phase, j: nat)
    requires StoreOk(env, d) && WorkerOk(env, d, p) && p.Recorded? && j in Committed(d, p).jobs
    ensures HasCanonicalRow(Committed(d, p), j)
  {
    var e := Committed(d, p);
    CommittedExtends(env, d, p);
    if j in d.jobs {
      assert HasCanonicalRow(d, j);
    } else {
      assert e.rows[p.newRow.value] == p.row;
    }
  }

  lemma CommitStore(env: Env, d: Db, p: Phase)
    requires StoreOk(env, d) && WorkerOk(env, d, p) && p.Recorded?
    ensures StoreOk(env, Committed(d, p))
  {
    var e := Committed(d, p);
    forall r | r in e.rows
      ensures RowOk(env, e, e.rows[r])
    {
      CommitRows(env, d, p, r);
    }
    forall j | j in e.jobs
      ensures HasCanonicalRow(e, j)
    {
      CommitJobs(env, d, p, j);
    }
    forall r, q | r in e.rows && q in e.rows && r != q
      ensures e.rows[r].raw != e.rows[q].raw && (SameKey(e.rows[r], e.rows[q]) ==> Apart(e.rows[r], e.rows[q]))
    {
      CommitPairs(env, d, p, r, q);
    }
    hide WorkerOk, RowOk, SameKey, Apart, HasCanonicalRow, Committed;
  }

  lemma CommitRows(env: Env, d: Db, p: Phase, r: nat)
    requires StoreOk(env, d) && WorkerOk(env, d, p) && p.Recorded? && r in Committed(d, p).rows
    ensures RowOk(env, Committed(d, p), Committed(d, p).rows[r])
  {
    CommittedExtends(env, d, p);
    hide StoreOk, WorkerOk, RowOk;
    if r in d.rows {
      CommitOldRow(env, d, p, r);
    } else {
      CommitNewRow(env, d, p);
    }
  }

  /** Two rows are for different messages, and apart when they are canonical for one key. */
  lemma CommitPairs(env: Env, d: Db, p: Phase, r: nat, q: nat)
    requires StoreOk(env, d) && WorkerOk(env, d, p) && p.Recorded?
    requires r in Committed(d, p).rows && q in Committed(d, p).rows && r != q
    ensures var e := Committed(d, p);
            e.rows[r].raw != e.rows[q].raw && (SameKey(e.rows[r], e.rows[q]) ==> Apart(e.rows[r], e.rows[q]))
  {
    CommittedExtends(env, d, p);
    if p.WritesRow() {
      CommitNewRow(env, d, p);
    }
    hide WorkerOk, RowOk, SameKey, Apart, HasCanonicalRow;
    SameKeySymmetric();
  }

  lemma SameKeySymmetric()
    ensures forall a: Row, b: Row :: SameKey(a, b) <==> SameKey(b, a)
    ensures forall a: Row, b: Row :: SameKey(a, b) ==> (Apart(a, b) <==> Apart(b, a))
  {
  }

  /** The lock kept out any other canonical row with q's key. */
  lemma CommitKeepsSearch(env: Env, d: Db, p: Phase, q: Phase)
    requires WorkerOk(env, d, p) && WorkerOk(env, d, q) && p.Recorded? && q.HoldsLock() && PairOk(env, d, p, q)
    requires NoRecentCanonical(d, KeyFor(env, d, q.tx, q.parent), q.tx)
    ensures Known(Committed(d, p), q.tx.raw, q.parent)
    ensures NoRecentCanonical(Committed(d, p), KeyFor(env, Committed(d, p), q.tx, q.parent), q.tx)
  {
    CommittedExtends(env, d, p);
  }

  lemma CommitKeepsNewJob(env: Env, d: Db, p: Phase, q: Phase)
    requires WorkerOk(env, d, p) && WorkerOk(env, d, q) && p.Recorded? && (q.Routed? || q.Recorded?)
             && PairOk(env, d, p, q)
    ensures NewJobOk(Committed(d, p), q.tx, q.newJob)
  {
  }

  lemma CommitKeepsRoute(env: Env, d: Db, p: Phase, q: Phase, route: Route, newJob: Option<nat>)
    requires WorkerOk(env, d, p) && WorkerOk(env, d, q) && p.Recorded? && q.HoldsLock() && PairOk(env, d, p, q)
    requires RouteOk(env, d, q.tx, q.parent, route, newJob)
    ensures Known(Committed(d, p), q.tx.raw, q.parent)
    ensures RouteOk(env, Committed(d, p), q.tx, q.parent, route, newJob)
  {
    CommittedExtends(env, d, p);
    if route.relation.Canonical? {
      CommitKeepsSearch(env, d, p, q);
    }
  }

  lemma CommitKeepsHasRow(env: Env, d: Db, p: Phase, raw: nat)
    requires WorkerOk(env, d, p) && p.Recorded?
    ensures HasRow(d, raw) ==> HasRow(Committed(d, p), raw)
    ensures HasRow(Committed(d, p), raw) && !HasRow(d, raw) ==> p.WritesRow() && raw == p.tx.raw
    ensures forall row :: row in d.rows.Values ==> row in Committed(d, p).rows.Values
  {
    CommittedExtends(env, d, p);
    var e := Committed(d, p);
    if r :| r in d.rows && d.rows[r].raw == raw {
      assert e.rows[r].raw == raw;
    }
    forall row | row in d.rows.Values
      ensures row in e.rows.Values
    {
      var r :| r in d.rows && d.rows[r] == row;
      assert e.rows[r] == row;
    }
  }

  /** Whoever is still running keeps what it relied on: its lock shut out rows with its key. */
  lemma CommitOther(env: Env, d: Db, p: Phase, q: Phase)
    requires StoreOk(env, d) && WorkerOk(env, d, p) && WorkerOk(env, d, q) && p.Recorded? && PairOk(env, d, p, q)
    ensures WorkerOk(env, Committed(d, p), q)
  {
    var e := Committed(d, p);
    hide StoreOk;
    if q.NeedsJob? {
      CommitKeepsSearch(env, d, p, q);
    } else if q.Routed? {
      hide RouteOk, NewJobOk, HasRow;
      CommitKeepsNewJob(env, d, p, q);
      CommitKeepsHasRow(env, d, p, q.tx.raw);
      if RouteOk(env, d, q.tx, q.parent, q.route, q.newJob) {
        CommitKeepsRoute(env, d, p, q, q.route, q.newJob);
      }
    } else if q.Recorded? {
      hide RouteOk, NewJobOk, HasRow;
      CommitKeepsNewJob(env, d, p, q);
      CommitKeepsHasRow(env, d, p, q.tx.raw);
      if q.WritesRow() && q.row.decision.Passed? {
        CommitKeepsRoute(env, d, p, q, q.row.decision.route, q.newJob);
      }
    }
  }

  lemma CommitPair(env: Env, d: Db, p: Phase, q: Phase, r: Phase)
    requires StoreOk(env, d) && p.Recorded?
    requires WorkerOk(env, d, p) && WorkerOk(env, d, q) && WorkerOk(env, d, r)
    requires PairOk(env, d, p, q) && PairOk(env, d, p, r) && PairOk(env, d, q, r)
    ensures WorkerOk(env, Committed(d, p), q) && WorkerOk(env, Committed(d, p), r) && PairOk(env, Committed(d, p), q, r)
  {
    CommitOther(env, d, p, q);
    CommitOther(env, d, p, r);
    hide StoreOk;
  }

  lemma CommitKeeps(env: Env, s: State, step: Step)
    requires Inv(env, s) && Enabled(env, s, step) && step.Commit?
    ensures Inv(env, Next(env, s, step))
  {
    var p := s.workers[step.w];
    var t := Next(env, s, step);
    assert p.Recorded? && t == At(State(Committed(s.db, p), s.workers), step.w, Idle);
    assert WorkerOk(env, t.db, Idle);
    assert forall q :: WorkerOk(env, t.db, q) ==> PairOk(env, t.db, Idle, q) && PairOk(env, t.db, q, Idle);
    hide Enabled, Next, StoreOk, WorkerOk, PairOk, Committed;
    CommitStore(env, s.db, p);
    forall v | v in t.workers
      ensures WorkerOk(env, t.db, t.workers[v])
    {
      if v != step.w {
        CommitOther(env, s.db, p, s.workers[v]);
      }
    }
    forall v, u | v in t.workers && u in t.workers && v != u
      ensures PairOk(env, t.db, t.workers[v], t.workers[u])
    {
      if v != step.w && u != step.w {
        CommitPair(env, s.db, p, s.workers[v], s.workers[u]);
      }
    }
  }

  lemma StepKeeps(env: Env, s: State, step: Step)
    requires Inv(env, s) && Enabled(env, s, step)
    ensures Inv(env, Next(env, s, step))
  {
    hide Inv, Enabled, Next;
    match step
    case Tick => GrowthKeeps(env, s, step);
    case Ingest(_, _) => GrowthKeeps(env, s, step);
    case Open(_, _, _) => StartKeeps(env, s, step);
    case CheckExisting(_) => StartKeeps(env, s, step);
    case ReadParent(_, _) => StartKeeps(env, s, step);
    case AcquireLock(_) => LockKeeps(env, s, step);
    case Recheck(_) => RouteKeeps(env, s, step);
    case FindCanonical(_, _) => RouteKeeps(env, s, step);
    case Enqueue(_, _) => EnqueueKeeps(env, s, step);
    case Record(_, _) => RecordKeeps(env, s, step);
    case Commit(_) => CommitKeeps(env, s, step);
    case Abort(_) => StartKeeps(env, s, step);
  }

  lemma {:induction false} RunKeeps(env: Env, s: State, run: seq<Step>)
    requires Inv(env, s) && ValidRun(env, s, run)
    ensures Inv(env, Final(env, s, run))
    decreases |run|
  {
    if run != [] {
      StepKeeps(env, s, run[0]);
      RunKeeps(env, Next(env, s, run[0]), run[1..]);
    }
  }

  // --- what every reachable database satisfies -------------------------------

  ghost predicate OneRowPerMessage(d: Db) {
    forall r, q :: r in d.rows && q in d.rows && d.rows[r].raw == d.rows[q].raw ==> r == q
  }

  /** A message is rejected for exactly the prefilter's own reason. */
  ghost predicate VerdictsAreRight(env: Env, d: Db) {
    forall r :: r in d.rows ==> d.rows[r].raw in d.raws && d.rows[r].Verdict() == Evaluate(env, d.raws[d.rows[r].raw])
  }

  ghost predicate PassedRowsHaveJobs(d: Db) {
    forall r :: r in d.rows && d.rows[r].decision.Passed? ==> d.rows[r].decision.route.job in d.jobs
  }

  ghost predicate DuplicatesPointAtCanonical(d: Db) {
    forall r :: r in d.rows && d.rows[r].decision.Passed? && !d.rows[r].IsCanonical() ==>
      PointsAtCanonical(d, d.rows[r])
  }

  ghost predicate CanonicalRowsApart(d: Db) {
    forall r, q :: r in d.rows && q in d.rows && r != q && SameKey(d.rows[r], d.rows[q]) ==> Apart(d.rows[r], d.rows[q])
  }

  predicate OnOneJob(a: Row, b: Row) {
    a.decision.Passed? && b.decision.Passed? && a.decision.route.job == b.decision.route.job
  }

  /** The stored messages behind two rows read alike once normalized, a missing parent reading `<none>`. */
  ghost predicate SameInput(env: Env, d: Db, a: Row, b: Row) {
    && Known(d, a.raw, a.parent) && Known(d, b.raw, b.parent)
    && TextOf(env, d, a.raw) == TextOf(env, d, b.raw)
    && ParentText(ParentTextOf(env, d, a.parent)) == ParentText(ParentTextOf(env, d, b.parent))
  }

  ghost predicate JobsHaveOneInput(env: Env, d: Db) {
    forall r, q :: r in d.rows && q in d.rows && OnOneJob(d.rows[r], d.rows[q]) ==>
      SameInput(env, d, d.rows[r], d.rows[q])
  }

  /** The canonical row of a passed row's job has that row's key. */
  lemma CanonicalOfJob(env: Env, d: Db, r: nat) returns (c: nat)
    requires StoreOk(env, d) && r in d.rows && d.rows[r].decision.Passed?
    ensures c in d.rows && d.rows[c].IsCanonical() && d.rows[c].Key() == d.rows[r].Key()
    ensures OnOneJob(d.rows[c], d.rows[r]) && d.rows[r].decision.route.job in d.jobs
    ensures d.rows[c].raw == d.jobs[d.rows[r].decision.route.job]
  {
    assert RowOk(env, d, d.rows[r]);
    if d.rows[r].IsCanonical() {
      c := r;
    } else {
      c := d.rows[r].decision.route.canonicalRow.value;
      assert RowOk(env, d, d.rows[c]);
    }
  }

  lemma SharedJobSharesInput(env: Env, d: Db, r: nat, q: nat)
    requires StoreOk(env, d) && r in d.rows && q in d.rows && OnOneJob(d.rows[r], d.rows[q])
    ensures SameInput(env, d, d.rows[r], d.rows[q])
  {
    var c := CanonicalOfJob(env, d, r);
    var e := CanonicalOfJob(env, d, q);
    assert c == e;
    var a, b := d.rows[r], d.rows[q];
    assert a.Key() == b.Key();
    assert RowOk(env, d, a) && RowOk(env, d, b);
    InputDeterminesParent(TextOf(env, d, a.raw), ParentTextOf(env, d, a.parent), ParentTextOf(env, d, b.parent));
  }

  /** Whatever the interleaving, crashes and retries, every committed database is deduplicated. */
  lemma DedupSafety(env: Env, run: seq<Step>)
    requires ValidRun(env, INITIAL, run)
    ensures OneRowPerMessage(Final(env, INITIAL, run).db)
    ensures VerdictsAreRight(env, Final(env, INITIAL, run).db)
    ensures PassedRowsHaveJobs(Final(env, INITIAL, run).db)
    ensures DuplicatesPointAtCanonical(Final(env, INITIAL, run).db)
    ensures CanonicalRowsApart(Final(env, INITIAL, run).db)
    ensures JobsHaveOneInput(env, Final(env, INITIAL, run).db)
  {
    RunKeeps(env, INITIAL, run);
    var d := Final(env, INITIAL, run).db;
    JobsOfRows(env, d);
    forall r | r in d.rows && d.rows[r].decision.Passed?
      ensures !d.rows[r].IsCanonical() ==> PointsAtCanonical(d, d.rows[r])
    {
      assert RowOk(env, d, d.rows[r]);
    }
    forall r | r in d.rows
      ensures d.rows[r].raw in d.raws && d.rows[r].Verdict() == Evaluate(env, d.raws[d.rows[r].raw])
    {
      assert RowOk(env, d, d.rows[r]);
    }
    forall r, q | r in d.rows && q in d.rows && OnOneJob(d.rows[r], d.rows[q])
      ensures SameInput(env, d, d.rows[r], d.rows[q])
    {
      SharedJobSharesInput(env, d, r, q);
    }
  }

  /** Nothing committed is ever rewritten. */
  lemma {:induction false} CommittedIsPermanent(env: Env, s: State, run: seq<Step>)
    requires Inv(env, s) && ValidRun(env, s, run)
    ensures forall r :: r in s.db.rows ==>
              r in Final(env, s, run).db.rows && Final(env, s, run).db.rows[r] == s.db.rows[r]
    ensures forall j :: j in s.db.jobs ==>
              j in Final(env, s, run).db.jobs && Final(env, s, run).db.jobs[j] == s.db.jobs[j]
    decreases |run|
  {
    if run != [] {
      StepKeeps(env, s, run[0]);
      if run[0].Commit? {
        CommittedExtends(env, s.db, s.workers[run[0].w]);
      }
      CommittedIsPermanent(env, Next(env, s, run[0]), run[1..]);
    }
  }

  /** The row a finished transaction hands back is in the table, and is the message's only row. */
  lemma ReturnedRowIsStored(env: Env, run: seq<Step>, w: nat)
    requires ValidRun(env, INITIAL, run)
    requires Enabled(env, Final(env, INITIAL, run), Commit(w))
    ensures var before := Final(env, INITIAL, run);
            var row := PhaseOf(before, w).row;
            var after := Next(env, before, Commit(w)).db;
            && row in after.rows.Values && row.raw == PhaseOf(before, w).tx.raw
            && forall r :: r in after.rows && after.rows[r].raw == row.raw ==> after.rows[r] == row
  {
    RunKeeps(env, INITIAL, run);
    var before := Final(env, INITIAL, run);
    StepKeeps(env, before, Commit(w));
    var p := PhaseOf(before, w);
    var after := Next(env, before, Commit(w)).db;
    CommitKeepsHasRow(env, before.db, p, p.tx.raw);
    if p.newRow.Some? {
      assert after.rows[p.newRow.value] == p.row;
    }
  }

  // --- loading an analysis job's input ---------------------------------------

  datatype LoadError = NoPassedInput | AmbiguousInput | CurrentMissing | ParentMissing

  datatype AnalyzerInput = AnalyzerInput(current: Raw, parent: Option<Raw>)

  ghost function CanonicalRows(d: Db, job: nat): (rows: set<nat>) {
    set r | r in d.rows && d.rows[r].IsCanonical() && d.rows[r].decision.route.job == job
  }

  ghost function Load(d: Db, job: nat): (result: Result<AnalyzerInput, LoadError>) {
    var found := CanonicalRows(d, job);
    if found == {} then Failure(NoPassedInput)
    else if |found| > 1 then Failure(AmbiguousInput)
    else
      var r :| r in found;
      var row := d.rows[r];
      if row.raw !in d.raws then Failure(CurrentMissing)
      else if row.parent.None? then Success(AnalyzerInput(d.raws[row.raw], None))
      else if row.parent.value !in d.raws then Failure(ParentMissing)
      else Success(AnalyzerInput(d.raws[row.raw], Some(d.raws[row.parent.value])))
  }

  /** The loaded texts are what row r was hashed from. */
  ghost predicate LoadedTextsOf(env: Env, d: Db, input: AnalyzerInput, r: Row) {
    && Known(d, r.raw, r.parent)
    && env.normalize(input.current.content) == TextOf(env, d, r.raw)
    && ParentText(if input.parent.None? then None else Some(env.normalize(input.parent.value.content)))
       == ParentText(ParentTextOf(env, d, r.parent))
  }

  lemma OnlyCanonicalRow(env: Env, d: Db, job: nat) returns (c: nat)
    requires StoreOk(env, d) && job in d.jobs
    ensures CanonicalRows(d, job) == {c} && c in d.rows && d.rows[c].raw == d.jobs[job]
  {
    assert HasCanonicalRow(d, job);
    c :| c in d.rows && d.rows[c].raw == d.jobs[job] && d.rows[c].IsCanonical() && d.rows[c].decision.route.job == job;
    forall r | r in CanonicalRows(d, job)
      ensures r == c
    {
      assert RowOk(env, d, d.rows[r]);
    }
  }

  lemma JobsOfRows(env: Env, d: Db)
    requires StoreOk(env, d)
    ensures PassedRowsHaveJobs(d)
  {
    forall r | r in d.rows && d.rows[r].decision.Passed?
      ensures d.rows[r].decision.route.job in d.jobs
    {
      assert RowOk(env, d, d.rows[r]);
    }
  }

  /** Loading succeeds for exactly the queued jobs, and serves every message routed to the job. */
  lemma LoadServesEveryRow(env: Env, run: seq<Step>, job: nat)
    requires ValidRun(env, INITIAL, run)
    ensures var d := Final(env, INITIAL, run).db;
            && (Load(d, job).Success? <==> job in d.jobs)
            && (Load(d, job).Failure? ==> Load(d, job).error == NoPassedInput)
            && (Load(d, job).Success? ==>
                  forall r :: r in d.rows && d.rows[r].decision.Passed? && d.rows[r].decision.route.job == job
                              ==> LoadedTextsOf(env, d, Load(d, job).value, d.rows[r]))
  {
    RunKeeps(env, INITIAL, run);
    SoundLoad(env, Final(env, INITIAL, run).db, job);
  }

  lemma SoundLoad(env: Env, d: Db, job: nat)
    requires StoreOk(env, d)
    ensures Load(d, job).Success? <==> job in d.jobs
    ensures Load(d, job).Failure? ==> Load(d, job).error == NoPassedInput
    ensures Load(d, job).Success? ==>
              forall r :: r in d.rows && d.rows[r].decision.Passed? && d.rows[r].decision.route.job == job
                          ==> LoadedTextsOf(env, d, Load(d, job).value, d.rows[r])
  {
    if job in d.jobs {
      var c := OnlyCanonicalRow(env, d, job);
      assert c in CanonicalRows(d, job);
      assert RowOk(env, d, d.rows[c]);
      forall r | r in d.rows && d.rows[r].decision.Passed? && d.rows[r].decision.route.job == job
        ensures LoadedTextsOf(env, d, Load(d, job).value, d.rows[r])
      {
        SharedJobSharesInput(env, d, r, c);
      }
    } else {
      JobsOfRows(env, d);
    }
  }
}
