/** What a finished prefilter transaction leaves behind, whatever ran in between. */
module PrefilterOutcome {
  import opened Sequences
  import opened MessagePrefilter

  // --- parents are what messages reply to --------------------------------------------------

  /** The message replies to the parent: its identifier, in the same source. */
  ghost predicate RepliesTo(d: Db, raw: nat, parent: nat) {
    && raw in d.raws && parent in d.raws
    && d.raws[raw].replyTo == Some(d.raws[parent].externalId) && d.raws[raw].source == d.raws[parent].source
  }

  predicate HasParent(p: Phase) {
    (p.Keyed? || p.Locked? || p.Rechecked? || p.NeedsJob? || p.Routed? || p.Recorded?) && p.parent.Some?
  }

  ghost predicate ParentsAreReplies(s: State) {
    && (forall w :: w in s.workers && HasParent(s.workers[w]) ==>
          RepliesTo(s.db, s.workers[w].tx.raw, s.workers[w].parent.value))
    && (forall w :: w in s.workers && s.workers[w].Recorded? && s.workers[w].newRow.Some? ==>
          && s.workers[w].row.raw == s.workers[w].tx.raw && s.workers[w].row.parent == s.workers[w].parent
          && s.workers[w].row.parent != Some(s.workers[w].row.raw))
    && (forall r :: r in s.db.rows && s.db.rows[r].parent.Some? ==>
          && RepliesTo(s.db, s.db.rows[r].raw, s.db.rows[r].parent.value)
          && s.db.rows[r].parent.value != s.db.rows[r].raw)
  }

  lemma StepKeepsParents(env: Env, s: State, step: Step)
    requires ParentsAreReplies(s) && Enabled(env, s, step)
    ensures ParentsAreReplies(Next(env, s, step))
  {
    hide KeyFor, HasRow, NoRecentCanonical, RecentCanonical, Evaluate, Compatible, Known;
    if step.Tick? || step.Ingest? || step.Commit? {
      TablesKeepParents(env, s, step);
    }
  }

  lemma TablesKeepParents(env: Env, s: State, step: Step)
    requires ParentsAreReplies(s) && Enabled(env, s, step) && (step.Tick? || step.Ingest? || step.Commit?)
    ensures ParentsAreReplies(Next(env, s, step))
  {
  }

  lemma {:induction false} RunKeepsParents(env: Env, s: State, run: seq<Step>)
    requires ParentsAreReplies(s) && ValidRun(env, s, run)
    ensures ParentsAreReplies(Final(env, s, run))
    decreases |run|
  {
    if run != [] {
      StepKeepsParents(env, s, run[0]);
      hide ParentsAreReplies, Enabled, Next;
      RunKeepsParents(env, Next(env, s, run[0]), run[1..]);
    }
  }

  /** In every reachable database a row's parent is another message, the one its own message replies to. */
  lemma RowsNameTheirParents(env: Env, run: seq<Step>, r: nat)
    requires ValidRun(env, INITIAL, run) && r in Final(env, INITIAL, run).db.rows
    ensures var d := Final(env, INITIAL, run).db;
            d.rows[r].parent.Some? ==>
              RepliesTo(d, d.rows[r].raw, d.rows[r].parent.value) && d.rows[r].parent.value != d.rows[r].raw
  {
    RunKeepsParents(env, INITIAL, run);
  }

  ghost predicate MessagesAreDistinct(d: Db) {
    forall i, j :: i in d.raws && j in d.raws && i != j ==>
                     d.raws[i].source != d.raws[j].source || d.raws[i].externalId != d.raws[j].externalId
  }

  lemma StepKeepsMessages(env: Env, s: State, step: Step)
    requires Enabled(env, s, step)
    ensures step.Ingest? || Next(env, s, step).db.raws == s.db.raws
    ensures MessagesAreDistinct(s.db) ==> MessagesAreDistinct(Next(env, s, step).db)
  {
    hide Evaluate, AnalysisInput, KeyFor, Compatible, RecentCanonical, HasRow;
  }

  lemma {:induction false} RunKeepsMessages(env: Env, s: State, run: seq<Step>)
    requires ValidRun(env, s, run) && MessagesAreDistinct(s.db)
    ensures MessagesAreDistinct(Final(env, s, run).db)
    decreases |run|
  {
    if run != [] {
      StepKeepsMessages(env, s, run[0]);
      hide MessagesAreDistinct;
      RunKeepsMessages(env, Next(env, s, run[0]), run[1..]);
    }
  }

  /** No message is ever ingested twice: source and external identifier tell two messages apart. */
  lemma IngestedOnce(env: Env, run: seq<Step>, i: nat, j: nat)
    requires ValidRun(env, INITIAL, run)
    requires var d := Final(env, INITIAL, run).db; i in d.raws && j in d.raws && i != j
    ensures var d := Final(env, INITIAL, run).db;
            d.raws[i].source != d.raws[j].source || d.raws[i].externalId != d.raws[j].externalId
  {
    RunKeepsMessages(env, INITIAL, run);
  }

  // --- completion ----------------------------------------------------------------------------

  predicate OfWorker(step: Step, w: nat) { !step.Tick? && !step.Ingest? && step.w == w }

  /** A step that ends a worker's transaction other than by a crash. */
  ghost predicate Finishes(env: Env, s: State, step: Step, w: nat) {
    && Enabled(env, s, step) && OfWorker(step, w) && !step.Abort?
    && !PhaseOf(s, w).Idle? && PhaseOf(Next(env, s, step), w).Idle?
  }

  /** Whenever a transaction ends, its message has a row: unless it was never ingested, or is its own
      parent, which the table refuses. */
  lemma FinishedMessagesAreRecorded(env: Env, run: seq<Step>, step: Step, w: nat)
    requires ValidRun(env, INITIAL, run) && Finishes(env, Final(env, INITIAL, run), step, w)
    ensures var s := Final(env, INITIAL, run);
            var raw, after := PhaseOf(s, w).tx.raw, Next(env, s, step).db;
            HasRow(after, raw) || raw !in after.raws || RepliesTo(after, raw, raw)
  {
    RunKeeps(env, INITIAL, run);
    RunKeepsParents(env, INITIAL, run);
    EndLeavesRow(env, Final(env, INITIAL, run), step, w);
  }

  lemma EndLeavesRow(env: Env, s: State, step: Step, w: nat)
    requires Inv(env, s) && ParentsAreReplies(s) && Finishes(env, s, step, w)
    ensures var raw, after := PhaseOf(s, w).tx.raw, Next(env, s, step).db;
            HasRow(after, raw) || raw !in after.raws || RepliesTo(after, raw, raw)
  {
    var p := s.workers[w];
    assert WorkerOk(env, s.db, p);
    hide StoreOk, PairOk, KeyFor, NoRecentCanonical, Evaluate, RouteOk, TxOk, NewJobOk, Known;
    if step.Commit? {
      CommitLeavesRow(env, s, w);
    }
  }

  lemma CommitLeavesRow(env: Env, s: State, w: nat)
    requires Inv(env, s) && Enabled(env, s, Commit(w))
    ensures HasRow(Next(env, s, Commit(w)).db, PhaseOf(s, w).tx.raw)
  {
    var p := s.workers[w];
    assert WorkerOk(env, s.db, p);
    CommitKeepsHasRow(env, s.db, p, p.tx.raw);
    hide StoreOk, PairOk, KeyFor, NoRecentCanonical, Evaluate, RouteOk, TxOk, NewJobOk, Known;
    var after := Next(env, s, Commit(w)).db;
    if p.newRow.Some? {
      assert after.rows[p.newRow.value].raw == p.tx.raw;
    } else {
      var r :| r in s.db.rows && s.db.rows[r] == p.row;
      assert HasRow(s.db, p.tx.raw);
    }
  }

  /** Recording a message that has a row gives the row back if all but its creation time is what would have
      been written, and fails otherwise. */
  lemma RecordedTwice(env: Env, s: State, w: nat, rowId: nat)
    requires Enabled(env, s, Record(w, rowId)) && HasRow(s.db, PhaseOf(s, w).tx.raw)
    ensures var p := PhaseOf(s, w);
            var existing := s.db.rows[RowFor(s.db, p.tx.raw)];
            var q := PhaseOf(Next(env, s, Record(w, rowId)), w);
            && Next(env, s, Record(w, rowId)).db == s.db
            && (q.Recorded? <==>
                  if p.Rejecting? then existing.parent.None? && existing.decision == Rejected(p.reason)
                  else existing.parent == p.parent && existing.decision == Passed(p.route, p.tx.config))
            && (q.Recorded? ==> q.row == existing && q.newRow.None?)
            && (!q.Recorded? ==> q.Idle?)
  {
  }

  /** After the lock, a row recorded meanwhile decides: a passed one gives its route and no new job, a
      rejected one ends the transaction. */
  lemma RowRecordedMeanwhile(env: Env, s: State, w: nat)
    requires Enabled(env, s, Recheck(w))
    ensures var p := PhaseOf(s, w);
            var q := PhaseOf(Next(env, s, Recheck(w)), w);
            && (!HasRow(s.db, p.tx.raw) ==> q == Rechecked(p.tx, p.parent))
            && (HasRow(s.db, p.tx.raw) ==>
                  var existing := s.db.rows[RowFor(s.db, p.tx.raw)].decision;
                  q == if existing.Passed? then Routed(p.tx, p.parent, existing.route, None) else Idle)
  {
  }

  // --- one transaction from here on ------------------------------------------------------------

  /** The worker opens no new transaction in this run. */
  ghost predicate StaysIn(run: seq<Step>, w: nat) {
    forall i :: 0 <= i < |run| ==> !(run[i].Open? && run[i].w == w)
  }

  lemma StaysInTail(run: seq<Step>, w: nat)
    requires run != [] && StaysIn(run, w)
    ensures StaysIn(run[1..], w) && !(run[0].Open? && run[0].w == w)
  {
  }

  /** Still the transaction that read this parent, or over. */
  predicate KeepsParent(p: Phase, tx: Tx, parent: Option<nat>) {
    p.Idle? ||
    ((p.Keyed? || p.Locked? || p.Rechecked? || p.NeedsJob? || p.Routed? || p.Recorded?)
     && p.tx == tx && p.parent == parent
     && (p.Recorded? && p.newRow.Some? ==> p.row.raw == tx.raw && p.row.parent == parent && p.row.createdAt == tx.now))
  }

  lemma StepKeepsParent(env: Env, s: State, step: Step, w: nat, tx: Tx, parent: Option<nat>)
    requires Enabled(env, s, step) && !(step.Open? && step.w == w) && KeepsParent(PhaseOf(s, w), tx, parent)
    ensures KeepsParent(PhaseOf(Next(env, s, step), w), tx, parent)
  {
    hide KeyFor, HasRow, NoRecentCanonical, RecentCanonical, Evaluate, Compatible, Known;
  }

  lemma {:induction false} RunKeepsParent(env: Env, s: State, run: seq<Step>, w: nat, tx: Tx, parent: Option<nat>)
    requires ValidRun(env, s, run) && StaysIn(run, w) && KeepsParent(PhaseOf(s, w), tx, parent)
    ensures KeepsParent(PhaseOf(Final(env, s, run), w), tx, parent)
    decreases |run|
  {
    if run != [] {
      StaysInTail(run, w);
      StepKeepsParent(env, s, run[0], w, tx, parent);
      hide Enabled, Next, KeepsParent, StaysIn;
      RunKeepsParent(env, Next(env, s, run[0]), run[1..], w, tx, parent);
    }
  }

  /** The row a transaction writes names the parent it read and the time it began. */
  lemma ParentReadIsRecorded(env: Env, s: State, w: nat, parent: Option<nat>, later: seq<Step>)
    requires Enabled(env, s, ReadParent(w, parent))
    requires var n := Next(env, s, ReadParent(w, parent)); ValidRun(env, n, later) && StaysIn(later, w)
    ensures var p := PhaseOf(Final(env, Next(env, s, ReadParent(w, parent)), later), w);
            p.Recorded? && p.newRow.Some? ==>
              p.row.raw == PhaseOf(s, w).tx.raw && p.row.parent == parent && p.row.createdAt == PhaseOf(s, w).tx.now
  {
    RunKeepsParent(env, Next(env, s, ReadParent(w, parent)), later, w, PhaseOf(s, w).tx, parent);
  }

  // --- duplicates --------------------------------------------------------------------------------

  /** The transaction is on this route, or over. */
  predicate OnRoute(p: Phase, tx: Tx, parent: Option<nat>, route: Route) {
    || p.Idle?
    || (p.Routed? && p.tx == tx && p.parent == parent && p.route == route)
    || (p.Recorded? && p.tx == tx &&
        (p.newRow.Some? ==> p.row == Row(tx.raw, parent, Passed(route, tx.config), tx.now)))
  }

  lemma StepKeepsRoute(env: Env, s: State, step: Step, w: nat, tx: Tx, parent: Option<nat>, route: Route)
    requires Enabled(env, s, step) && !(step.Open? && step.w == w) && OnRoute(PhaseOf(s, w), tx, parent, route)
    ensures OnRoute(PhaseOf(Next(env, s, step), w), tx, parent, route)
  {
    hide KeyFor, HasRow, NoRecentCanonical, RecentCanonical, Evaluate, Compatible, Known;
  }

  lemma {:induction false} RunKeepsRoute(env: Env, s: State, run: seq<Step>, w: nat, tx: Tx, parent: Option<nat>,
                                         route: Route)
    requires ValidRun(env, s, run) && StaysIn(run, w) && OnRoute(PhaseOf(s, w), tx, parent, route)
    ensures OnRoute(PhaseOf(Final(env, s, run), w), tx, parent, route)
    decreases |run|
  {
    if run != [] {
      StaysInTail(run, w);
      StepKeepsRoute(env, s, run[0], w, tx, parent, route);
      hide Enabled, Next, OnRoute, StaysIn;
      RunKeepsRoute(env, Next(env, s, run[0]), run[1..], w, tx, parent, route);
    }
  }

  /** The row of a message whose search found canonical row c: a duplicate on c's job. */
  function DuplicateOf(env: Env, d: Db, tx: Tx, parent: Option<nat>, c: nat): Row
    requires Known(d, tx.raw, parent) && c in d.rows && d.rows[c].decision.Passed?
  {
    Row(tx.raw, parent,
        Passed(Route(d.rows[c].decision.route.job, Some(c), env.normalize(d.raws[tx.raw].content),
                     AnalysisInput(env.normalize(d.raws[tx.raw].content), ParentTextOf(env, d, parent)),
                     ExactDuplicate),
               tx.config),
        tx.now)
  }

  /** A worker whose search found a canonical row ends, if it writes at all, with a duplicate of it on the
      same job; and either way its message has a row. */
  lemma DuplicateJoinsItsCanonical(env: Env, before: seq<Step>, w: nat, c: nat, later: seq<Step>)
    requires ValidRun(env, INITIAL, before)
    requires Enabled(env, Final(env, INITIAL, before), FindCanonical(w, Some(c)))
    requires var n := Next(env, Final(env, INITIAL, before), FindCanonical(w, Some(c)));
             ValidRun(env, n, later) && StaysIn(later, w) && Enabled(env, Final(env, n, later), Commit(w))
    ensures var s := Final(env, INITIAL, before);
            var p := PhaseOf(s, w);
            var e := Final(env, Next(env, s, FindCanonical(w, Some(c))), later);
            var after := Next(env, e, Commit(w)).db;
            && HasRow(after, p.tx.raw)
            && (PhaseOf(e, w).newRow.Some? ==>
                  && PhaseOf(e, w).newRow.value in after.rows
                  && after.rows[PhaseOf(e, w).newRow.value] == DuplicateOf(env, s.db, p.tx, p.parent, c))
  {
    var s := Final(env, INITIAL, before);
    var p := PhaseOf(s, w);
    var n := Next(env, s, FindCanonical(w, Some(c)));
    var e := Final(env, n, later);
    RunKeepsRoute(env, n, later, w, p.tx, p.parent, DuplicateOf(env, s.db, p.tx, p.parent, c).decision.route);
    RunKeeps(env, INITIAL, before);
    StepKeeps(env, s, FindCanonical(w, Some(c)));
    RunKeeps(env, n, later);
    CommitLeavesRow(env, e, w);
    hide Inv, ValidRun, Final;
  }

  // --- new texts -----------------------------------------------------------------------------------

  /** The job is filed under the message, in the table or about to be. */
  predicate OwnJob(d: Db, raw: nat, job: nat, newJob: Option<nat>) {
    newJob == Some(job) || (newJob.None? && job in d.jobs && d.jobs[job] == raw)
  }

  /** The transaction that found no canonical row, or over. */
  ghost predicate StartsJob(d: Db, p: Phase, tx: Tx, parent: Option<nat>) {
    || p.Idle?
    || (p.NeedsJob? && p.tx == tx && p.parent == parent)
    || (p.Routed? && p.tx == tx && p.parent == parent && p.route.relation.Canonical? && p.route.canonicalRow.None?
        && OwnJob(d, tx.raw, p.route.job, p.newJob))
    || (p.Recorded? && p.tx == tx &&
        (p.newRow.Some? ==>
           && p.row.raw == tx.raw && p.row.parent == parent && p.row.IsCanonical()
           && OwnJob(d, tx.raw, p.row.decision.route.job, p.newJob)))
  }

  lemma StepKeepsStart(env: Env, s: State, step: Step, w: nat, tx: Tx, parent: Option<nat>)
    requires Inv(env, s) && Enabled(env, s, step) && !(step.Open? && step.w == w)
    requires StartsJob(s.db, PhaseOf(s, w), tx, parent)
    ensures StartsJob(Next(env, s, step).db, PhaseOf(Next(env, s, step), w), tx, parent)
  {
    if step.Commit? {
      CommittedExtends(env, s.db, s.workers[step.w]);
    }
    hide Inv, KeyFor, HasRow, NoRecentCanonical, RecentCanonical, Evaluate, Compatible, Known;
  }

  lemma {:induction false} RunKeepsStart(env: Env, s: State, run: seq<Step>, w: nat, tx: Tx, parent: Option<nat>)
    requires Inv(env, s) && ValidRun(env, s, run) && StaysIn(run, w) && StartsJob(s.db, PhaseOf(s, w), tx, parent)
    ensures Inv(env, Final(env, s, run)) && StartsJob(Final(env, s, run).db, PhaseOf(Final(env, s, run), w), tx, parent)
    decreases |run|
  {
    if run != [] {
      StaysInTail(run, w);
      StepKeepsStart(env, s, run[0], w, tx, parent);
      StepKeeps(env, s, run[0]);
      hide Inv, Enabled, Next, StartsJob, StaysIn;
      RunKeepsStart(env, Next(env, s, run[0]), run[1..], w, tx, parent);
    }
  }

  /** A worker whose search found nothing ends, if it writes at all, with a canonical row under a job of
      its own message. */
  lemma NewTextStartsItsJob(env: Env, before: seq<Step>, w: nat, later: seq<Step>)
    requires ValidRun(env, INITIAL, before) && Enabled(env, Final(env, INITIAL, before), FindCanonical(w, None))
    requires var n := Next(env, Final(env, INITIAL, before), FindCanonical(w, None));
             ValidRun(env, n, later) && StaysIn(later, w) && Enabled(env, Final(env, n, later), Commit(w))
    ensures var s := Final(env, INITIAL, before);
            var p := PhaseOf(s, w);
            var e := Final(env, Next(env, s, FindCanonical(w, None)), later);
            var after := Next(env, e, Commit(w)).db;
            && HasRow(after, p.tx.raw)
            && (PhaseOf(e, w).newRow.Some? ==>
                  && PhaseOf(e, w).newRow.value in after.rows
                  && var row := after.rows[PhaseOf(e, w).newRow.value];
                     && row.raw == p.tx.raw && row.parent == p.parent && row.IsCanonical()
                     && row.decision.route.job in after.jobs && after.jobs[row.decision.route.job] == p.tx.raw)
  {
    var s := Final(env, INITIAL, before);
    var p := PhaseOf(s, w);
    var n := Next(env, s, FindCanonical(w, None));
    var e := Final(env, n, later);
    hide *;
    RunKeeps(env, INITIAL, before);
    StepKeeps(env, s, FindCanonical(w, None));
    SearchStarts(env, s, w);
    RunKeepsStart(env, n, later, w, p.tx, p.parent);
    CommitLeavesRow(env, e, w);
    if PhaseOf(e, w).newRow.Some? {
      CommitStarts(env, e, w, p.tx, p.parent);
    }
  }

  lemma SearchStarts(env: Env, s: State, w: nat)
    requires Enabled(env, s, FindCanonical(w, None))
    ensures var n := Next(env, s, FindCanonical(w, None));
            StartsJob(n.db, PhaseOf(n, w), PhaseOf(s, w).tx, PhaseOf(s, w).parent)
  {
  }

  lemma CommitStarts(env: Env, e: State, w: nat, tx: Tx, parent: Option<nat>)
    requires Enabled(env, e, Commit(w)) && StartsJob(e.db, PhaseOf(e, w), tx, parent) && PhaseOf(e, w).newRow.Some?
    ensures var after := Next(env, e, Commit(w)).db;
            && PhaseOf(e, w).newRow.value in after.rows
            && var row := after.rows[PhaseOf(e, w).newRow.value];
               && row.raw == tx.raw && row.parent == parent && row.IsCanonical()
               && row.decision.route.job in after.jobs && after.jobs[row.decision.route.job] == tx.raw
  {
  }

  // --- verdicts and inputs ------------------------------------------------------------------------

  /** In every reachable database a row rejects a service event as such, otherwise a blank message as empty,
      and passes every other. */
  lemma RowsGiveTheReason(env: Env, run: seq<Step>, r: nat)
    requires ValidRun(env, INITIAL, run) && r in Final(env, INITIAL, run).db.rows
    ensures var d := Final(env, INITIAL, run).db;
            && d.rows[r].raw in d.raws
            && var row, raw := d.rows[r], d.raws[d.rows[r].raw];
               && (row.decision == Rejected(ServiceEvent) <==> raw.serviceEvent)
               && (row.decision == Rejected(EmptyContent) <==> !raw.serviceEvent && env.blank(raw.content))
               && (row.decision.Passed? <==> !raw.serviceEvent && !env.blank(raw.content))
  {
    DedupSafety(env, run);
    hide OneRowPerMessage, PassedRowsHaveJobs, DuplicatesPointAtCanonical, CanonicalRowsApart, JobsHaveOneInput, Final;
  }

  /** With one current text, inputs tell parent texts apart, but for a missing parent and one that
      reads `<none>`. */
  lemma InputsTellParentsApart(current: string, p: string, q: string)
    ensures AnalysisInput(current, Some(p)) == AnalysisInput(current, Some(q)) <==> p == q
    ensures AnalysisInput(current, None) == AnalysisInput(current, Some(p)) <==> p == "<none>"
  {
    if AnalysisInput(current, Some(p)) == AnalysisInput(current, Some(q)) {
      InputDeterminesParent(current, Some(p), Some(q));
    }
    if AnalysisInput(current, None) == AnalysisInput(current, Some(p)) {
      InputDeterminesParent(current, None, Some(p));
    }
  }

  // --- no deadlock ----------------------------------------------------------------------------------

  /** The most recent of the canonical rows found, if there is one. */
  lemma {:induction false} MostRecent(d: Db, found: set<nat>) returns (c: nat)
    requires found != {} && found <= d.rows.Keys
    ensures c in found && forall r :: r in found ==> d.rows[r].createdAt <= d.rows[c].createdAt
  {
    c :| c in found;
    if found != {c} {
      var b := MostRecent(d, found - {c});
      c := if d.rows[b].createdAt <= d.rows[c].createdAt then c else b;
    }
  }

  lemma SearchIsPossible(env: Env, s: State, w: nat) returns (step: Step)
    requires PhaseOf(s, w).Rechecked? && Known(s.db, PhaseOf(s, w).tx.raw, PhaseOf(s, w).parent)
    ensures step.FindCanonical? && step.w == w && Enabled(env, s, step)
  {
    var p := s.workers[w];
    var key := KeyFor(env, s.db, p.tx, p.parent);
    var found := set r | r in s.db.rows && RecentCanonical(s.db.rows[r], key, p.tx);
    assert forall r :: r in found <==> r in s.db.rows && RecentCanonical(s.db.rows[r], key, p.tx);
    hide KeyFor, RecentCanonical;
    if found == {} {
      assert forall r :: r in s.db.rows ==> r !in found;
      assert NoRecentCanonical(s.db, key, p.tx);
      step := FindCanonical(w, None);
    } else {
      var c := MostRecent(s.db, found);
      step := FindCanonical(w, Some(c));
    }
  }

  lemma ParentIsFindable(env: Env, s: State, w: nat) returns (step: Step)
    requires PhaseOf(s, w).Unrecorded? && PhaseOf(s, w).tx.raw in s.db.raws
    ensures step.ReadParent? && step.w == w && Enabled(env, s, step)
  {
    var raw := s.db.raws[s.workers[w].tx.raw];
    if id :| id in s.db.raws && raw.replyTo == Some(s.db.raws[id].externalId) && s.db.raws[id].source == raw.source {
      step := ReadParent(w, Some(id));
    } else {
      step := ReadParent(w, None);
    }
  }

  /** A job and a row can be inserted as long as no one else's insert is pending. */
  lemma InsertsArePossible(env: Env, s: State, w: nat) returns (step: Step)
    requires Inv(env, s) && w in s.workers
    requires forall v :: v in s.workers ==> !s.workers[v].Recorded?
    requires s.workers[w].Routed? || s.workers[w].Rejecting?
             || (s.workers[w].NeedsJob? && forall v :: v in s.workers ==> !s.workers[v].Routed?)
    ensures OfWorker(step, w) && !step.Abort? && Enabled(env, s, step)
  {
    var p := s.workers[w];
    assert WorkerOk(env, s.db, p);
    if p.NeedsJob? {
      if j :| j in s.db.jobs && s.db.jobs[j] == p.tx.raw {
        step := Enqueue(w, j);
      } else {
        var j := AboveAll(s.db.jobs.Keys);
        step := Enqueue(w, j);
      }
    } else {
      var r := AboveAll(s.db.rows.Keys);
      step := Record(w, r);
    }
  }

  /** While any transaction is open some transaction can go on, and any may crash: workers wait for each
      other's locks and inserts, but never in a circle. */
  lemma NoDeadlock(env: Env, run: seq<Step>, w: nat) returns (step: Step)
    requires ValidRun(env, INITIAL, run) && !PhaseOf(Final(env, INITIAL, run), w).Idle?
    ensures Enabled(env, Final(env, INITIAL, run), Abort(w))
    ensures !step.Tick? && !step.Ingest? && !step.Open? && !step.Abort? && Enabled(env, Final(env, INITIAL, run), step)
  {
    RunKeeps(env, INITIAL, run);
    hide Final, ValidRun;
    step := SomeoneGoesOn(env, Final(env, INITIAL, run), w);
  }

  lemma SomeoneGoesOn(env: Env, s: State, w: nat) returns (step: Step)
    requires Inv(env, s) && w in s.workers && !s.workers[w].Idle?
    ensures !step.Tick? && !step.Ingest? && !step.Open? && !step.Abort? && Enabled(env, s, step)
  {
    hide StoreOk, PairOk;
    if v :| v in s.workers && s.workers[v].Recorded? {
      step := Commit(v);
    } else if v :| v in s.workers && (s.workers[v].Routed? || s.workers[v].Rejecting?) {
      step := InsertsArePossible(env, s, v);
    } else if v :| v in s.workers && s.workers[v].NeedsJob? {
      step := InsertsArePossible(env, s, v);
    } else {
      step := EarlyStep(env, s, w);
    }
  }

  /** Before the inserts nothing but a held lock stands in the way. */
  lemma EarlyStep(env: Env, s: State, w: nat) returns (step: Step)
    requires Inv(env, s) && w in s.workers && !s.workers[w].Idle?
    requires forall v :: v in s.workers ==> !s.workers[v].Recorded? && !s.workers[v].Routed? && !s.workers[v].Rejecting?
                                            && !s.workers[v].NeedsJob?
    ensures !step.Tick? && !step.Ingest? && !step.Open? && !step.Abort? && Enabled(env, s, step)
  {
    hide StoreOk, PairOk, KeyFor;
    if v :| v in s.workers && s.workers[v].Rechecked? {
      assert WorkerOk(env, s.db, s.workers[v]);
      step := SearchIsPossible(env, s, v);
    } else if v :| v in s.workers && s.workers[v].Locked? {
      step := Recheck(v);
    } else {
      var p := s.workers[w];
      assert WorkerOk(env, s.db, p);
      if p.Keyed? {
        step := AcquireLock(w);
      } else if p.Unrecorded? {
        step := ParentIsFindable(env, s, w);
      } else {
        step := CheckExisting(w);
      }
    }
  }
}
