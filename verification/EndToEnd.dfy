/** The prefilter and the classifier joined: the jobs one routes are the jobs the other analyzes. */
module EndToEnd {
  import opened Sequences
  import opened OpportunityAnalysis
  import opened MatchingDelivery
  import opened AnalysisTables
  import Prefilter = MessagePrefilter
  import Replay = AnalysisReplay

  // --- the jobs the prefilter routes -----------------------------------------------------

  ghost predicate RoutedTo(d: Prefilter.Db, j: nat, m: nat) {
    exists r :: r in d.rows && d.rows[r].raw == m && d.rows[r].decision.Passed? && d.rows[r].decision.route.job == j
  }

  /** `jobs` lists a prefilter database's analysis jobs: each with its canonical row's key and all its messages. */
  ghost predicate Lists(d: Prefilter.Db, jobs: map<nat, JobRows>) {
    && jobs.Keys == d.jobs.Keys
    && (forall j :: j in jobs ==> exists c :: c in Prefilter.CanonicalRows(d, j) && d.rows[c].Key() == jobs[j].key)
    && (forall j, m :: j in jobs ==> (m in jobs[j].messages <==> RoutedTo(d, j, m)))
  }

  lemma ListedPartition(d: Prefilter.Db, jobs: map<nat, JobRows>)
    requires Prefilter.OneRowPerMessage(d) && Lists(d, jobs)
    ensures Partitioned(jobs)
  {
    forall j | j in jobs
      ensures jobs[j].messages != []
    {
      var c :| c in Prefilter.CanonicalRows(d, j) && d.rows[c].Key() == jobs[j].key;
      assert RoutedTo(d, j, d.rows[c].raw);
    }
    forall j, k, m | j in jobs && k in jobs && m in jobs[j].messages && m in jobs[k].messages
      ensures j == k
    {
      assert RoutedTo(d, j, m) && RoutedTo(d, k, m);
    }
  }

  /** Every reachable prefilter database routes its messages as the classifier assumes. */
  lemma RoutedJobsPartition(env: Prefilter.Env, run: seq<Prefilter.Step>, jobs: map<nat, JobRows>)
    requires Prefilter.ValidRun(env, Prefilter.INITIAL, run)
    requires Lists(Prefilter.Final(env, Prefilter.INITIAL, run).db, jobs)
    ensures Partitioned(jobs)
  {
    hide Prefilter.OneRowPerMessage, Prefilter.PassedRowsHaveJobs, Prefilter.JobsHaveOneInput, Lists, Partitioned;
    Prefilter.DedupSafety(env, run);
    ListedPartition(Prefilter.Final(env, Prefilter.INITIAL, run).db, jobs);
  }

  /** The second database keeps the first one's rows and jobs. */
  ghost predicate KeepsRows(d: Prefilter.Db, e: Prefilter.Db) {
    && (forall r :: r in d.rows ==> r in e.rows && e.rows[r] == d.rows[r])
    && (forall j :: j in d.jobs ==> j in e.jobs)
  }

  lemma ListedMessages(d: Prefilter.Db, e: Prefilter.Db, was: map<nat, JobRows>, now: map<nat, JobRows>, j: nat, m: nat)
    requires KeepsRows(d, e) && Lists(d, was) && Lists(e, now) && j in was && m in was[j].messages
    ensures j in now && m in now[j].messages
  {
    assert j in e.jobs;
    assert RoutedTo(d, j, m);
    var r :| r in d.rows && d.rows[r].raw == m && d.rows[r].decision.Passed? && d.rows[r].decision.route.job == j;
    assert e.rows[r] == d.rows[r];
    assert RoutedTo(e, j, m);
  }

  lemma ListedKey(env: Prefilter.Env, d: Prefilter.Db, e: Prefilter.Db,
                  was: map<nat, JobRows>, now: map<nat, JobRows>, j: nat)
    requires KeepsRows(d, e) && Lists(d, was) && Lists(e, now) && j in was && Prefilter.StoreOk(env, e)
    ensures j in now && now[j].key == was[j].key
  {
    assert j in e.jobs;
    var c :| c in Prefilter.CanonicalRows(d, j) && d.rows[c].Key() == was[j].key;
    var b :| b in Prefilter.CanonicalRows(e, j) && e.rows[b].Key() == now[j].key;
    hide Prefilter.StoreOk, Lists;
    var only := Prefilter.OnlyCanonicalRow(env, e, j);
    assert c in Prefilter.CanonicalRows(e, j);
    assert b == only && c == only;
  }

  lemma ListedGrowth(env: Prefilter.Env, d: Prefilter.Db, e: Prefilter.Db,
                     was: map<nat, JobRows>, now: map<nat, JobRows>)
    requires KeepsRows(d, e) && Lists(d, was) && Lists(e, now) && Prefilter.StoreOk(env, e)
    ensures Grows(was, now)
  {
    hide Prefilter.StoreOk, Lists, KeepsRows;
    forall j | j in was
      ensures j in now && now[j].key == was[j].key && forall m :: m in was[j].messages ==> m in now[j].messages
    {
      ListedKey(env, d, e, was, now, j);
      forall m | m in was[j].messages
        ensures m in now[j].messages
      {
        ListedMessages(d, e, was, now, j, m);
      }
    }
  }

  /** More prefilter steps only add messages to jobs, never re-key or drop one. */
  lemma RoutedJobsGrow(env: Prefilter.Env, s: Prefilter.State, run: seq<Prefilter.Step>,
                       was: map<nat, JobRows>, now: map<nat, JobRows>)
    requires Prefilter.Inv(env, s) && Prefilter.ValidRun(env, s, run)
    requires Lists(s.db, was) && Lists(Prefilter.Final(env, s, run).db, now)
    ensures Grows(was, now)
  {
    hide Prefilter.StoreOk, Prefilter.WorkerOk, Prefilter.PairOk, Prefilter.ValidRun, Prefilter.Final, Lists, Grows;
    Prefilter.CommittedIsPermanent(env, s, run);
    Prefilter.RunKeeps(env, s, run);
    ListedGrowth(env, s.db, Prefilter.Final(env, s, run).db, was, now);
  }

  // --- listing a database's jobs ---------------------------------------------------------

  ghost function AsSeq(s: set<nat>): (r: seq<nat>)
    ensures forall m :: m in r <==> m in s
  {
    if s == {} then []
    else
      var m :| m in s;
      [m] + AsSeq(s - {m})
  }

  ghost function MessagesOf(d: Prefilter.Db, j: nat): set<nat> {
    set r | r in d.rows && d.rows[r].decision.Passed? && d.rows[r].decision.route.job == j :: d.rows[r].raw
  }

  ghost function KeyOf(d: Prefilter.Db, j: nat): Prefilter.CompatibilityKey {
    if Prefilter.CanonicalRows(d, j) == {} then Prefilter.CompatibilityKey("", "", "", "")
    else
      var c :| c in Prefilter.CanonicalRows(d, j);
      d.rows[c].Key()
  }

  /** The jobs as the classifier reads them: the canonical row's key and every routed message. */
  ghost function Listing(d: Prefilter.Db): map<nat, JobRows> {
    map j | j in d.jobs :: JobRows(KeyOf(d, j), AsSeq(MessagesOf(d, j)))
  }

  lemma ListingLists(env: Prefilter.Env, d: Prefilter.Db)
    requires Prefilter.StoreOk(env, d)
    ensures Lists(d, Listing(d))
  {
    var jobs := Listing(d);
    hide Prefilter.StoreOk;
    forall j | j in jobs
      ensures exists c :: c in Prefilter.CanonicalRows(d, j) && d.rows[c].Key() == jobs[j].key
    {
      var only := Prefilter.OnlyCanonicalRow(env, d, j);
      assert only in Prefilter.CanonicalRows(d, j);
    }
    forall j, m | j in jobs
      ensures m in jobs[j].messages <==> RoutedTo(d, j, m)
    {
      MessageIffRouted(d, j, m);
    }
  }

  lemma MessageIffRouted(d: Prefilter.Db, j: nat, m: nat)
    ensures m in MessagesOf(d, j) <==> RoutedTo(d, j, m)
  {
  }

  // --- both at once ------------------------------------------------------------------------

  /** Prefilter and classifier workers over one database. */
  datatype Joint = Joint(routing: Prefilter.State, analysis: Replay.State)

  datatype Step = Routing(p: Prefilter.Step) | Analyzing(a: Replay.Step)

  const INITIAL: Joint := Joint(Prefilter.INITIAL, Replay.EMPTY)

  ghost predicate Enabled(env: Prefilter.Env, x: Texts, s: Joint, step: Step) {
    match step
    case Routing(p) => Prefilter.Enabled(env, s.routing, p)
    case Analyzing(a) => !a.Route? && Replay.Enabled(x, s.analysis, a)
  }

  /** Whatever the prefilter commits, the classifier's next statement sees. */
  ghost function Next(env: Prefilter.Env, x: Texts, s: Joint, step: Step): Joint
    requires Enabled(env, x, s, step)
  {
    match step
    case Routing(p) =>
      var n := Prefilter.Next(env, s.routing, p);
      Joint(n, s.analysis.(tables := s.analysis.tables.(jobs := Listing(n.db))))
    case Analyzing(a) => s.(analysis := Replay.Next(x, s.analysis, a))
  }

  ghost predicate ValidRun(env: Prefilter.Env, x: Texts, s: Joint, run: seq<Step>)
    decreases |run|
  {
    run == [] || (Enabled(env, x, s, run[0]) && ValidRun(env, x, Next(env, x, s, run[0]), run[1..]))
  }

  ghost function Final(env: Prefilter.Env, x: Texts, s: Joint, run: seq<Step>): Joint
    requires ValidRun(env, x, s, run)
    decreases |run|
  {
    if run == [] then s else Final(env, x, Next(env, x, s, run[0]), run[1..])
  }

  ghost predicate Inv(env: Prefilter.Env, x: Texts, s: Joint) {
    && Prefilter.Inv(env, s.routing) && Replay.Inv(x, s.analysis)
    && s.analysis.tables.jobs == Listing(s.routing.db)
  }

  lemma OneStepKeepsRows(env: Prefilter.Env, s: Prefilter.State, p: Prefilter.Step)
    requires Prefilter.Inv(env, s) && Prefilter.Enabled(env, s, p)
    ensures KeepsRows(s.db, Prefilter.Next(env, s, p).db)
  {
    var n := Prefilter.Next(env, s, p);
    hide Prefilter.Inv, Prefilter.Enabled, Prefilter.Next;
    assert [p][1..] == [];
    assert Prefilter.ValidRun(env, n, []) && Prefilter.Final(env, n, []) == n;
    assert Prefilter.ValidRun(env, s, [p]) && Prefilter.Final(env, s, [p]) == n;
    Prefilter.CommittedIsPermanent(env, s, [p]);
  }

  /** A prefilter step is a routing step of the classifier. */
  lemma RoutingIsRoute(env: Prefilter.Env, x: Texts, s: Joint, p: Prefilter.Step)
    requires Inv(env, x, s) && Prefilter.Enabled(env, s.routing, p)
    ensures var n := Prefilter.Next(env, s.routing, p);
            && Prefilter.Inv(env, n) && Prefilter.StoreOk(env, n.db)
            && Partitioned(Listing(n.db)) && Grows(Listing(s.routing.db), Listing(n.db))
  {
    var n := Prefilter.Next(env, s.routing, p);
    Prefilter.StepKeeps(env, s.routing, p);
    OneStepKeepsRows(env, s.routing, p);
    assert Prefilter.StoreOk(env, n.db) && Prefilter.StoreOk(env, s.routing.db);
    assert Prefilter.OneRowPerMessage(n.db);
    hide Prefilter.Inv, Prefilter.Enabled, Prefilter.Next, Prefilter.StoreOk, Prefilter.OneRowPerMessage;
    hide Replay.Inv, Listing, Lists, Partitioned, Grows, KeepsRows;
    ListingLists(env, s.routing.db);
    ListingLists(env, n.db);
    ListedPartition(n.db, Listing(n.db));
    ListedGrowth(env, s.routing.db, n.db, Listing(s.routing.db), Listing(n.db));
  }

  lemma AnalysisKeepsJobs(x: Texts, s: Replay.State, a: Replay.Step)
    requires Replay.Inv(x, s) && Replay.Enabled(x, s, a) && !a.Route?
    ensures Replay.Next(x, s, a).tables.jobs == s.tables.jobs
  {
    if a.Commit? {
      Replay.CompleteOk(x, s.tables, s.workers[a.w], a.draws);
      hide Replay.Complete, TablesOk, Replay.AttemptOk, Extends;
    }
  }

  lemma StepKeeps(env: Prefilter.Env, x: Texts, s: Joint, step: Step)
    requires Inv(env, x, s) && Enabled(env, x, s, step)
    ensures Inv(env, x, Next(env, x, s, step))
  {
    match step {
      case Routing(p) =>
        hide Prefilter.Inv, Prefilter.Enabled, Prefilter.Next, Prefilter.StoreOk;
        hide Replay.Inv, Listing, Lists, Partitioned, Grows;
        RoutingIsRoute(env, x, s, p);
        Replay.RouteKeeps(x, s.analysis, Listing(Prefilter.Next(env, s.routing, p).db));
      case Analyzing(a) =>
        hide Prefilter.Inv, Replay.Inv, Replay.Enabled, Replay.Next, Listing;
        Replay.StepKeeps(x, s.analysis, a);
        AnalysisKeepsJobs(x, s.analysis, a);
    }
  }

  lemma {:induction false} RunKeeps(env: Prefilter.Env, x: Texts, s: Joint, run: seq<Step>)
    requires Inv(env, x, s) && ValidRun(env, x, s, run)
    ensures Inv(env, x, Final(env, x, s, run))
    decreases |run|
  {
    if run != [] {
      hide Inv, Enabled, Next;
      StepKeeps(env, x, s, run[0]);
      RunKeeps(env, x, Next(env, x, s, run[0]), run[1..]);
    }
  }

  /** Two messages routed to one job and filed are under one opportunity, and read alike. */
  ghost predicate AlikeUnderOneOpportunity(env: Prefilter.Env, d: Prefilter.Db, t: Tables) {
    forall r, q :: r in d.rows && q in d.rows && Prefilter.OnOneJob(d.rows[r], d.rows[q])
                   && d.rows[r].raw in t.sources && d.rows[q].raw in t.sources
                   ==> t.sources[d.rows[r].raw] == t.sources[d.rows[q].raw]
                       && Prefilter.SameInput(env, d, d.rows[r], d.rows[q])
  }

  lemma InitialInv(env: Prefilter.Env, x: Texts)
    ensures Inv(env, x, INITIAL)
  {
    assert Listing(INITIAL.routing.db) == map[];
  }

  lemma RowsAlike(env: Prefilter.Env, d: Prefilter.Db, t: Tables, r: nat, q: nat)
    requires Prefilter.StoreOk(env, d) && OneOpportunityAJob(t) && t.jobs == Listing(d)
    requires r in d.rows && q in d.rows && Prefilter.OnOneJob(d.rows[r], d.rows[q])
    requires d.rows[r].raw in t.sources && d.rows[q].raw in t.sources
    ensures t.sources[d.rows[r].raw] == t.sources[d.rows[q].raw]
    ensures Prefilter.SameInput(env, d, d.rows[r], d.rows[q])
  {
    hide Prefilter.StoreOk, Prefilter.SameInput, OneOpportunityAJob;
    Prefilter.JobsOfRows(env, d);
    Prefilter.SharedJobSharesInput(env, d, r, q);
    var j := d.rows[r].decision.route.job;
    assert j in t.jobs && d.rows[r].raw in MessagesOf(d, j) && d.rows[q].raw in MessagesOf(d, j);
    FiledTogether(t, j, d.rows[r].raw, d.rows[q].raw);
  }

  lemma FiledTogether(t: Tables, j: nat, m: nat, n: nat)
    requires OneOpportunityAJob(t) && j in t.jobs && m in t.jobs[j].messages && n in t.jobs[j].messages
    requires m in t.sources && n in t.sources
    ensures t.sources[m] == t.sources[n]
  {
  }

  /** However prefilter and classifier workers interleave, crash and retry, messages end up under
      one opportunity with messages that read alike, with one fan-out job for each opportunity. */
  lemma AlikeMessagesShareAnOpportunity(env: Prefilter.Env, x: Texts, run: seq<Step>)
    requires x.Valid() && ValidRun(env, x, INITIAL, run)
    ensures var s := Final(env, x, INITIAL, run);
            && Prefilter.OneRowPerMessage(s.routing.db) && Matched(x, s.analysis.tables)
            && AlikeUnderOneOpportunity(env, s.routing.db, s.analysis.tables)
  {
    hide Inv, Matched, Prefilter.OneRowPerMessage, AlikeUnderOneOpportunity;
    InitialInv(env, x);
    RunKeeps(env, x, INITIAL, run);
    SoundJointState(env, x, Final(env, x, INITIAL, run));
  }

  lemma SoundJointState(env: Prefilter.Env, x: Texts, s: Joint)
    requires x.Valid() && Inv(env, x, s)
    ensures Prefilter.OneRowPerMessage(s.routing.db) && Matched(x, s.analysis.tables)
    ensures AlikeUnderOneOpportunity(env, s.routing.db, s.analysis.tables)
  {
    var d, t := s.routing.db, s.analysis.tables;
    assert Prefilter.StoreOk(env, d) && Prefilter.OneRowPerMessage(d);
    assert TablesOk(x, t) && t.jobs == Listing(d);
    SoundTablesMatch(x, t);
    assert OneOpportunityAJob(t);
    hide *;
    AllRowsAlike(env, d, t);
  }

  lemma AllRowsAlike(env: Prefilter.Env, d: Prefilter.Db, t: Tables)
    requires Prefilter.StoreOk(env, d) && OneOpportunityAJob(t) && t.jobs == Listing(d)
    ensures AlikeUnderOneOpportunity(env, d, t)
  {
    hide Prefilter.StoreOk, Prefilter.SameInput, OneOpportunityAJob, Listing, Prefilter.OnOneJob;
    forall r, q | r in d.rows && q in d.rows && Prefilter.OnOneJob(d.rows[r], d.rows[q])
                  && d.rows[r].raw in t.sources && d.rows[q].raw in t.sources
      ensures t.sources[d.rows[r].raw] == t.sources[d.rows[q].raw]
      ensures Prefilter.SameInput(env, d, d.rows[r], d.rows[q])
    {
      RowsAlike(env, d, t, r, q);
    }
  }
}
