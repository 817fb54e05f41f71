/** A load stage: workers share a queue of indexes, interleaving at each `await`. */
module LoadEvaluation {
  import opened Sequences

  // --- handler results -----------------------------------------------------------

  datatype Item = AICall(id: nat) | Foreign

  datatype HandlerResult = Nothing | Single(call: nat) | Several(items: seq<Item>) | Raised(kind: string)

  /** `_observations`: the calls a handler returned, or the kind of error it counts as. */
  function Observations(r: HandlerResult): Result<seq<nat>, string> {
    match r
    case Nothing => Success([])
    case Single(call) => Success([call])
    case Several(items) =>
      if forall i :: 0 <= i < |items| ==> items[i].AICall? then
        Success(seq(|items|, i requires 0 <= i < |items| => if items[i].AICall? then items[i].id else 0))
      else Failure("LoadEvaluationError")
    case Raised(kind) => Failure(kind)
  }

  // --- the pool --------------------------------------------------------------------

  datatype Worker = Ready | Running(index: nat) | Exited

  datatype Handled = Handled(index: nat, result: HandlerResult)

  /** `log` lists the handled items in the order they finished. */
  datatype Pool = Pool(queue: seq<nat>, workers: map<nat, Worker>, maxBacklog: nat, completed: nat, failed: nat,
                       failureTypes: set<string>, latencies: nat, observations: seq<nat>, log: seq<Handled>)

  function Min(a: nat, b: nat): nat { if a < b then a else b }

  function Range(from: nat, to: nat): (r: seq<nat>)
    requires from <= to
    ensures |r| == to - from && forall i :: 0 <= i < |r| ==> r[i] == from + i
  {
    seq(to - from, i requires 0 <= i => from + i)
  }

  function UpTo(n: nat): (r: set<nat>)
    ensures |r| == n && forall w: nat :: w in r <==> w < n
  {
    if n == 0 then {}
    else
      var rest := UpTo(n - 1);
      assert n - 1 !in rest;
      rest + {n - 1}
  }

  function Initial(requested: nat, concurrency: nat): Pool {
    Pool(Range(0, requested), map w | w in UpTo(Min(concurrency, requested)) :: Ready, requested, 0, 0, {}, 0, [], [])
  }

  datatype Step = Take(w: nat) | Finish(w: nat, result: HandlerResult) | Exit(w: nat)

  predicate Enabled(s: Pool, step: Step) {
    && step.w in s.workers
    && match step
       case Take(w) => s.workers[w].Ready? && s.queue != []
       case Finish(w, _) => s.workers[w].Running?
       case Exit(w) => s.workers[w].Ready? && s.queue == []
  }

  function Next(s: Pool, step: Step): Pool
    requires Enabled(s, step)
  {
    match step
    case Take(w) =>
      s.(queue := s.queue[1..], workers := s.workers[w := Running(s.queue[0])],
         maxBacklog := if s.maxBacklog < |s.queue| then |s.queue| else s.maxBacklog)
    case Finish(w, result) =>
      var calls := Observations(result);
      s.(workers := s.workers[w := Ready], latencies := s.latencies + 1,
         completed := s.completed + (if calls.Success? then 1 else 0),
         failed := s.failed + (if calls.Success? then 0 else 1),
         failureTypes := if calls.Success? then s.failureTypes else s.failureTypes + {calls.error},
         observations := if calls.Success? then s.observations + calls.value else s.observations,
         log := s.log + [Handled(s.workers[w].index, result)])
    case Exit(w) => s.(workers := s.workers[w := Exited])
  }

  predicate ValidRun(s: Pool, run: seq<Step>)
    decreases |run|
  {
    run == [] || (Enabled(s, run[0]) && ValidRun(Next(s, run[0]), run[1..]))
  }

  function Final(s: Pool, run: seq<Step>): Pool
    requires ValidRun(s, run)
    decreases |run|
  {
    if run == [] then s else Final(Next(s, run[0]), run[1..])
  }

  // --- what the log adds up to -------------------------------------------------------

  function Indexes(log: seq<Handled>): seq<nat> { Map((h: Handled) => h.index, log) }

  predicate Succeeded(h: Handled) { Observations(h.result).Success? }

  function SucceededCount(log: seq<Handled>): nat {
    if log == [] then 0 else SucceededCount(log[..|log| - 1]) + if Succeeded(log[|log| - 1]) then 1 else 0
  }

  function Outputs(log: seq<Handled>): seq<nat> {
    if log == [] then []
    else Outputs(log[..|log| - 1]) + if Succeeded(log[|log| - 1]) then Observations(log[|log| - 1].result).value else []
  }

  function ErrorKinds(log: seq<Handled>): set<string> {
    set h | h in log && !Succeeded(h) :: Observations(h.result).error
  }

  // --- the inductive invariant ---------------------------------------------------------

  predicate RunsIndex(s: Pool, w: nat, i: nat) { w in s.workers && s.workers[w] == Running(i) }

  /** Indexes below `taken` are each handled or in one worker's hands, and never both. */
  ghost predicate Shared(s: Pool, taken: nat) {
    && NoDup(Indexes(s.log))
    && (forall i :: i in Indexes(s.log) ==> i < taken)
    && (forall w, i: nat :: RunsIndex(s, w, i) ==> i < taken && i !in Indexes(s.log))
    && (forall v, w, i :: RunsIndex(s, v, i) && RunsIndex(s, w, i) ==> v == w)
    && (forall i :: 0 <= i < taken && i !in Indexes(s.log) ==> exists w :: RunsIndex(s, w, i))
  }

  ghost predicate Counted(s: Pool) {
    && s.completed == SucceededCount(s.log) && s.completed + s.failed == s.latencies == |s.log|
    && s.observations == Outputs(s.log) && s.failureTypes == ErrorKinds(s.log)
  }

  ghost predicate Inv(s: Pool, requested: nat, concurrency: nat) {
    && |s.queue| <= requested && s.queue == Range(requested - |s.queue|, requested)
    && s.workers.Keys == UpTo(Min(concurrency, requested))
    && s.maxBacklog == requested
    && (forall w :: w in s.workers && s.workers[w].Exited? ==> s.queue == [])
    && Shared(s, requested - |s.queue|) && Counted(s)
  }

  lemma {:induction false} InitialInv(requested: nat, concurrency: nat)
    ensures Inv(Initial(requested, concurrency), requested, concurrency)
  {
  }

  lemma LogPush(log: seq<Handled>, h: Handled)
    ensures Indexes(log + [h]) == Indexes(log) + [h.index]
    ensures SucceededCount(log + [h]) == SucceededCount(log) + if Succeeded(h) then 1 else 0
    ensures Outputs(log + [h]) == Outputs(log) + if Succeeded(h) then Observations(h.result).value else []
    ensures ErrorKinds(log + [h]) == ErrorKinds(log) + if Succeeded(h) then {} else {Observations(h.result).error}
  {
    assert (log + [h])[..|log|] == log;
  }

  lemma TakeKeeps(s: Pool, w: nat, requested: nat, concurrency: nat)
    requires Inv(s, requested, concurrency) && Enabled(s, Take(w))
    ensures Inv(Next(s, Take(w)), requested, concurrency)
  {
    var t := Next(s, Take(w));
    var i := requested - |s.queue|;
    assert s.queue[0] == i;
    assert t.workers.Keys == s.workers.Keys;
    forall j | 0 <= j <= i && j !in Indexes(t.log)
      ensures exists v :: RunsIndex(t, v, j)
    {
      if j == i {
        assert RunsIndex(t, w, i);
      } else {
        var v :| RunsIndex(s, v, j);
        assert RunsIndex(t, v, j);
      }
    }
    forall v, j | RunsIndex(t, v, j)
      ensures v == w || RunsIndex(s, v, j)
    {
    }
  }

  lemma FinishShares(s: Pool, w: nat, result: HandlerResult, taken: nat)
    requires Shared(s, taken) && Enabled(s, Finish(w, result))
    ensures Shared(Next(s, Finish(w, result)), taken)
  {
    var t := Next(s, Finish(w, result));
    var i := s.workers[w].index;
    LogPush(s.log, Handled(i, result));
    assert RunsIndex(s, w, i);
    NoDupConcat(Indexes(s.log), [i]);
    hide Observations, Outputs, SucceededCount, ErrorKinds, Succeeded, Indexes;
    forall v, j: nat | RunsIndex(t, v, j)
      ensures RunsIndex(s, v, j) && v != w
    {
    }
    forall j | 0 <= j < taken && j !in Indexes(t.log)
      ensures exists v :: RunsIndex(t, v, j)
    {
      var v :| RunsIndex(s, v, j);
      assert RunsIndex(t, v, j);
    }
  }

  lemma FinishCounts(s: Pool, w: nat, result: HandlerResult)
    requires Counted(s) && Enabled(s, Finish(w, result))
    ensures Counted(Next(s, Finish(w, result)))
  {
    LogPush(s.log, Handled(s.workers[w].index, result));
    hide Outputs, SucceededCount, ErrorKinds, Observations;
  }

  lemma FinishFrame(s: Pool, w: nat, result: HandlerResult)
    requires Enabled(s, Finish(w, result))
    ensures var t := Next(s, Finish(w, result));
            && t.queue == s.queue && t.maxBacklog == s.maxBacklog && t.workers.Keys == s.workers.Keys
            && forall v :: v in t.workers && t.workers[v].Exited? ==> v in s.workers && s.workers[v].Exited?
  {
  }

  lemma FinishKeeps(s: Pool, w: nat, result: HandlerResult, requested: nat, concurrency: nat)
    requires Inv(s, requested, concurrency) && Enabled(s, Finish(w, result))
    ensures Inv(Next(s, Finish(w, result)), requested, concurrency)
  {
    hide Shared, Counted, UpTo, Range;
    FinishShares(s, w, result, requested - |s.queue|);
    FinishCounts(s, w, result);
    FinishFrame(s, w, result);
    hide Next;
  }

  lemma ExitKeeps(s: Pool, w: nat, requested: nat, concurrency: nat)
    requires Inv(s, requested, concurrency) && Enabled(s, Exit(w))
    ensures Inv(Next(s, Exit(w)), requested, concurrency)
  {
    var t := Next(s, Exit(w));
    assert t.workers.Keys == s.workers.Keys;
    forall v, j
      ensures RunsIndex(t, v, j) == RunsIndex(s, v, j)
    {
    }
  }

  lemma StepKeeps(s: Pool, step: Step, requested: nat, concurrency: nat)
    requires Inv(s, requested, concurrency) && Enabled(s, step)
    ensures Inv(Next(s, step), requested, concurrency)
  {
    hide Inv, Next;
    match step {
      case Take(w) => TakeKeeps(s, w, requested, concurrency);
      case Finish(w, result) => FinishKeeps(s, w, result, requested, concurrency);
      case Exit(w) => ExitKeeps(s, w, requested, concurrency);
    }
  }

  lemma {:induction false} RunKeeps(s: Pool, run: seq<Step>, requested: nat, concurrency: nat)
    requires Inv(s, requested, concurrency) && ValidRun(s, run)
    ensures Inv(Final(s, run), requested, concurrency)
    decreases |run|
  {
    if run != [] {
      hide Inv, Next;
      StepKeeps(s, run[0], requested, concurrency);
      RunKeeps(Next(s, run[0]), run[1..], requested, concurrency);
    }
  }

  // --- termination ---------------------------------------------------------------------

  ghost function RunningWorkers(s: Pool): set<nat> { set w | w in s.workers && s.workers[w].Running? }

  ghost function ReadyWorkers(s: Pool): set<nat> { set w | w in s.workers && s.workers[w].Ready? }

  ghost function Remaining(s: Pool): nat { 3 * |s.queue| + 2 * |RunningWorkers(s)| + |ReadyWorkers(s)| }

  lemma StepDescends(s: Pool, step: Step)
    requires Enabled(s, step)
    ensures Remaining(Next(s, step)) < Remaining(s)
  {
    var t := Next(s, step);
    var w := step.w;
    assert t.workers.Keys == s.workers.Keys && forall v :: v in s.workers && v != w ==> t.workers[v] == s.workers[v];
    MoveWorker(s, t, w);
  }

  /** One worker changes state: the two counts move by that worker alone. */
  lemma MoveWorker(s: Pool, t: Pool, w: nat)
    requires w in s.workers && t.workers.Keys == s.workers.Keys
    requires forall v :: v in s.workers && v != w ==> t.workers[v] == s.workers[v]
    ensures |RunningWorkers(t)| - (if t.workers[w].Running? then 1 else 0)
            == |RunningWorkers(s)| - (if s.workers[w].Running? then 1 else 0)
    ensures |ReadyWorkers(t)| - (if t.workers[w].Ready? then 1 else 0)
            == |ReadyWorkers(s)| - (if s.workers[w].Ready? then 1 else 0)
  {
    assert w in RunningWorkers(s) <==> s.workers[w].Running?;
    assert w in RunningWorkers(t) <==> t.workers[w].Running?;
    assert w in ReadyWorkers(s) <==> s.workers[w].Ready?;
    assert w in ReadyWorkers(t) <==> t.workers[w].Ready?;
    OthersStay(s, t, w);
    hide RunningWorkers, ReadyWorkers;
    Without(RunningWorkers(s), w);
    Without(RunningWorkers(t), w);
    Without(ReadyWorkers(s), w);
    Without(ReadyWorkers(t), w);
  }

  lemma OthersStay(s: Pool, t: Pool, w: nat)
    requires w in s.workers && t.workers.Keys == s.workers.Keys
    requires forall v :: v in s.workers && v != w ==> t.workers[v] == s.workers[v]
    ensures RunningWorkers(t) - {w} == RunningWorkers(s) - {w}
    ensures ReadyWorkers(t) - {w} == ReadyWorkers(s) - {w}
  {
    forall v
      ensures v in RunningWorkers(t) - {w} <==> v in RunningWorkers(s) - {w}
      ensures v in ReadyWorkers(t) - {w} <==> v in ReadyWorkers(s) - {w}
    {
      assert v in t.workers.Keys <==> v in s.workers.Keys;
    }
  }

  lemma Without(a: set<nat>, w: nat)
    ensures |a - {w}| == |a| - if w in a then 1 else 0
  {
    if w in a {
      assert a == (a - {w}) + {w};
    } else {
      assert a - {w} == a;
    }
  }

  lemma {:induction false} RunDescends(s: Pool, run: seq<Step>)
    requires ValidRun(s, run)
    ensures |run| <= Remaining(s)
    decreases |run|
  {
    if run != [] {
      StepDescends(s, run[0]);
      RunDescends(Next(s, run[0]), run[1..]);
    }
  }

  /** Every interleaving ends: no run is longer than three steps an index and one a worker. */
  lemma StageTerminates(requested: nat, concurrency: nat, run: seq<Step>)
    requires ValidRun(Initial(requested, concurrency), run)
    ensures |run| <= 3 * requested + Min(concurrency, requested)
  {
    var s := Initial(requested, concurrency);
    RunDescends(s, run);
    assert ReadyWorkers(s) == UpTo(Min(concurrency, requested));
    assert RunningWorkers(s) == {};
  }

  /** At any moment no more than min(concurrency, requested) items are in flight, and none twice. */
  lemma InFlightBound(requested: nat, concurrency: nat, run: seq<Step>)
    requires ValidRun(Initial(requested, concurrency), run)
    ensures var s := Final(Initial(requested, concurrency), run);
            && |RunningWorkers(s)| <= Min(concurrency, requested)
            && (forall v, w ::
                v in RunningWorkers(s) && w in RunningWorkers(s) && s.workers[v].index == s.workers[w].index ==>
                  v == w)
            && (forall w :: w in RunningWorkers(s) ==>
                  s.workers[w].index < requested && s.workers[w].index !in Indexes(s.log))
            && NoDup(Indexes(s.log))
  {
    InitialInv(requested, concurrency);
    RunKeeps(Initial(requested, concurrency), run, requested, concurrency);
    var s := Final(Initial(requested, concurrency), run);
    SubsetCardinality(RunningWorkers(s), s.workers.Keys);
    forall w | w in RunningWorkers(s)
      ensures RunsIndex(s, w, s.workers[w].index)
    {
    }
  }

  ghost predicate Stuck(s: Pool) { forall step :: !Enabled(s, step) }

  /** The pool stops only once every worker has returned. */
  lemma StuckMeansDone(s: Pool)
    ensures Stuck(s) <==> forall w :: w in s.workers ==> s.workers[w].Exited?
  {
    if Stuck(s) {
      forall w | w in s.workers
        ensures s.workers[w].Exited?
      {
        assert !Enabled(s, Take(w)) && !Enabled(s, Exit(w)) && !Enabled(s, Finish(w, Nothing));
      }
    }
  }

  /** However the workers interleaved, once the stage can go no further every index has been
      handled exactly once and the reported figures are the true ones. */
  lemma StageResult(requested: nat, concurrency: nat, run: seq<Step>)
    requires concurrency > 0
    requires ValidRun(Initial(requested, concurrency), run) && Stuck(Final(Initial(requested, concurrency), run))
    ensures var s := Final(Initial(requested, concurrency), run);
            && multiset(Indexes(s.log)) == multiset(Range(0, requested))
            && s.completed == SucceededCount(s.log) && s.completed + s.failed == requested == s.latencies
            && s.queue == [] && s.maxBacklog == requested
            && s.observations == Outputs(s.log) && s.failureTypes == ErrorKinds(s.log)
  {
    InitialInv(requested, concurrency);
    RunKeeps(Initial(requested, concurrency), run, requested, concurrency);
    var s := Final(Initial(requested, concurrency), run);
    StuckMeansDone(s);
    if requested > 0 {
      assert 0 in UpTo(Min(concurrency, requested));
      assert s.workers[0].Exited?;
    }
    assert s.queue == [];
    forall i
      ensures i in Indexes(s.log) <==> i in Range(0, requested)
    {
      if 0 <= i < requested {
        assert Range(0, requested)[i] == i;
        assert !exists w :: RunsIndex(s, w, i);
      }
    }
    NoDupPermutation(Indexes(s.log), Range(0, requested));
    assert |multiset(Indexes(s.log))| == |s.log| && |multiset(Range(0, requested))| == requested;
  }

  // --- what counts as failed ------------------------------------------------------------

  /** The handler raised, or returned something that is no call. */
  predicate Broken(h: Handled) {
    h.result.Raised? || (h.result.Several? && exists i | 0 <= i < |h.result.items| :: h.result.items[i].Foreign?)
  }

  /** The handler returned this call. */
  predicate Returned(h: Handled, id: nat) {
    h.result == Single(id) || (h.result.Several? && AICall(id) in h.result.items)
  }

  /** The item counts under this kind of error: the one raised, or the stage's own for a foreign item. */
  predicate FailedAs(h: Handled, kind: string) {
    h.result == Raised(kind) || (kind == "LoadEvaluationError" && h.result.Several? && Broken(h))
  }

  lemma OutcomeRule(h: Handled)
    ensures Observations(h.result).Failure? <==> Broken(h)
    ensures !Broken(h) ==> forall id :: id in Observations(h.result).value <==> Returned(h, id)
    ensures Broken(h) ==> forall kind :: kind == Observations(h.result).error <==> FailedAs(h, kind)
  {
    match h.result
    case Nothing =>
    case Single(call) =>
    case Several(items) =>
      if !Broken(h) {
        var calls := Observations(h.result).value;
        assert forall i :: 0 <= i < |items| ==> items[i] == AICall(calls[i]);
        forall id
          ensures id in calls <==> AICall(id) in items
        {
          if AICall(id) in items {
            var i :| 0 <= i < |items| && items[i] == AICall(id);
            assert calls[i] == id;
          }
        }
      }
    case Raised(kind) =>
  }

  lemma {:induction false} LogRule(log: seq<Handled>)
    ensures SucceededCount(log) + |Filter(log, Broken)| == |log|
    ensures forall id :: id in Outputs(log) <==> exists h :: h in log && !Broken(h) && Returned(h, id)
  {
    if log != [] {
      var before, h := log[..|log| - 1], log[|log| - 1];
      assert log == before + [h];
      LogRule(before);
      OutcomeRule(h);
      FilterPush(before, h, Broken);
      hide Observations, Broken, Returned;
    }
  }

  /** A stage reports as failed just the items whose handler raised or returned something foreign, by
      their kinds, and as observations just the calls the others returned. */
  lemma StageReportsFailures(requested: nat, concurrency: nat, run: seq<Step>)
    requires concurrency > 0
    requires ValidRun(Initial(requested, concurrency), run) && Stuck(Final(Initial(requested, concurrency), run))
    ensures var s := Final(Initial(requested, concurrency), run);
            && s.failed == |Filter(s.log, Broken)| && s.completed == requested - |Filter(s.log, Broken)|
            && (forall kind :: kind in s.failureTypes <==> exists h :: h in s.log && FailedAs(h, kind))
            && (forall id :: id in s.observations <==> exists h :: h in s.log && !Broken(h) && Returned(h, id))
  {
    var s := Final(Initial(requested, concurrency), run);
    StageResult(requested, concurrency, run);
    LogSize(requested, s.log);
    LogRule(s.log);
    hide Final, ValidRun, Stuck, SucceededCount, Outputs, Filter;
    KindsRule(s.log);
  }

  lemma LogSize(requested: nat, log: seq<Handled>)
    requires multiset(Indexes(log)) == multiset(Range(0, requested))
    ensures |log| == requested
  {
    assert |multiset(Indexes(log))| == |log| && |multiset(Range(0, requested))| == requested;
  }

  lemma KindsRule(log: seq<Handled>)
    ensures forall kind :: kind in ErrorKinds(log) <==> exists h :: h in log && FailedAs(h, kind)
  {
    forall kind
      ensures kind in ErrorKinds(log) <==> exists h :: h in log && FailedAs(h, kind)
    {
      forall h
        ensures !Succeeded(h) && Observations(h.result).error == kind <==> FailedAs(h, kind)
      {
        OutcomeRule(h);
      }
      hide Observations, FailedAs;
    }
  }
}
