/** The source-discovery loop: cycles, a wake event set from outside, and the handlers a
    reload registers. Every `await` is a point where anything else may run. */
module SourceDiscoveryLoop {
  import opened Sequences

  // --- the loop between awaits ---------------------------------------------------

  /** `Woken` and `TimedOut` are the waiter's result not yet acted on. */
  datatype Pc = Top | Cycle | Reloading | Waiting | Woken | TimedOut | Returned | Cancelled

  /** `hasWake`: the event exists; `fatal`: an error ends the loop (`catch_up_after_source_discovery`).
      `unserved` records a signal that no later cycle has started for, `succeeded` a finished cycle. */
  datatype Loop = Loop(pc: Pc, hasWake: bool, fatal: bool, configured: bool,
                       flag: bool, firstCycle: bool, error: bool, cycles: nat, unserved: bool, succeeded: bool)

  datatype Step =
    | Signal
    | Begin
    | CycleDone(reload: bool)
    | ReloadDone
    | Fail
    | Wake
    | Timeout
    | Resume
    | Cancel

  function Initial(hasWake: bool, fatal: bool, configured: bool): Loop {
    Loop(Top, hasWake, fatal, configured, false, false, false, 0, false, false)
  }

  predicate Running(s: Loop) { !s.pc.Returned? && !s.pc.Cancelled? }

  predicate Enabled(s: Loop, step: Step) {
    match step
    case Signal => s.hasWake
    case Begin => s.pc.Top?
    case CycleDone(_) => s.pc.Cycle?
    case ReloadDone => s.pc.Reloading?
    case Fail => s.pc.Cycle? || s.pc.Reloading?
    case Wake => s.pc.Waiting? && s.hasWake && s.flag
    case Timeout => s.pc.Waiting?
    case Resume => s.pc.Woken? || s.pc.TimedOut?
    case Cancel => Running(s)
  }

  function Next(s: Loop, step: Step): Loop
    requires Enabled(s, step)
  {
    match step
    case Signal => s.(flag := true, unserved := true)
    case Begin =>
      if !s.configured then s.(pc := Returned, firstCycle := true)
      else s.(pc := Cycle, flag := false, cycles := s.cycles + 1, unserved := false)
    case CycleDone(reload) =>
      if reload then s.(pc := Reloading) else s.(pc := Waiting, firstCycle := true, succeeded := true)
    case ReloadDone => s.(pc := Waiting, firstCycle := true, succeeded := true)
    case Fail => if s.fatal then s.(pc := Returned, firstCycle := true, error := true) else s.(pc := Waiting)
    case Wake => s.(pc := Woken)
    case Timeout => s.(pc := TimedOut)
    case Resume => if s.pc.Woken? then s.(pc := Top, flag := false) else s.(pc := Top)
    case Cancel => s.(pc := Cancelled)
  }

  predicate ValidRun(s: Loop, run: seq<Step>)
    decreases |run|
  {
    run == [] || (Enabled(s, run[0]) && ValidRun(Next(s, run[0]), run[1..]))
  }

  function Final(s: Loop, run: seq<Step>): Loop
    requires ValidRun(s, run)
    decreases |run|
  {
    if run == [] then s else Final(Next(s, run[0]), run[1..])
  }

  // --- no wake-up is lost ------------------------------------------------------------

  /** An unserved signal still shows in the event, except between the second clear and the
      cycle it leads to; a set event always stands for an unserved signal. */
  ghost predicate Inv(s: Loop) {
    && (s.flag ==> s.unserved)
    && (s.unserved ==> s.flag || s.pc.Top? || s.pc.Returned? || s.pc.Cancelled?)
    && (s.pc.Woken? ==> s.unserved)
    && (s.pc.Returned? ==> s.firstCycle && (s.error || !s.configured))
    && (s.succeeded ==> s.firstCycle)
    && (s.firstCycle ==> s.succeeded || s.pc.Returned?)
    && (!s.hasWake ==> !s.flag)
    && (s.error ==> s.fatal && s.pc.Returned?)
    && (s.cycles > 0 ==> s.configured)
  }

  lemma StepKeeps(s: Loop, step: Step)
    requires Inv(s) && Enabled(s, step)
    ensures Inv(Next(s, step)) && Next(s, step).cycles >= s.cycles
  {
  }

  lemma {:induction false} RunKeeps(s: Loop, run: seq<Step>)
    requires Inv(s) && ValidRun(s, run)
    ensures Inv(Final(s, run)) && Final(s, run).cycles >= s.cycles
    decreases |run|
  {
    if run != [] {
      StepKeeps(s, run[0]);
      hide Inv, Next, Enabled;
      RunKeeps(Next(s, run[0]), run[1..]);
    }
  }

  /** The loop's own steps left before the next cycle starts. */
  function StepsToBegin(s: Loop): nat {
    match s.pc
    case Cycle => 5
    case Reloading => 4
    case Waiting => 3
    case Woken => 2
    case TimedOut => 2
    case Top => 1
    case Returned => 0
    case Cancelled => 0
  }

  function LoopSteps(run: seq<Step>): nat {
    if run == [] then 0 else (if run[0].Signal? then 0 else 1) + LoopSteps(run[1..])
  }

  lemma StepNearsBegin(s: Loop, step: Step)
    requires Enabled(s, step) && Running(s)
    ensures var n := Next(s, step);
            && n.cycles >= s.cycles
            && (n.cycles > s.cycles || !Running(n)
                || StepsToBegin(n) + (if step.Signal? then 0 else 1) <= StepsToBegin(s))
  {
    match step
    case Signal =>
    case Begin =>
    case CycleDone(_) =>
    case ReloadDone =>
    case Fail =>
    case Wake =>
    case Timeout =>
    case Resume =>
    case Cancel =>
  }

  lemma StepNeverDrops(s: Loop, step: Step)
    requires Enabled(s, step)
    ensures Next(s, step).cycles >= s.cycles
  {
    match step
    case Signal =>
    case Begin =>
    case CycleDone(_) =>
    case ReloadDone =>
    case Fail =>
    case Wake =>
    case Timeout =>
    case Resume =>
    case Cancel =>
  }

  lemma {:induction false} CyclesNeverDrop(s: Loop, run: seq<Step>)
    requires ValidRun(s, run)
    ensures Final(s, run).cycles >= s.cycles
    decreases |run|
  {
    if run != [] {
      StepNeverDrops(s, run[0]);
      hide Next, Enabled;
      CyclesNeverDrop(Next(s, run[0]), run[1..]);
    }
  }

  lemma {:induction false} StaysStopped(s: Loop, run: seq<Step>)
    requires ValidRun(s, run) && !Running(s)
    ensures !Running(Final(s, run))
    decreases |run|
  {
    if run != [] {
      assert !Running(Next(s, run[0]));
      hide Next, Enabled;
      StaysStopped(Next(s, run[0]), run[1..]);
    }
  }

  /** The loop can go on without its timer. */
  predicate CanAdvance(s: Loop) {
    Enabled(s, Begin) || Enabled(s, CycleDone(false)) || Enabled(s, ReloadDone) || Enabled(s, Wake) ||
    Enabled(s, Resume)
  }

  /** In any reachable state a signal no cycle has answered never leaves the loop to its timer,
      and only such a signal can cut the wait short; whoever awaits the first cycle is released
      exactly by a finished cycle or by the loop's own return. */
  lemma NoWakeUpIsLost(hasWake: bool, fatal: bool, configured: bool, run: seq<Step>)
    requires ValidRun(Initial(hasWake, fatal, configured), run)
    ensures var s := Final(Initial(hasWake, fatal, configured), run);
            && (Running(s) && s.unserved ==> CanAdvance(s))
            && (s.pc.Waiting? ==> (CanAdvance(s) <==> s.unserved))
            && (s.firstCycle <==> s.succeeded || s.pc.Returned?)
            && (s.pc.Returned? ==> s.error || !s.configured)
  {
    var s := Initial(hasWake, fatal, configured);
    RunKeeps(s, run);
  }

  /** From a signal no cycle has answered, whatever else happens and the timer included: a cycle has
      started, or the loop has stopped, or it can take another step without its timer, and takes
      fewer than five before the cycle. */
  lemma {:induction false} SignalIsServed(s: Loop, run: seq<Step>)
    requires Inv(s) && s.unserved && ValidRun(s, run)
    ensures var e := Final(s, run);
            || e.cycles > s.cycles || !Running(e)
            || (CanAdvance(e) && e.unserved && LoopSteps(run) + StepsToBegin(e) <= StepsToBegin(s) <= 5)
    decreases |run|
  {
    if run == [] {
      WaitingWakes(s);
    } else if Running(s) {
      var n := Next(s, run[0]);
      StepKeeps(s, run[0]);
      StepNearsBegin(s, run[0]);
      StaysUnserved(s, run[0]);
      hide Next, Enabled, Inv, CanAdvance, StepsToBegin;
      CyclesNeverDrop(n, run[1..]);
      if !Running(n) {
        StaysStopped(n, run[1..]);
      } else if n.cycles == s.cycles {
        SignalIsServed(n, run[1..]);
      }
    } else {
      StaysStopped(s, run);
    }
  }

  /** Only a cycle's start answers a signal. */
  lemma StaysUnserved(s: Loop, step: Step)
    requires Enabled(s, step) && s.unserved
    ensures var n := Next(s, step);
            n.unserved || n.cycles > s.cycles || !Running(n)
  {
    match step
    case Signal =>
    case Begin =>
    case CycleDone(_) =>
    case ReloadDone =>
    case Fail =>
    case Wake =>
    case Timeout =>
    case Resume =>
    case Cancel =>
  }

  lemma WaitingWakes(s: Loop)
    requires Inv(s)
    ensures Running(s) && s.unserved ==> CanAdvance(s) && StepsToBegin(s) <= 5
    ensures s.pc.Waiting? ==> (CanAdvance(s) <==> s.unserved)
  {
  }

  /** Without a signal a waiting loop has only its timer, so the promise above is the signal's doing. */
  lemma OnlySignalsCutTheWait(hasWake: bool, fatal: bool, configured: bool, run: seq<Step>)
    requires ValidRun(Initial(hasWake, fatal, configured), run)
    ensures var s := Final(Initial(hasWake, fatal, configured), run);
            s.pc.Waiting? && !s.unserved ==>
              forall step :: Enabled(s, step) ==> step.Signal? || step.Timeout? || step.Cancel?
  {
    RunKeeps(Initial(hasWake, fatal, configured), run);
  }

  /** A configured loop ends by itself exactly for a failure it treats as fatal: any other failed cycle is
      waited out and retried. */
  lemma {:induction false} FatalFailureEnds(s: Loop, run: seq<Step>)
    requires Inv(s) && s.configured && ValidRun(s, run) && (Running(s) || s.error)
    ensures var e := Final(s, run);
            && (e.pc.Returned? ==> e.fatal && e.error && e.firstCycle)
            && (s.error ==> e.pc.Returned?)
            && (s.fatal && (exists i :: 0 <= i < |run| && run[i].Fail?) ==> e.pc.Returned? && e.error && e.firstCycle)
            && (!s.fatal && (forall i :: 0 <= i < |run| ==> !run[i].Cancel?) && Running(s) ==> Running(e))
    decreases |run|
  {
    if run != [] {
      var n := Next(s, run[0]);
      StepKeeps(s, run[0]);
      StepEnds(s, run[0]);
      assert s.error ==> !Running(s);
      hide Next, Enabled, Inv;
      assert forall i :: 0 <= i < |run[1..]| ==> run[1..][i] == run[i + 1];
      if Running(n) || n.error {
        FatalFailureEnds(n, run[1..]);
        assert forall i :: 0 < i < |run| ==> run[i] == run[1..][i - 1];
      } else {
        CancelledStays(n, run[1..]);
        assert forall i :: 0 < i < |run| ==> run[i] == run[1..][i - 1];
      }
    }
  }

  lemma StepEnds(s: Loop, step: Step)
    requires Inv(s) && s.configured && Enabled(s, step) && (Running(s) || s.error)
    ensures var n := Next(s, step);
            && n.fatal == s.fatal && n.configured
            && (s.error ==> n.error && n.pc.Returned?)
            && (step.Fail? && s.fatal ==> n.error && n.pc.Returned?)
            && (Running(s) && !step.Cancel? && !(step.Fail? && s.fatal) ==> Running(n))
            && (!Running(n) && !n.error ==> n.pc.Cancelled? && step.Cancel?)
  {
    match step
    case Signal =>
    case Begin =>
    case CycleDone(_) =>
    case ReloadDone =>
    case Fail =>
    case Wake =>
    case Timeout =>
    case Resume =>
    case Cancel =>
  }

  lemma {:induction false} CancelledStays(s: Loop, run: seq<Step>)
    requires ValidRun(s, run) && s.pc.Cancelled?
    ensures Final(s, run).pc.Cancelled? && forall i :: 0 <= i < |run| ==> run[i].Signal?
    decreases |run|
  {
    if run != [] {
      assert run[0].Signal?;
      CancelledStays(Next(s, run[0]), run[1..]);
      assert forall i :: 0 < i < |run| ==> run[i] == run[1..][i - 1];
    }
  }

  /** What can come next at each `await`: the timer always, the event only once it is set, and a failure
      in the cycle as well as in the reload after it. */
  lemma NextSteps(s: Loop, reload: bool)
    ensures Enabled(s, Begin) <==> s.pc.Top?
    ensures Enabled(s, CycleDone(reload)) <==> s.pc.Cycle?
    ensures Enabled(s, ReloadDone) <==> s.pc.Reloading?
    ensures Enabled(s, Fail) <==> s.pc.Cycle? || s.pc.Reloading?
    ensures Enabled(s, Timeout) <==> s.pc.Waiting?
    ensures Enabled(s, Wake) <==> s.pc.Waiting? && s.hasWake && s.flag
    ensures Enabled(s, Resume) <==> s.pc.Woken? || s.pc.TimedOut?
    ensures Enabled(s, Cancel) <==> !s.pc.Returned? && !s.pc.Cancelled?
    ensures Enabled(s, Signal) <==> s.hasWake
  {
  }

  /** A cycle that finds something new reloads before it waits, and counts as finished only then; a wake-up
      clears the event again, a timeout leaves it as it is. */
  lemma CycleRules(s: Loop)
    ensures s.pc.Cycle? ==> Next(s, CycleDone(true)) == s.(pc := Reloading)
    ensures s.pc.Cycle? ==> Next(s, CycleDone(false)).pc.Waiting? && Next(s, CycleDone(false)).firstCycle
    ensures s.pc.Reloading? ==> Next(s, ReloadDone).pc.Waiting? && Next(s, ReloadDone).firstCycle
    ensures s.pc.Woken? ==> !Next(s, Resume).flag && Next(s, Resume).pc.Top?
    ensures s.pc.TimedOut? ==> Next(s, Resume).flag == s.flag && Next(s, Resume).pc.Top?
  {
  }

  /** A configured loop starts a cycle with the event cleared, an unconfigured one ends at once; nothing has
      happened before the first step. */
  lemma BeginRules(s: Loop, hasWake: bool, fatal: bool, configured: bool)
    ensures s.pc.Top? && s.configured
            ==> Next(s, Begin) == s.(pc := Cycle, flag := false, cycles := 1 + s.cycles, unserved := false)
    ensures s.pc.Top? && !s.configured ==> Next(s, Begin).pc.Returned? && Next(s, Begin).firstCycle
    ensures var i := Initial(hasWake, fatal, configured);
            i.pc.Top? && i.cycles == 0 && !(i.flag || i.firstCycle || i.error || i.unserved || i.succeeded)
  {
  }

  // --- registering handlers ------------------------------------------------------------

  /** A source, by its stored identifier when it has one, and what it is looked up by. */
  datatype Source = Source(id: Option<int>, lookup: string)

  datatype SourceKey = ById(id: int) | ByLookup(lookup: string)

  /** `_source_identity_key` */
  function IdentityKey(s: Source): SourceKey { if s.id.Some? then ById(s.id.value) else ByLookup(s.lookup) }

  /** The handler's key, `id or lookup`: an identifier of 0 gives way to the lookup. */
  function HandlerKey(s: Source): SourceKey {
    if s.id.Some? && s.id.value != 0 then ById(s.id.value) else ByLookup(s.lookup)
  }

  /** Two sources are one to a reload when they have one identifier, or neither has any and one lookup; to
      the handlers an identifier of 0 is none. */
  lemma KeysTellSourcesApart(s: Source, t: Source)
    ensures IdentityKey(s) == IdentityKey(t)
            <==> s.id == t.id && (s.id.None? ==> s.lookup == t.lookup)
    ensures HandlerKey(s) == HandlerKey(t)
            <==> if s.id.Some? && s.id.value != 0 then s.id == t.id
                 else (t.id.None? || t.id.value == 0) && s.lookup == t.lookup
  {
  }

  /** The collector's source state. `handlers` lists the registered listeners' keys. */
  class SourceRegistry {
    var active: seq<Source>
    var registered: set<SourceKey>
    var handlers: seq<SourceKey>
    var caughtUp: set<SourceKey>

    /** Each registered key has exactly one listener. */
    ghost predicate Valid()
      reads this
    {
      NoDup(handlers) && forall k :: k in registered <==> k in handlers
    }

    constructor ()
      ensures Valid() && active == [] && handlers == [] && caughtUp == {}
    {
      active, registered, handlers, caughtUp := [], {}, [], {};
    }

    /** `_register_source_handlers`: keep the sources that resolve, and listen once to each new key. */
    method RegisterSourceHandlers(sources: seq<Source>, resolves: Source -> bool)
      requires Valid()
      modifies this`active, this`registered, this`handlers
      ensures Valid() && active == Filter(sources, resolves)
      ensures handlers == FromKeys(old(handlers) + HandlerKeys(Filter(sources, resolves)))
    {
      var found: seq<Source> := [];
      hide FromKeys, HandlerKeys, Filter, NoDup, HandlerKey;
      NothingFound(handlers, sources, resolves);
      for i := 0 to |sources|
        invariant Valid() && found == Filter(sources[..i], resolves)
        invariant handlers == FromKeys(old(handlers) + HandlerKeys(found))
      {
        assert sources[..i + 1] == sources[..i] + [sources[i]];
        FilterPush(sources[..i], sources[i], resolves);
        if resolves(sources[i]) {
          KeysPush(old(handlers), found, sources[i]);
          found := found + [sources[i]];
          Listen(HandlerKey(sources[i]));
        }
      }
      assert sources[..|sources|] == sources;
      active := found;
    }

    /** Register a listener for the key unless it has one. */
    method Listen(key: SourceKey)
      requires Valid()
      modifies this`registered, this`handlers
      ensures Valid() && handlers == if key in old(handlers) then old(handlers) else old(handlers) + [key]
    {
      if key !in registered {
        NoDupConcat(handlers, [key]);
        handlers := handlers + [key];
        registered := registered + {key};
      }
    }

    /** `_reload_approved_sources`: re-register, then catch up on what was not active before. */
    method ReloadApprovedSources(sources: seq<Source>, resolves: Source -> bool, catchUp: bool)
      returns (added: seq<Source>)
      requires Valid()
      modifies this
      ensures Valid() && active == Filter(sources, resolves)
      ensures handlers == FromKeys(old(handlers) + HandlerKeys(active))
      ensures added == Filter(active, NotAmong(IdentityKeys(old(active))))
      ensures caughtUp == old(caughtUp) + if catchUp then (set s | s in added :: IdentityKey(s)) else {}
    {
      var previous := IdentityKeys(active);
      RegisterSourceHandlers(sources, resolves);
      added := Filter(active, NotAmong(previous));
      if added != [] && catchUp {
        caughtUp := caughtUp + set s | s in added :: IdentityKey(s);
      }
    }
  }

  function NotAmong(keys: seq<SourceKey>): Source -> bool { (s: Source) => IdentityKey(s) !in keys }

  function IdentityKeys(sources: seq<Source>): seq<SourceKey> { Map(IdentityKey, sources) }

  /** A reload adds the active sources that are none of those active before: no identifier, or else no
      lookup, is shared. */
  lemma AddedAreNew(before: seq<Source>, active: seq<Source>, s: Source)
    ensures s in Filter(active, NotAmong(IdentityKeys(before)))
            <==> s in active && forall o :: o in before ==>
                   o.id != s.id || (s.id.None? && o.lookup != s.lookup)
  {
    var keys := IdentityKeys(before);
    forall o | o in before
      ensures IdentityKey(o) in keys
    {
      var i :| 0 <= i < |before| && before[i] == o;
      assert keys[i] == IdentityKey(o);
    }
    if IdentityKey(s) in keys {
      var i :| 0 <= i < |keys| && keys[i] == IdentityKey(s);
      assert before[i] in before && IdentityKey(before[i]) == IdentityKey(s);
    }
  }

  function HandlerKeys(sources: seq<Source>): seq<SourceKey> { Map(HandlerKey, sources) }

  lemma NothingFound(handlers: seq<SourceKey>, sources: seq<Source>, resolves: Source -> bool)
    requires NoDup(handlers)
    ensures FromKeys(handlers + HandlerKeys([])) == handlers && Filter(sources[..0], resolves) == []
  {
    FromKeysOfDistinct(handlers);
    assert handlers + HandlerKeys([]) == handlers;
  }

  lemma KeysPush(handlers: seq<SourceKey>, found: seq<Source>, s: Source)
    ensures FromKeys(handlers + HandlerKeys(found + [s]))
         == if HandlerKey(s) in FromKeys(handlers + HandlerKeys(found)) then FromKeys(handlers + HandlerKeys(found))
            else FromKeys(handlers + HandlerKeys(found)) + [HandlerKey(s)]
  {
    var all := handlers + HandlerKeys(found);
    assert handlers + HandlerKeys(found + [s]) == all + [HandlerKey(s)];
    assert (all + [HandlerKey(s)])[..|all|] == all;
  }
}
