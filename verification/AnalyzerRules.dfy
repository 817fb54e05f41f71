/** Which jobs, calls and cached envelopes a configuration accepts, said of versions and identities. */
module AnalyzerRules {
  import opened Sequences
  import opened OpportunityAnalysis
  import opened AnalysisTables
  import opened AnalysisReplay

  // --- jobs ----------------------------------------------------------------------------

  /** The route's version, cut to 50 characters, and the configuration's digest. */
  predicate Versioned(version: string, base: string, digest: string) {
    version == (if |base| <= 50 then base else base[..50]) + "." + digest
  }

  /** The configuration that jobs were queued for before versions carried digests. */
  predicate BareDefault(x: Texts, version: string, route: Identity) {
    && version == "opportunity-analyzer.v1" && route.analyzerVersion == "opportunity-analyzer.v1"
    && route.provider == "openai" && route.model == x.defaultModel && route.promptVersion == x.defaultPrompt
    && route.schemaVersion == "opportunity_analysis.v1"
  }

  /** The identity a configuration answers under. */
  function RouteOf(a: Analyzer): Identity { if a.Plain? then a.route else a.primary }

  /** A run begins exactly for a job on record whose version is this configuration's own, that of its
      primary route alone, or the bare default for the default route, and whose schema is the
      configuration's or the legacy one. */
  lemma JobsBegunAreOwn(x: Texts, t: Tables, a: Analyzer, job: nat)
    ensures Begin(x, t, a, job).Success?
            <==> job in t.jobs &&
                 var key, route := t.jobs[job].key, RouteOf(a);
                 && (|| Versioned(key.analyzerVersion, route.analyzerVersion, x.digest(a))
                     || (a.Routed? && Versioned(key.analyzerVersion, route.analyzerVersion, x.digest(Plain(a.primary))))
                     || BareDefault(x, key.analyzerVersion, route))
                 && (key.schemaVersion == route.schemaVersion || key.schemaVersion == "opportunity-analysis.v1")
  {
  }

  /** Before any answer of the analyzer, a run of a job under another version changes nothing. */
  lemma ForeignJobIsRefused(x: Texts, t: Tables, a: Analyzer, job: nat, reply: Reply, grounded: bool, id: nat,
                            draws: Draws)
    requires job in t.jobs
    requires !Versioned(t.jobs[job].key.analyzerVersion, RouteOf(a).analyzerVersion, x.digest(a))
    requires a.Routed? ==>
               !Versioned(t.jobs[job].key.analyzerVersion, RouteOf(a).analyzerVersion, x.digest(Plain(a.primary)))
    requires !BareDefault(x, t.jobs[job].key.analyzerVersion, RouteOf(a))
    ensures RunAlone(x, t, a, job, reply, grounded, id, draws) == Failure(IncompatibleJob)
  {
    JobsBegunAreOwn(x, t, a, job);
    hide Versioned, BareDefault, Persisted;
  }

  /** Two plain configurations whose digests differ, neither the default route, never both begin one job. */
  lemma PlainsDoNotShareJobs(x: Texts, t: Tables, a: Analyzer, b: Analyzer, job: nat)
    requires a.Plain? && b.Plain? && |x.digest(a)| == |x.digest(b)| && x.digest(a) != x.digest(b)
    requires Begin(x, t, a, job).Success? && Begin(x, t, b, job).Success?
    ensures BareDefault(x, t.jobs[job].key.analyzerVersion, a.route)
            || BareDefault(x, t.jobs[job].key.analyzerVersion, b.route)
  {
    JobsBegunAreOwn(x, t, a, job);
    JobsBegunAreOwn(x, t, b, job);
    var v := t.jobs[job].key.analyzerVersion;
    DigestIsLast(v, a.route.analyzerVersion, x.digest(a));
    DigestIsLast(v, b.route.analyzerVersion, x.digest(b));
    hide BareDefault, Begin, Versioned;
  }

  lemma DigestIsLast(version: string, base: string, digest: string)
    ensures Versioned(version, base, digest) ==>
              |digest| <= |version| && version[|version| - |digest|..] == digest
  {
  }

  // --- calls and envelopes -----------------------------------------------------------------

  /** Some route of a routed configuration answered, under its routing version. */
  predicate RoutedBy(a: Analyzer, identity: Identity, routing: string) {
    a.Routed? && routing == a.routingVersion
    && (identity == a.primary || (a.fallback.Some? && identity == a.fallback.value))
  }

  /** In a reachable state an answer is taken exactly when it is grounded, of the current schema, and under
      the identity of the plain route or of a route in its routing version. */
  lemma AnswersTakenAreOwn(x: Texts, t: Tables, l: Attempt, reply: Reply, grounded: bool)
    requires AttemptOk(x, t, l) && l.Loaded?
    ensures ReadCache(x, t, l, reply, grounded).Success?
            <==> reply.Replied? && grounded && reply.call.analysis.schemaVersion == "opportunity_analysis.v1"
                 && (if l.analyzer.Plain? then reply.call.identity == l.analyzer.route
                     else RoutedBy(l.analyzer, reply.call.identity, reply.call.routingVersion))
  {
    hide SupportsJob;
  }

  /** A cached envelope is replayed exactly when it names the configuration's own identity, or a route of it
      in its routing version. */
  lemma EnvelopesReplayedAreOwn(x: Texts, t: Tables, l: Attempt, draws: Draws)
    requires TablesOk(x, t) && AttemptOk(x, t, l) && l.Loaded? && l.cached.Some?
             && Listed(t.jobs, l.job, draws.messages)
    ensures var e := l.cached.value.envelope;
            && (Complete(x, t, l, draws).Success?
                <==> e.identity == RouteOf(l.analyzer) || RoutedBy(l.analyzer, e.identity, e.routingVersion))
            && (Complete(x, t, l, draws).Success? ==> Complete(x, t, l, draws).value.1.analysis == e.analysis)
  {
    CompleteOk(x, t, l, draws);
    hide TablesOk, AttemptOk, Complete, SupportsJob, Extends;
  }

  /** Whichever route of a sound configuration answered, the versions are those of its identity. */
  lemma RoutesShareVersions(a: Analyzer, call: Call)
    requires a.Valid() && a.AcceptsCall(call)
    ensures call.identity.analyzerVersion == RouteOf(a).analyzerVersion
    ensures call.identity.promptVersion == RouteOf(a).promptVersion
    ensures call.identity.schemaVersion == RouteOf(a).schemaVersion
    ensures a.Routed? ==> RouteOf(a).schemaVersion == "opportunity_analysis.v1"
  {
  }

  /** What is stored is the call: its analysis, its identity and details, its routing, under the job's version. */
  lemma StoredEnvelopeIsCall(x: Texts, t: Tables, l: Attempt, reply: Reply, grounded: bool)
    requires l.Loaded? && ReadCache(x, t, l, reply, grounded).Success?
    ensures var e := ReadCache(x, t, l, reply, grounded).value.envelope;
            && e.analysis == reply.call.analysis && e.identity == reply.call.identity && e.details == reply.call.details
            && e.routingVersion == reply.call.routingVersion && e.routeReason == reply.call.routeReason
            && e.cacheVersion == l.key.analyzerVersion
  {
    hide SupportsJob;
  }

  /** A routed configuration answers with the primary's analysis unless it is below the threshold and the
      fallback has one; a failed fallback fails the call, an exhausted budget keeps the primary's. */
  lemma RoutedAnswer(a: Analyzer, first: Reply, second: Reply)
    requires a.Routed? && first.Replied?
    ensures var reply := Analyze(a, first, second);
            var low := a.fallback.Some? && first.call.analysis.confidence < a.threshold;
            && (!low || second.BudgetExceeded? ==>
                  reply.Replied? && reply.call.analysis == first.call.analysis
                  && reply.call.identity == first.call.identity)
            && (low && second.Replied? ==>
                  reply.Replied? && reply.call.analysis == second.call.analysis
                  && reply.call.identity == second.call.identity)
            && (low && second.Failed? ==> reply.Failed?)
            && (reply.Replied? ==>
                  && reply.call.routingVersion == a.routingVersion
                  && reply.call.routeReason == (if !low then "primary_confident"
                                                else if second.Replied? then "low_confidence_fallback"
                                                else "fallback_budget_exhausted"))
  {
  }

  /** Without a route to choose, or without a first answer, the first reply stands. */
  lemma UnroutedAnswer(a: Analyzer, first: Reply, second: Reply)
    requires a.Plain? || !first.Replied?
    ensures Analyze(a, first, second) == first
  {
  }

  /** A routed configuration is sound exactly when its primary is on the current schema and its fallback, if
      any, on the same versions; a plain one always is. */
  lemma SoundConfigurations(a: Analyzer)
    ensures a.Valid()
            <==> a.Plain? ||
                 (&& a.primary.schemaVersion == "opportunity_analysis.v1"
                  && (a.fallback.Some? ==>
                        && a.fallback.value.analyzerVersion == a.primary.analyzerVersion
                        && a.fallback.value.promptVersion == a.primary.promptVersion
                        && a.fallback.value.schemaVersion == a.primary.schemaVersion))
  {
  }

  /** Identifiers can be written so that they are read back, as sound texts demand. */
  lemma SoundTextsExist(digest: Analyzer -> string, model: string, prompt: string) returns (x: Texts)
    ensures x.Valid() && x.digest == digest && x.defaultModel == model && x.defaultPrompt == prompt
  {
    x := Texts(digest, model, prompt, (id: nat) => seq(id, _ => '|'), (s: string) => Some(|s|));
  }

  ghost predicate SoundlyConfigured(s: State) { forall w :: w in s.workers ==> s.workers[w].analyzer.Valid() }

  lemma StepKeepsConfigured(x: Texts, s: State, step: Step)
    requires Enabled(x, s, step) && SoundlyConfigured(s)
    ensures SoundlyConfigured(Next(x, s, step))
  {
    hide SupportsJob, Complete;
  }

  lemma {:induction false} RunKeepsConfigured(x: Texts, s: State, run: seq<Step>)
    requires ValidRun(x, s, run) && SoundlyConfigured(s)
    ensures SoundlyConfigured(Final(x, s, run))
    decreases |run|
  {
    if run != [] {
      StepKeepsConfigured(x, s, run[0]);
      hide SoundlyConfigured;
      RunKeepsConfigured(x, Next(x, s, run[0]), run[1..]);
    }
  }

  /** Only sound configurations analyze: any routes of an attempt under way agree on their versions. */
  lemma AttemptsAreSound(x: Texts, run: seq<Step>, w: nat)
    requires ValidRun(x, EMPTY, run) && w in Final(x, EMPTY, run).workers
    ensures Final(x, EMPTY, run).workers[w].analyzer.Valid()
  {
    RunKeepsConfigured(x, EMPTY, run);
  }

  // --- no deadlock ------------------------------------------------------------------------------

  lemma StoreIsPossible(x: Texts, s: State, w: nat) returns (step: Step)
    requires w in s.workers && s.workers[w].Missing?
    requires forall v :: v in s.workers ==> !s.workers[v].Inserting()
    ensures step.Store? && Enabled(x, s, step)
  {
    var ids := set k | k in s.tables.cache :: s.tables.cache[k].id;
    assert forall k :: k in s.tables.cache ==> s.tables.cache[k].id in ids;
    var id := AboveAll(ids);
    step := Store(w, id);
  }

  lemma CommitIsPossible(x: Texts, s: State, w: nat) returns (step: Step)
    requires Inv(x, s) && w in s.workers && s.workers[w].Ready()
    ensures step.Commit? && Enabled(x, s, step)
  {
    assert AttemptOk(x, s.tables, s.workers[w]);
    var opportunity := AboveAll(s.tables.opportunities);
    var messages := s.tables.jobs[s.workers[w].job].messages;
    hide SupportsJob, CacheOk, LinksOk, SourcesOk;
    assert Listed(s.tables.jobs, s.workers[w].job, messages);
    step := Commit(w, Draws(opportunity, 0, None, messages));
  }

  /** While any attempt is open some attempt can go on, and any may crash: a store waits for a rival's
      insert, and whoever inserted can commit. */
  lemma AttemptsGoOn(x: Texts, run: seq<Step>, w: nat, reply: Reply, grounded: bool) returns (step: Step)
    requires ValidRun(x, EMPTY, run) && w in Final(x, EMPTY, run).workers
    ensures Enabled(x, Final(x, EMPTY, run), Crash(w))
    ensures !step.Route? && !step.Start? && !step.Crash? && Enabled(x, Final(x, EMPTY, run), step)
  {
    ReachableOk(x, run);
    var s := Final(x, EMPTY, run);
    hide Final, ValidRun, Inv;
    if v :| v in s.workers && s.workers[v].Ready() {
      step := CommitIsPossible(x, s, v);
    } else if s.workers[w].Missing? {
      step := StoreIsPossible(x, s, w);
    } else {
      step := Read(w, reply, grounded);
    }
  }
}
