/** The tables an analysis run writes, what one persisted analysis adds to them, and what
    every reachable version of them satisfies. */
module AnalysisTables {
  import opened Sequences
  import opened OpportunityAnalysis
  import opened MatchingDelivery

  datatype Entry = Entry(id: nat, key: CompatibilityKey, envelope: Envelope)

  /** A job's canonical row, by its key, and the messages routed to the job. */
  datatype JobRows = JobRows(key: CompatibilityKey, messages: seq<nat>)

  /** `links` is keyed by cache entry, `sources` by message, `fanouts` by idempotency key. */
  datatype Tables = Tables(jobs: map<nat, JobRows>, cache: map<CompatibilityKey, Entry>, links: map<nat, nat>,
                           opportunities: set<nat>, sources: map<nat, nat>, fanouts: map<string, nat>)

  datatype Error = UnknownJob | IncompatibleJob | IncompatibleCall | IncompatibleEnvelope | Ungrounded | AnalyzerFailed
                 | NoMessages | LinkConflict | CacheConflict | Crashed

  /** What a write draws and finds: new identifiers, a near-duplicate, and the job's messages, which
      it lists before it waits for the dedup lock. */
  datatype Draws = Draws(opportunity: nat, fanout: nat, similar: Option<nat>, messages: seq<nat>)

  function JobMessages(t: Tables, job: nat): seq<nat> { if job in t.jobs then t.jobs[job].messages else [] }

  /** A listing of the job's messages, as an earlier statement may have read it. */
  ghost predicate Listed(jobs: map<nat, JobRows>, job: nat, messages: seq<nat>) {
    job in jobs && messages != [] && forall m :: m in messages ==> m in jobs[job].messages
  }

  /** One of the messages already belongs to another opportunity. */
  predicate Disputed(sources: map<nat, nat>, messages: seq<nat>, opportunity: nat) {
    exists m :: m in messages && m in sources && sources[m] != opportunity
  }

  function FiledUnder(sources: map<nat, nat>, messages: seq<nat>, opportunity: nat): map<nat, nat> {
    sources + map m | m in messages :: opportunity
  }

  /** Filing the next message: its current owner decides. */
  lemma FileOne(sources: map<nat, nat>, messages: seq<nat>, i: nat, opportunity: nat)
    requires i < |messages| && !Disputed(sources, messages[..i], opportunity)
    ensures var filed := FiledUnder(sources, messages[..i], opportunity);
            var m := messages[i];
            if m in filed && filed[m] != opportunity then Disputed(sources, messages, opportunity)
            else !Disputed(sources, messages[..i + 1], opportunity)
                 && FiledUnder(sources, messages[..i + 1], opportunity)
                    == if m in filed then filed else filed[m := opportunity]
  {
    assert messages[..i + 1] == messages[..i] + [messages[i]];
    assert messages[i] in messages;
  }

  /** The entry linked, the messages filed, and the fan-out queued once. */
  function Written(x: Texts, t: Tables, id: nat, messages: seq<nat>, opportunity: nat, fanout: nat): Tables {
    var key := FanoutKey(x, opportunity);
    t.(links := t.links[id := opportunity], opportunities := t.opportunities + {opportunity},
       sources := FiledUnder(t.sources, messages, opportunity),
       fanouts := if key in t.fanouts then t.fanouts else t.fanouts[key := fanout])
  }

  /** The opportunity an entry belongs to: its link, else the near-duplicate found, else a new one. */
  function OpportunityFor(t: Tables, id: nat, draws: Draws): nat {
    if id in t.links then t.links[id]
    else if draws.similar.Some? then draws.similar.value
    else draws.opportunity
  }

  /** `_persist_opportunity`: link, file the messages, and queue the fan-out, or nothing for a non-opportunity. */
  function Persisted(x: Texts, t: Tables, id: nat, analysis: Analysis, draws: Draws)
    : Result<(Tables, Option<nat>), Error>
  {
    if !analysis.isOpportunity then Success((t, None))
    else if draws.messages == [] then Failure(NoMessages)
    else
      var o := OpportunityFor(t, id, draws);
      if Disputed(t.sources, draws.messages, o) then Failure(LinkConflict)
      else Success((Written(x, t, id, draws.messages, o, draws.fanout), Some(o)))
  }

  // --- writing ------------------------------------------------------------------------

  /** `ensure_from_analysis`'s linking loop, over the messages in order. */
  method FileMessages(sources: map<nat, nat>, messages: seq<nat>, opportunity: nat)
    returns (r: Result<map<nat, nat>, Error>)
    ensures r == if Disputed(sources, messages, opportunity) then Failure(LinkConflict)
                 else Success(FiledUnder(sources, messages, opportunity))
  {
    var filed := sources;
    assert filed == FiledUnder(sources, messages[..0], opportunity);
    for i := 0 to |messages|
      invariant filed == FiledUnder(sources, messages[..i], opportunity)
      invariant !Disputed(sources, messages[..i], opportunity)
    {
      FileOne(sources, messages, i, opportunity);
      hide FiledUnder, Disputed;
      if messages[i] !in filed {
        filed := filed[messages[i] := opportunity];
      } else if filed[messages[i]] != opportunity {
        return Failure(LinkConflict);
      }
    }
    assert messages[..|messages|] == messages;
    r := Success(filed);
  }

  /** The write half of either path, on the transaction's own copy. */
  method PersistOpportunity(x: Texts, t: Tables, id: nat, analysis: Analysis, draws: Draws)
    returns (r: Result<(Tables, Option<nat>), Error>)
    ensures r == Persisted(x, t, id, analysis, draws)
  {
    if !analysis.isOpportunity {
      return Success((t, None));
    }
    if draws.messages == [] {
      return Failure(NoMessages);
    }
    var opportunity :=
      if id in t.links then t.links[id]
      else if draws.similar.Some? then draws.similar.value
      else draws.opportunity;
    var filed := FileMessages(t.sources, draws.messages, opportunity);
    if filed.Failure? {
      return Failure(filed.error);
    }
    var fanouts := t.fanouts;
    var key := FanoutKey(x, opportunity);
    if key !in fanouts {
      fanouts := fanouts[key := draws.fanout];
    }
    r := Success((t.(links := t.links[id := opportunity], opportunities := t.opportunities + {opportunity},
                     sources := filed.value, fanouts := fanouts), Some(opportunity)));
  }

  // --- sound tables ---------------------------------------------------------------------

  /** No message is routed to two jobs, and every job has one. */
  ghost predicate Partitioned(jobs: map<nat, JobRows>) {
    && (forall j :: j in jobs ==> jobs[j].messages != [])
    && (forall j, k, m :: j in jobs && k in jobs && m in jobs[j].messages && m in jobs[k].messages ==> j == k)
  }

  /** Jobs keep their key and messages, and may gain messages. */
  ghost predicate Grows(was: map<nat, JobRows>, now: map<nat, JobRows>) {
    forall j :: j in was ==>
      j in now && now[j].key == was[j].key && forall m :: m in was[j].messages ==> m in now[j].messages
  }

  ghost predicate CacheOk(t: Tables) {
    && (forall k :: k in t.cache ==> t.cache[k].key == k && t.cache[k].envelope.cacheVersion == k.analyzerVersion)
    && (forall k, q :: k in t.cache && q in t.cache && t.cache[k].id == t.cache[q].id ==> k == q)
  }

  ghost predicate EntryExists(t: Tables, id: nat) {
    exists k :: k in t.cache && t.cache[k].id == id
  }

  /** Opportunities are the link targets, and each has its one fan-out key. */
  ghost predicate LinksOk(x: Texts, t: Tables) {
    && (forall id :: id in t.links ==> EntryExists(t, id))
    && t.links.Values == t.opportunities
    && t.fanouts.Keys == set o | o in t.opportunities :: FanoutKey(x, o)
  }

  /** A filed message belongs to a job whose cache entry is linked to the same opportunity. */
  ghost predicate Owns(t: Tables, j: nat, m: nat)
    requires m in t.sources
  {
    && j in t.jobs && m in t.jobs[j].messages && t.jobs[j].key in t.cache
    && t.cache[t.jobs[j].key].id in t.links && t.links[t.cache[t.jobs[j].key].id] == t.sources[m]
  }

  ghost predicate SourcesOk(t: Tables) {
    forall m :: m in t.sources ==> exists j :: Owns(t, j, m)
  }

  ghost predicate TablesOk(x: Texts, t: Tables) {
    Partitioned(t.jobs) && CacheOk(t) && LinksOk(x, t) && SourcesOk(t)
  }

  /** What a later state still holds: entries, links and sources are never rewritten. */
  ghost predicate Extends(t: Tables, u: Tables) {
    && Grows(t.jobs, u.jobs)
    && (forall k :: k in t.cache ==> k in u.cache && u.cache[k] == t.cache[k])
    && (forall id :: id in t.links ==> id in u.links && u.links[id] == t.links[id])
    && (forall m :: m in t.sources ==> m in u.sources && u.sources[m] == t.sources[m])
    && (forall key :: key in t.fanouts ==> key in u.fanouts && u.fanouts[key] == t.fanouts[key])
    && t.opportunities <= u.opportunities
  }

  /** A filed message of this job already belongs to the job's own opportunity. */
  lemma NoConflict(x: Texts, t: Tables, job: nat, m: nat, o: nat)
    requires TablesOk(x, t) && job in t.jobs && m in t.jobs[job].messages && t.jobs[job].key in t.cache
    requires t.cache[t.jobs[job].key].id in t.links ==> o == t.links[t.cache[t.jobs[job].key].id]
    ensures m in t.sources ==> t.sources[m] == o
  {
    if m in t.sources {
      var j :| Owns(t, j, m);
      assert j == job;
    }
  }

  lemma WrittenLinks(x: Texts, t: Tables, id: nat, messages: seq<nat>, o: nat, fanout: nat)
    requires LinksOk(x, t) && EntryExists(t, id) && (id in t.links ==> t.links[id] == o)
    ensures LinksOk(x, Written(x, t, id, messages, o, fanout))
  {
    var u := Written(x, t, id, messages, o, fanout);
    LinkedTargets(t.links, id, o);
    forall k | k in u.links
      ensures EntryExists(u, k)
    {
      assert k == id || EntryExists(t, k);
      var key :| key in t.cache && t.cache[key].id == k;
      assert u.cache[key].id == k;
    }
  }

  lemma WrittenSources(x: Texts, t: Tables, job: nat, messages: seq<nat>, o: nat, fanout: nat)
    requires SourcesOk(t) && Listed(t.jobs, job, messages) && t.jobs[job].key in t.cache
    requires !Disputed(t.sources, messages, o)
    requires t.cache[t.jobs[job].key].id in t.links ==> t.links[t.cache[t.jobs[job].key].id] == o
    ensures SourcesOk(Written(x, t, t.cache[t.jobs[job].key].id, messages, o, fanout))
  {
    var u := Written(x, t, t.cache[t.jobs[job].key].id, messages, o, fanout);
    forall m | m in u.sources
      ensures exists j :: Owns(u, j, m)
    {
      if m in messages {
        assert Owns(u, job, m);
      } else {
        var j :| Owns(t, j, m);
        assert Owns(u, j, m);
      }
    }
  }

  lemma WrittenExtends(x: Texts, t: Tables, id: nat, messages: seq<nat>, o: nat, fanout: nat)
    requires !Disputed(t.sources, messages, o) && (id in t.links ==> t.links[id] == o)
    ensures Extends(t, Written(x, t, id, messages, o, fanout))
  {
  }

  lemma NoDispute(x: Texts, t: Tables, job: nat, messages: seq<nat>, o: nat)
    requires TablesOk(x, t) && Listed(t.jobs, job, messages) && t.jobs[job].key in t.cache
    requires t.cache[t.jobs[job].key].id in t.links ==> o == t.links[t.cache[t.jobs[job].key].id]
    ensures !Disputed(t.sources, messages, o)
  {
    hide TablesOk;
    forall m | m in messages
      ensures m in t.sources ==> t.sources[m] == o
    {
      NoConflict(x, t, job, m, o);
    }
  }

  lemma WrittenKeeps(x: Texts, t: Tables, job: nat, messages: seq<nat>, o: nat, fanout: nat)
    requires TablesOk(x, t) && Listed(t.jobs, job, messages) && t.jobs[job].key in t.cache
    requires t.cache[t.jobs[job].key].id in t.links ==> o == t.links[t.cache[t.jobs[job].key].id]
    ensures var u := Written(x, t, t.cache[t.jobs[job].key].id, messages, o, fanout);
            TablesOk(x, u) && Extends(t, u) && u.jobs == t.jobs && u.cache == t.cache
  {
    var id := t.cache[t.jobs[job].key].id;
    NoDispute(x, t, job, messages, o);
    assert EntryExists(t, id);
    hide LinksOk, SourcesOk, Extends, Partitioned, Disputed, CacheOk;
    WrittenLinks(x, t, id, messages, o, fanout);
    WrittenSources(x, t, job, messages, o, fanout);
    WrittenExtends(x, t, id, messages, o, fanout);
    assert CacheOk(Written(x, t, id, messages, o, fanout)) by { CacheOnly(t, Written(x, t, id, messages, o, fanout)); }
  }

  lemma CacheOnly(t: Tables, u: Tables)
    requires CacheOk(t) && u.cache == t.cache
    ensures CacheOk(u)
  {
  }

  /** Persisting a job's analysis never fails and keeps the tables sound. */
  lemma PersistKeeps(x: Texts, t: Tables, job: nat, analysis: Analysis, draws: Draws)
    requires TablesOk(x, t) && Listed(t.jobs, job, draws.messages) && t.jobs[job].key in t.cache
    ensures var id := t.cache[t.jobs[job].key].id;
            var r := Persisted(x, t, id, analysis, draws);
            r.Success? && TablesOk(x, r.value.0) && Extends(t, r.value.0)
            && r.value.0.jobs == t.jobs && r.value.0.cache == t.cache && (r.value.1.Some? <==> analysis.isOpportunity)
            && (r.value.1.Some? ==> id in r.value.0.links && r.value.0.links[id] == r.value.1.value)
  {
    var id := t.cache[t.jobs[job].key].id;
    assert Extends(t, t);
    hide TablesOk, Extends, Disputed, FiledUnder;
    if analysis.isOpportunity {
      NoDispute(x, t, job, draws.messages, OpportunityFor(t, id, draws));
      WrittenKeeps(x, t, job, draws.messages, OpportunityFor(t, id, draws), draws.fanout);
    }
  }

  lemma LinkedTargets(links: map<nat, nat>, id: nat, o: nat)
    requires id in links ==> links[id] == o
    ensures links[id := o].Values == links.Values + {o}
  {
    var u := links[id := o];
    assert u[id] == o;
    forall v | v in links.Values + {o}
      ensures v in u.Values
    {
      if v != o {
        var k :| k in links && links[k] == v;
        assert u[k] == v;
      }
    }
  }

  lemma StoreKeepsSources(t: Tables, e: Entry)
    requires SourcesOk(t) && (e.key in t.cache ==> t.cache[e.key] == e)
    ensures SourcesOk(t.(cache := t.cache[e.key := e]))
  {
    var u := t.(cache := t.cache[e.key := e]);
    forall m | m in u.sources
      ensures exists j :: Owns(u, j, m)
    {
      var j :| Owns(t, j, m);
      assert Owns(u, j, m);
    }
  }

  lemma StoreKeepsLinks(x: Texts, t: Tables, e: Entry)
    requires LinksOk(x, t) && (e.key in t.cache ==> t.cache[e.key] == e)
    ensures LinksOk(x, t.(cache := t.cache[e.key := e]))
  {
    var u := t.(cache := t.cache[e.key := e]);
    forall id | id in u.links
      ensures EntryExists(u, id)
    {
      assert EntryExists(t, id);
      var k :| k in t.cache && t.cache[k].id == id;
      assert u.cache[k].id == id;
    }
  }

  /** Storing a fresh entry under an absent key keeps the tables sound. */
  lemma StoreKeeps(x: Texts, t: Tables, e: Entry)
    requires TablesOk(x, t) && e.envelope.cacheVersion == e.key.analyzerVersion
    requires if e.key in t.cache then t.cache[e.key] == e else forall k :: k in t.cache ==> t.cache[k].id != e.id
    ensures TablesOk(x, t.(cache := t.cache[e.key := e])) && Extends(t, t.(cache := t.cache[e.key := e]))
  {
    StoreKeepsSources(t, e);
    StoreKeepsLinks(x, t, e);
    hide SourcesOk, LinksOk, Partitioned;
  }

  lemma ExtendsTransitive(t: Tables, u: Tables, v: Tables)
    requires Extends(t, u) && Extends(u, v)
    ensures Extends(t, v)
  {
  }

  lemma RoutingKeeps(x: Texts, t: Tables, jobs: map<nat, JobRows>)
    requires TablesOk(x, t) && Partitioned(jobs) && Grows(t.jobs, jobs)
    ensures TablesOk(x, t.(jobs := jobs)) && Extends(t, t.(jobs := jobs))
  {
    var u := t.(jobs := jobs);
    forall id | id in u.links
      ensures EntryExists(u, id)
    {
      assert EntryExists(t, id);
    }
    forall m | m in u.sources
      ensures exists j :: Owns(u, j, m)
    {
      var j :| Owns(t, j, m);
      assert Owns(u, j, m);
    }
  }

  // --- what sound tables mean ------------------------------------------------------------

  /** A job's filed messages are under one opportunity. */
  ghost predicate OneOpportunityAJob(t: Tables) {
    forall j, m, n :: j in t.jobs && m in t.jobs[j].messages && n in t.jobs[j].messages
                      && m in t.sources && n in t.sources
                      ==> t.sources[m] == t.sources[n]
  }

  /** A job has at most one opportunity, all its filed messages are under it, and opportunities,
      links and fan-out jobs match one to one. */
  ghost predicate Matched(x: Texts, t: Tables) {
    && OneOpportunityAJob(t) && t.sources.Values <= t.opportunities
    && |t.fanouts| == |t.opportunities| <= |t.links| <= |t.cache|
    && (forall o :: o in t.opportunities <==> FanoutKey(x, o) in t.fanouts)
  }

  lemma SoundSources(x: Texts, t: Tables)
    requires TablesOk(x, t)
    ensures OneOpportunityAJob(t) && t.sources.Values <= t.opportunities
  {
    forall j, m, n | j in t.jobs && m in t.jobs[j].messages && n in t.jobs[j].messages
                      && m in t.sources && n in t.sources
      ensures t.sources[m] == t.sources[n]
    {
      var a :| Owns(t, a, m);
      var b :| Owns(t, b, n);
      assert a == j && b == j;
    }
    forall o | o in t.sources.Values
      ensures o in t.opportunities
    {
      var m :| m in t.sources && t.sources[m] == o;
      var a :| Owns(t, a, m);
    }
  }

  lemma SoundTablesMatch(x: Texts, t: Tables)
    requires x.Valid() && TablesOk(x, t)
    ensures Matched(x, t)
  {
    SoundSources(x, t);
    hide OneOpportunityAJob, SourcesOk, Partitioned, CacheOk, FanoutKey;
    KeysAreDistinct(x, t.opportunities);
    assert |t.fanouts| == |t.fanouts.Keys|;
    ValuesAtMostKeys(t.links);
    LinksAtMostEntries(t);
    FanoutKeyInjective(x);
  }

  lemma {:induction false} ValuesAtMostKeys<K(!new), V(!new)>(m: map<K, V>)
    ensures |m.Values| <= |m|
    decreases |m|
  {
    if |m| == 0 {
      assert m.Values == {};
    } else {
      var k :| k in m;
      var rest := m - {k};
      assert m.Keys == rest.Keys + {k};
      ValuesAtMostKeys(rest);
      assert m.Values == rest.Values + {m[k]} by {
        forall v | v in m.Values
          ensures v in rest.Values + {m[k]}
        {
          var q :| q in m && m[q] == v;
          assert q == k || (q in rest && rest[q] == v);
        }
      }
    }
  }

  lemma LinksAtMostEntries(t: Tables)
    requires forall id :: id in t.links ==> EntryExists(t, id)
    ensures |t.links| <= |t.cache|
  {
    var ids := map k | k in t.cache :: t.cache[k].id;
    assert ids.Keys == t.cache.Keys;
    forall id | id in t.links.Keys
      ensures id in ids.Values
    {
      var k :| k in t.cache && t.cache[k].id == id;
      assert ids[k] == id;
    }
    SubsetCardinality(t.links.Keys, ids.Values);
    ValuesAtMostKeys(ids);
    assert |ids| == |ids.Keys| == |t.cache.Keys| == |t.cache| && |t.links| == |t.links.Keys|;
  }
}
