/** The Web discovery provider: scans search results and inspected pages for Telegram
    references under its caps, and keeps the candidate funnel's books. */
module WebDiscovery {
  import opened Sequences
  import opened CandidateFunnel

  // --- what the Web answers ------------------------------------------------------

  datatype SearchResult = SearchResult(url: string, title: string)

  datatype BackendOutcome = Answered(results: seq<SearchResult>) | BackendFailed

  datatype Link = Link(key: string, domain: string, page: string)

  datatype Page = Links(links: seq<Link>) | Unreachable

  /** Reference parsing, URL parts, digests and fetched pages, kept abstract. */
  datatype Web = Web(parse: string -> Option<string>, looksLikeTelegram: string -> bool, host: string -> string,
                     fold: string -> string,
                     fetch: (string, nat) -> Page, evidenceKey: (string, string, string) -> string)

  datatype Limits = Limits(candidates: nat, pageFetches: int)

  // --- one candidate's evidence ------------------------------------------------------

  /** One reference as met: where, how, and for which query. */
  datatype Sighting = Sighting(key: string, kind: Extraction, query: nat, name: string, domain: string, page: string)

  datatype Evidence = Evidence(key: string, query: nat, kind: Extraction, domain: string)

  datatype Observed = Observed(first: Sighting, domains: set<string>, pages: set<string>, evidence: seq<Evidence>)

  function EvidenceKey(web: Web, s: Sighting): string { web.evidenceKey(s.domain, s.page, s.key) }

  function ObservedFrom(web: Web, s: Sighting): Observed {
    Observed(s, if s.domain == "" then {} else {s.domain}, {s.page},
             [Evidence(EvidenceKey(web, s), s.query, s.kind, s.domain)])
  }

  function EvidenceKeys(items: seq<Evidence>): seq<string> { Map((e: Evidence) => e.key, items) }

  /** The items whose non-blank key is not yet in the list, each appended in turn. */
  function Absorb(items: seq<Evidence>, incoming: seq<Evidence>): seq<Evidence>
    decreases |incoming|
  {
    if incoming == [] then items
    else
      var e := incoming[0];
      Absorb(if e.key != "" && e.key !in EvidenceKeys(items) then items + [e] else items, incoming[1..])
  }

  function Merge(existing: Observed, incoming: Observed): Observed {
    existing.(domains := existing.domains + incoming.domains, pages := existing.pages + incoming.pages,
              evidence := Absorb(existing.evidence, incoming.evidence))
  }

  /** Everything a scan saw of one key, merged in order. */
  function Merged(web: Web, s: seq<Sighting>, key: string): Option<Observed> {
    if s == [] then None
    else
      var before, last := Merged(web, s[..|s| - 1], key), s[|s| - 1];
      if last.key != key then before
      else if before.None? then Some(ObservedFrom(web, last))
      else Some(Merge(before.value, ObservedFrom(web, last)))
  }

  function For(key: string): Sighting -> bool { (s: Sighting) => s.key == key }

  function KeyOf(web: Web): Sighting -> string { (s: Sighting) => EvidenceKey(web, s) }

  /** The first sighting, every domain and page, and one evidence item per distinct evidence
      key in order of first appearance. */
  ghost predicate Summarizes(web: Web, o: Observed, mine: seq<Sighting>)
    requires mine != []
  {
    && o.first == mine[0]
    && o.domains == (set t | t in mine && t.domain != "" :: t.domain)
    && o.pages == (set t | t in mine :: t.page)
    && EvidenceKeys(o.evidence) == FromKeys(Map(KeyOf(web), mine))
  }

  lemma FirstSummary(web: Web, s: Sighting)
    ensures Summarizes(web, ObservedFrom(web, s), [s])
  {
    FromKeysPush([], EvidenceKey(web, s));
    assert Map(KeyOf(web), [s]) == [] + [EvidenceKey(web, s)];
    assert EvidenceKeys(ObservedFrom(web, s).evidence) == [EvidenceKey(web, s)];
  }

  lemma NextPlaces(web: Web, o: Observed, mine: seq<Sighting>, s: Sighting)
    requires mine != [] && Summarizes(web, o, mine)
    ensures Merge(o, ObservedFrom(web, s)).domains == (set t | t in mine + [s] && t.domain != "" :: t.domain)
    ensures Merge(o, ObservedFrom(web, s)).pages == (set t | t in mine + [s] :: t.page)
  {
    hide EvidenceKeys, FromKeys, Absorb;
    assert forall t :: t in mine + [s] <==> t in mine || t == s;
  }

  lemma NextEvidence(web: Web, o: Observed, mine: seq<Sighting>, s: Sighting)
    requires mine != [] && Summarizes(web, o, mine) && EvidenceKey(web, s) != ""
    ensures EvidenceKeys(Merge(o, ObservedFrom(web, s)).evidence) == FromKeys(Map(KeyOf(web), mine + [s]))
  {
    var e := Evidence(EvidenceKey(web, s), s.query, s.kind, s.domain);
    MapAppend(KeyOf(web), mine, [s]);
    assert Map(KeyOf(web), [s]) == [EvidenceKey(web, s)];
    FromKeysPush(Map(KeyOf(web), mine), EvidenceKey(web, s));
    AbsorbOne(o.evidence, e);
    KeyAppended(o.evidence, e);
    hide FromKeys, Absorb, Map;
  }

  lemma NextSummary(web: Web, o: Observed, mine: seq<Sighting>, s: Sighting)
    requires mine != [] && Summarizes(web, o, mine) && EvidenceKey(web, s) != ""
    ensures Summarizes(web, Merge(o, ObservedFrom(web, s)), mine + [s])
  {
    NextPlaces(web, o, mine, s);
    NextEvidence(web, o, mine, s);
    assert (mine + [s])[0] == mine[0];
    hide FromKeys, Absorb, Map, EvidenceKeys;
  }

  /** A key's candidate summarizes exactly its own sightings. */
  lemma {:induction false} MergedMeaning(web: Web, s: seq<Sighting>, key: string)
    requires forall t :: t in s ==> EvidenceKey(web, t) != ""
    ensures Merged(web, s, key).Some? <==> Filter(s, For(key)) != []
    ensures Merged(web, s, key).Some? ==> Summarizes(web, Merged(web, s, key).value, Filter(s, For(key)))
  {
    if s != [] {
      var before, last := s[..|s| - 1], s[|s| - 1];
      assert s == before + [last];
      MergedPush(web, before, last, key);
      hide Summarizes, Filter, Merged, EvidenceKey;
      MergedMeaning(web, before, key);
      FilterPush(before, last, For(key));
      if last.key == key {
        var was := Filter(before, For(key));
        if was == [] {
          assert was + [last] == [last];
          FirstSummary(web, last);
        } else {
          NextSummary(web, Merged(web, before, key).value, was, last);
        }
      }
    } else {
      assert Filter(s, For(key)) == [];
    }
  }

  lemma MergedPush(web: Web, before: seq<Sighting>, last: Sighting, key: string)
    ensures var m := Merged(web, before, key);
            Merged(web, before + [last], key)
            == if last.key != key then m
               else if m.None? then Some(ObservedFrom(web, last))
               else Some(Merge(m.value, ObservedFrom(web, last)))
  {
    assert (before + [last])[..|before|] == before;
  }

  lemma FromKeysPush(s: seq<string>, x: string)
    ensures FromKeys(s + [x]) == if x in FromKeys(s) then FromKeys(s) else FromKeys(s) + [x]
  {
    assert (s + [x])[..|s|] == s;
  }

  lemma AbsorbOne(items: seq<Evidence>, e: Evidence)
    ensures Absorb(items, [e]) == if e.key != "" && e.key !in EvidenceKeys(items) then items + [e] else items
  {
    assert [e][1..] == [];
  }

  // --- the scan --------------------------------------------------------------------

  /** Progress through one discovery: the funnel events, what was sighted, and the counters. */
  datatype Scan = Scan(events: seq<Event>, sightings: seq<Sighting>, queries: nat, considered: nat, fetches: nat,
                       attempts: nat, successes: nat, failures: nat, aborted: bool)
  {
    /** The observed keys, in order of first sighting. */
    function Keys(): seq<string> { FromKeys(Map((s: Sighting) => s.key, sightings)) }

    predicate Full(lim: Limits) { |Keys()| >= lim.candidates }
  }

  const NOTHING: Scan := Scan([], [], 0, 0, 0, 0, 0, 0, false)

  function See(scan: Scan, s: Sighting): Scan {
    scan.(events := scan.events + [Valid(s.key, s.kind)], sightings := scan.sightings + [s])
  }

  function LinkSighting(query: nat, link: Link): Sighting {
    Sighting(link.key, PageExtracted, query, "", link.domain, link.page)
  }

  /** A link is sighted on its own page and domain, without a name of its own. */
  lemma LinksAreSightedInPlace(query: nat, link: Link)
    ensures var s := LinkSighting(query, link);
            && s.key == link.key && s.page == link.page && s.domain == link.domain && s.name == "" && s.query == query
            && s.kind == PageExtracted
  {
  }

  /** A page's links, up to the candidate cap. */
  function ScanLinks(scan: Scan, lim: Limits, query: nat, links: seq<Link>): Scan
    decreases |links|
  {
    if links == [] then scan
    else
      var next := See(scan, LinkSighting(query, links[0]));
      if next.Full(lim) then next else ScanLinks(next, lim, query, links[1..])
  }

  function ScanPage(web: Web, scan: Scan, lim: Limits, query: nat, url: string): Scan {
    var fetched := scan.(fetches := scan.fetches + 1);
    if scan.Full(lim) then fetched
    else
      match web.fetch(url, lim.candidates - |scan.Keys()|)
      case Unreachable => fetched.(failures := fetched.failures + 1)
      case Links(links) => ScanLinks(fetched, lim, query, links)
  }

  /** One search result: a direct reference, a malformed one, or a page to inspect. */
  function ScanResult(web: Web, before: Scan, lim: Limits, query: nat, result: SearchResult): Scan {
    var scan := before.(considered := before.considered + 1);
    var direct := web.parse(result.url);
    if direct.Some? then
      See(scan, Sighting(direct.value, DirectResult, query, result.title, web.host(result.url), result.url))
    else if web.looksLikeTelegram(result.url) then
      scan.(events := scan.events + [Invalid(web.fold(result.url), "INVALID_SOURCE_TYPE")])
    else if scan.fetches < lim.pageFetches then ScanPage(web, scan, lim, query, result.url)
    else scan
  }

  function ScanResults(web: Web, scan: Scan, lim: Limits, query: nat, results: seq<SearchResult>): Scan
    decreases |results|
  {
    if results == [] then scan
    else
      var next := ScanResult(web, scan, lim, query, results[0]);
      if next.Full(lim) then next else ScanResults(web, next, lim, query, results[1..])
  }

  /** Backends in order until one answers. */
  function FirstAnswer(outcomes: seq<BackendOutcome>): Option<seq<SearchResult>> {
    if outcomes == [] then None
    else if outcomes[0].Answered? then Some(outcomes[0].results)
    else FirstAnswer(outcomes[1..])
  }

  function Failures(outcomes: seq<BackendOutcome>): nat {
    if outcomes == [] || outcomes[0].Answered? then 0 else 1 + Failures(outcomes[1..])
  }

  /** One query: ask the backends, then scan the answer; no answer aborts the discovery. */
  function ScanQuery(web: Web, scan: Scan, lim: Limits, query: nat, outcomes: seq<BackendOutcome>): Scan {
    var answer := FirstAnswer(outcomes);
    if answer.Some? then ScanResults(web, Asked(scan, outcomes), lim, query, answer.value)
    else Asked(scan, outcomes).(aborted := true)
  }

  function Asked(scan: Scan, outcomes: seq<BackendOutcome>): Scan {
    var failed := Failures(outcomes);
    var answered := if FirstAnswer(outcomes).Some? then 1 else 0;
    scan.(queries := scan.queries + 1, failures := scan.failures + failed,
          attempts := scan.attempts + failed + answered,
          successes := scan.successes + answered)
  }

  function ScanQueries(web: Web, scan: Scan, lim: Limits, queries: seq<seq<BackendOutcome>>, from: nat): Scan
    requires from <= |queries|
    decreases |queries| - from
  {
    if from == |queries| then scan
    else
      var next := ScanQuery(web, scan, lim, from, queries[from]);
      if next.aborted || next.Full(lim) then next else ScanQueries(web, next, lim, queries, from + 1)
  }

  // --- the provider ------------------------------------------------------------------

  datatype Candidate = Candidate(first: Sighting, domains: nat, pages: nat, evidence: seq<Evidence>)

  function CandidateOf(o: Observed): Candidate {
    Candidate(o.first, |o.domains|, |o.pages|, if |o.evidence| <= 50 then o.evidence else o.evidence[..50])
  }

  /** One candidate per observed key, in order, each merged from that key's sightings. */
  ghost predicate CandidatesOf(web: Web, scan: Scan, candidates: seq<Candidate>) {
    && |candidates| == |scan.Keys()|
    && forall i :: 0 <= i < |candidates| ==>
         var o := Merged(web, scan.sightings, scan.Keys()[i]);
         o.Some? && candidates[i] == CandidateOf(o.value)
  }

  /** Sightings count as one piece of evidence exactly when they name one key on one page of one domain, as
      long as the digest of those does not collide. */
  lemma EvidenceIsByPlace(web: Web, s: Sighting, t: Sighting)
    requires web.evidenceKey(s.domain, s.page, s.key) == web.evidenceKey(t.domain, t.page, t.key)
             ==> s.domain == t.domain && s.page == t.page && s.key == t.key
    ensures EvidenceKey(web, s) == EvidenceKey(web, t) <==> s.domain == t.domain && s.page == t.page && s.key == t.key
  {
  }

  /** A candidate reports its first sighting, the number of distinct non-blank domains and of distinct pages
      it was sighted on, and at most fifty evidence items, one for each of the first distinct evidence keys. */
  lemma CandidateCounts(web: Web, s: seq<Sighting>, key: string)
    requires forall t :: t in s ==> EvidenceKey(web, t) != ""
    requires Merged(web, s, key).Some?
    ensures var mine := Filter(s, For(key));
            var c := CandidateOf(Merged(web, s, key).value);
            var keys := FromKeys(Map(KeyOf(web), mine));
            && mine != [] && c.first == mine[0]
            && c.domains == |set t | t in mine && t.domain != "" :: t.domain|
            && c.pages == |set t | t in mine :: t.page|
            && |c.evidence| == (if |keys| <= 50 then |keys| else 50)
            && forall i :: 0 <= i < |c.evidence| ==> c.evidence[i].key == keys[i]
  {
    MergedMeaning(web, s, key);
    var o := Merged(web, s, key).value;
    assert forall i :: 0 <= i < |o.evidence| ==> EvidenceKeys(o.evidence)[i] == o.evidence[i].key;
    hide Merged, Filter, FromKeys, EvidenceKey;
  }

  datatype DiscoveryError = AllBackendsFailed

  /** The running counters a discovery adds to; the fetch counter shows the latest discovery's. */
  datatype Counters = Counters(queries: nat, considered: nat, fetches: nat, attempts: nat, successes: nat,
                               failures: nat)

  function Advanced(c: Counters, scan: Scan): Counters {
    Counters(c.queries + scan.queries, c.considered + scan.considered,
             if scan.fetches > 0 then scan.fetches else c.fetches,
             c.attempts + scan.attempts, c.successes + scan.successes, c.failures + scan.failures)
  }

  /** The `observed` dictionary in insertion order, and this discovery's page fetches. */
  datatype Found = Found(observed: map<string, Observed>, order: seq<string>, fetches: nat)

  ghost predicate Tracks(web: Web, scan: Scan, found: Found) {
    && found.order == scan.Keys() && found.fetches == scan.fetches
    && (forall k :: k in found.observed <==> k in found.order)
    && (forall k :: k in found.observed ==> Some(found.observed[k]) == Merged(web, scan.sightings, k))
  }

  class GlobalWebDiscoveryProvider {
    const web: Web
    const lim: Limits

    var queriesExecuted: nat
    var resultsConsidered: nat
    var pageFetches: nat
    var backendAttempts: nat
    var backendSuccesses: nat
    var backendFailures: nat
    var uniqueCandidates: nat
    var normalizedUnique: nat

    var raw: nat
    var valid: nat
    var rejected: nat
    var normalized: nat
    var direct: nat
    var extracted: nat
    var observations: seq<Observation>
    var terminal: map<string, nat>

    constructor (web: Web, lim: Limits)
      requires 1 <= lim.candidates <= 1000
      ensures Books() == EMPTY && this.web == web && this.lim == lim
      ensures queriesExecuted == resultsConsidered == pageFetches == uniqueCandidates == 0
      ensures backendAttempts == backendSuccesses == backendFailures == normalizedUnique == 0
    {
      this.web, this.lim := web, lim;
      queriesExecuted, resultsConsidered, pageFetches, uniqueCandidates := 0, 0, 0, 0;
      backendAttempts, backendSuccesses, backendFailures, normalizedUnique := 0, 0, 0, 0;
      raw, valid, rejected, normalized, direct, extracted, observations, terminal := 0, 0, 0, 0, 0, 0, [], map[];
    }

    /** The candidate funnel, with the two reference counters kept beside it. */
    function Books(): Funnel
      reads this
    {
      Funnel(raw, valid, rejected, normalized, direct, extracted, observations, terminal)
    }

    /** `_record_valid_reference`, with the caller's counter for the extraction kind. */
    method RecordValidReference(key: string, kind: Extraction)
      modifies this`raw, this`valid, this`normalized, this`direct, this`extracted, this`observations
      ensures Books() == Apply(old(Books()), Valid(key, kind))
    {
      raw, valid, normalized := raw + 1, valid + 1, normalized + 1;
      if kind.DirectResult? {
        direct := direct + 1;
      } else {
        extracted := extracted + 1;
      }
      var i := 0;
      while i < |observations| && observations[i].digest != Digest.OfKey(key)
        invariant i <= |observations| && observations == old(observations)
        invariant forall j :: 0 <= j < i ==> observations[j].digest != Digest.OfKey(key)
      {
        i := i + 1;
      }
      FindIs(observations, Digest.OfKey(key), i);
      if i < |observations| {
        observations := observations[i := observations[i].(count := observations[i].count + 1)];
      } else if |observations| < MAX_OBSERVATIONS {
        observations := observations + [Observation(Digest.OfKey(key), kind, 1, None)];
      }
    }

    method RecordInvalidReference(url: string, bucket: string)
      modifies this`raw, this`rejected, this`observations
      ensures Books() == Apply(old(Books()), Invalid(url, bucket))
    {
      raw, rejected := raw + 1, rejected + 1;
      if |observations| < MAX_OBSERVATIONS {
        observations := observations + [Observation(OfUrl(url), DirectResult, 1, Some(bucket))];
      }
    }

    function Counts(): Counters
      reads this
    {
      Counters(queriesExecuted, resultsConsidered, pageFetches, backendAttempts, backendSuccesses, backendFailures)
    }

    /** The provider has lived through `scan` since the given books and counters. */
    ghost predicate Lived(books: Funnel, counters: Counters, scan: Scan, found: Found)
      reads this
    {
      Books() == Replay(books, scan.events) && Counts() == Advanced(counters, scan) && Tracks(web, scan, found)
    }

    method Sight(s: Sighting, found: Found, ghost books: Funnel, ghost counters: Counters, ghost scan: Scan)
      returns (next: Found)
      requires Lived(books, counters, scan, found)
      modifies this`raw, this`valid, this`normalized, this`direct, this`extracted, this`observations
      ensures Lived(books, counters, See(scan, s), next) && next.order == See(scan, s).Keys()
    {
      hide Apply, Replay, Tracks, Merge, Scan.Keys, ObservedFrom;
      RecordValidReference(s.key, s.kind);
      SeeReplays(books, scan, s);
      NextTracks(web, scan, found, s);
      OrderIsKeys(web, See(scan, s), Sighted(web, found, s));
      var incoming := ObservedFrom(web, s);
      if s.key !in found.observed {
        next := found.(observed := found.observed[s.key := incoming], order := found.order + [s.key]);
      } else {
        var merged := MergeObserved(found.observed[s.key], incoming);
        next := found.(observed := found.observed[s.key := merged]);
      }
    }

    method SightLinks(query: nat, links: seq<Link>, found: Found, ghost books: Funnel, ghost counters: Counters,
                      ghost scan: Scan)
      returns (next: Found)
      requires Lived(books, counters, scan, found)
      modifies this`raw, this`valid, this`normalized, this`direct, this`extracted, this`observations
      ensures Lived(books, counters, ScanLinks(scan, lim, query, links), next)
    {
      hide Lived, See;
      next := found;
      ghost var progress := scan;
      var i := 0;
      while i < |links|
        invariant i <= |links| && Lived(books, counters, progress, next)
        invariant ScanLinks(progress, lim, query, links[i..]) == ScanLinks(scan, lim, query, links)
      {
        assert links[i..][0] == links[i] && links[i..][1..] == links[i + 1..];
        next := Sight(LinkSighting(query, links[i]), next, books, counters, progress);
        progress := See(progress, LinkSighting(query, links[i]));
        if |next.order| >= lim.candidates {
          return;
        }
        i := i + 1;
      }
    }

    method InspectPage(query: nat, url: string, found: Found, ghost books: Funnel, ghost counters: Counters,
                       ghost scan: Scan)
      returns (next: Found)
      requires Lived(books, counters, scan, found) && !scan.Full(lim)
      modifies this`raw, this`valid, this`normalized, this`direct, this`extracted, this`observations,
               this`pageFetches, this`backendFailures
      ensures Lived(books, counters, ScanPage(web, scan, lim, query, url), next)
    {
      hide Tracks, Replay, ScanLinks, Scan.Keys;
      OrderIsKeys(web, scan, found);
      TracksFrame(web, scan, scan.(fetches := scan.fetches + 1), found, found.(fetches := found.fetches + 1));
      TracksFrame(web, scan, scan.(fetches := scan.fetches + 1, failures := scan.failures + 1), found,
                  found.(fetches := found.fetches + 1));
      var room := lim.candidates - |found.order|;
      next := found.(fetches := found.fetches + 1);
      pageFetches := next.fetches;
      ghost var progress := scan.(fetches := scan.fetches + 1);
      match web.fetch(url, room)
      case Unreachable =>
        backendFailures := backendFailures + 1;
      case Links(links) =>
        next := SightLinks(query, links, next, books, counters, progress);
    }

    method ConsiderResult(query: nat, result: SearchResult, found: Found, ghost books: Funnel,
                          ghost counters: Counters, ghost scan: Scan)
      returns (next: Found)
      requires Lived(books, counters, scan, found) && !scan.Full(lim)
      modifies this`raw, this`valid, this`rejected, this`normalized, this`direct, this`extracted, this`observations,
               this`resultsConsidered, this`pageFetches, this`backendFailures
      ensures Lived(books, counters, ScanResult(web, scan, lim, query, result), next)
    {
      resultsConsidered := resultsConsidered + 1;
      ghost var considered := scan.(considered := scan.considered + 1);
      var reference := web.parse(result.url);
      if reference.Some? {
        next := Sight(Sighting(reference.value, DirectResult, query, result.title, web.host(result.url), result.url),
                      found, books, counters, considered);
      } else if web.looksLikeTelegram(result.url) {
        RecordInvalidReference(web.fold(result.url), "INVALID_SOURCE_TYPE");
        ReplayAppend(books, considered.events, [Invalid(web.fold(result.url), "INVALID_SOURCE_TYPE")]);
        OneEvent(Replay(books, considered.events), Invalid(web.fold(result.url), "INVALID_SOURCE_TYPE"));
        next := found;
      } else if found.fetches < lim.pageFetches {
        next := InspectPage(query, result.url, found, books, counters, considered);
      } else {
        next := found;
      }
    }

    method ConsiderResults(query: nat, results: seq<SearchResult>, found: Found, ghost books: Funnel,
                           ghost counters: Counters, ghost scan: Scan)
      returns (next: Found)
      requires Lived(books, counters, scan, found) && !scan.Full(lim)
      modifies this`raw, this`valid, this`rejected, this`normalized, this`direct, this`extracted, this`observations,
               this`resultsConsidered, this`pageFetches, this`backendFailures
      ensures Lived(books, counters, ScanResults(web, scan, lim, query, results), next)
    {
      next := found;
      ghost var progress := scan;
      var i := 0;
      while i < |results|
        invariant i <= |results| && Lived(books, counters, progress, next) && !progress.Full(lim)
        invariant ScanResults(web, progress, lim, query, results[i..]) == ScanResults(web, scan, lim, query, results)
      {
        assert results[i..][0] == results[i] && results[i..][1..] == results[i + 1..];
        next := ConsiderResult(query, results[i], next, books, counters, progress);
        progress := ScanResult(web, progress, lim, query, results[i]);
        if |next.order| >= lim.candidates {
          return;
        }
        i := i + 1;
      }
    }

    method SearchWithFallback(outcomes: seq<BackendOutcome>) returns (r: Result<seq<SearchResult>, DiscoveryError>)
      modifies this`backendAttempts, this`backendSuccesses, this`backendFailures
      ensures r == match FirstAnswer(outcomes)
                   case Some(results) => Success(results)
                   case None => Failure(AllBackendsFailed)
      ensures backendFailures == old(backendFailures) + Failures(outcomes)
      ensures backendSuccesses == old(backendSuccesses) + if r.Success? then 1 else 0
      ensures backendAttempts == old(backendAttempts) + Failures(outcomes) + if r.Success? then 1 else 0
    {
      var b := 0;
      while b < |outcomes|
        invariant b <= |outcomes| && backendSuccesses == old(backendSuccesses)
        invariant FirstAnswer(outcomes[b..]) == FirstAnswer(outcomes)
        invariant backendFailures + Failures(outcomes[b..]) == old(backendFailures) + Failures(outcomes)
        invariant backendAttempts - old(backendAttempts) == backendFailures - old(backendFailures)
      {
        assert outcomes[b..][0] == outcomes[b] && outcomes[b..][1..] == outcomes[b + 1..];
        backendAttempts := backendAttempts + 1;
        if outcomes[b].Answered? {
          backendSuccesses := backendSuccesses + 1;
          return Success(outcomes[b].results);
        }
        backendFailures := backendFailures + 1;
        b := b + 1;
      }
      r := Failure(AllBackendsFailed);
    }

    method RunQuery(query: nat, outcomes: seq<BackendOutcome>, found: Found, ghost books: Funnel,
                    ghost counters: Counters, ghost scan: Scan)
      returns (next: Found, answered: bool)
      requires Lived(books, counters, scan, found) && !scan.Full(lim) && !scan.aborted
      modifies this`raw, this`valid, this`rejected, this`normalized, this`direct, this`extracted, this`observations,
               this`resultsConsidered, this`pageFetches, this`backendFailures, this`backendAttempts,
               this`backendSuccesses, this`queriesExecuted
      ensures Lived(books, counters, ScanQuery(web, scan, lim, query, outcomes), next)
      ensures answered == !ScanQuery(web, scan, lim, query, outcomes).aborted
      ensures next.order == ScanQuery(web, scan, lim, query, outcomes).Keys()
    {
      ghost var asked := Asked(scan, outcomes);
      TracksFrame(web, scan, asked, found, found);
      TracksFrame(web, scan, asked.(aborted := true), found, found);
      OrderIsKeys(web, asked, found);
      hide Tracks, Replay, ScanResults, Failures, FirstAnswer;
      queriesExecuted := queriesExecuted + 1;
      var results := SearchWithFallback(outcomes);
      if results.Failure? {
        return found, false;
      }
      AnswersNeverAbort(web, asked, lim, query, results.value);
      next := ConsiderResults(query, results.value, found, books, counters, asked);
      answered := true;
      OrderIsKeys(web, ScanQuery(web, scan, lim, query, outcomes), next);
    }

    /** One discovery over the configured queries, given what each backend answers. */
    method Discover(queries: seq<seq<BackendOutcome>>) returns (r: Result<seq<Candidate>, DiscoveryError>)
      requires lim.candidates > 0
      modifies this
      ensures var scan := ScanQueries(web, NOTHING, lim, queries, 0);
              && Books() == Replay(old(Books()), scan.events)
              && Counts() == Advanced(old(Counts()), scan)
              && (if scan.aborted then
                    r == Failure(AllBackendsFailed) && uniqueCandidates == old(uniqueCandidates) &&
                    normalizedUnique == old(normalizedUnique)
                  else
                    r.Success? && CandidatesOf(web, scan, r.value) &&
                    uniqueCandidates == normalizedUnique == |scan.Keys()|)
    {
      ghost var books, counters, scan := Books(), Counts(), NOTHING;
      ghost var end := ScanQueries(web, NOTHING, lim, queries, 0);
      var found := Found(map[], [], 0);
      var q := 0;
      var full := false;
      assert Lived(books, counters, scan, found) && !scan.Full(lim);
      hide Lived, ScanQuery, Asked;
      while q < |queries| && !full
        invariant q <= |queries| && Lived(books, counters, scan, found) && !scan.aborted && full == scan.Full(lim)
        invariant uniqueCandidates == old(uniqueCandidates) && normalizedUnique == old(normalizedUnique)
        invariant (if full then scan else ScanQueries(web, scan, lim, queries, q)) == end
      {
        var answered: bool;
        found, answered := RunQuery(q, queries[q], found, books, counters, scan);
        scan := ScanQuery(web, scan, lim, q, queries[q]);
        if !answered {
          LivedMeans(books, counters, scan, found);
          return Failure(AllBackendsFailed);
        }
        full := |found.order| >= lim.candidates;
        q := q + 1;
      }
      assert scan == end;
      LivedMeans(books, counters, scan, found);
      uniqueCandidates, normalizedUnique := |found.order|, |found.order|;
      var candidates := ListCandidates(found);
      ListedCandidates(web, scan, found);
      r := Success(candidates);
    }

    lemma LivedMeans(books: Funnel, counters: Counters, scan: Scan, found: Found)
      requires Lived(books, counters, scan, found)
      ensures Books() == Replay(books, scan.events) && Counts() == Advanced(counters, scan) && Tracks(web, scan, found)
    {
    }

    method FinalizeCandidateFunnel(classes: Classifications)
      modifies this`observations, this`terminal
      ensures Books() == Apply(old(Books()), Finalize(classes))
    {
      ghost var was := observations;
      var n := |observations|;
      for i := 0 to n
        invariant |observations| == n == |was|
        invariant forall j :: 0 <= j < n ==> observations[j] == if j < i then Resolved(was[j], classes) else was[j]
        invariant terminal == TallyAll(old(terminal), was[..i], classes)
      {
        TallyNext(old(terminal), was, i, classes);
        hide TallyAll;
        var item := observations[i];
        if item.bucket.None? {
          var bucket := BucketOf(classes, item.digest);
          observations := observations[i := item.(bucket := Some(bucket))];
          terminal := terminal[bucket := Count(terminal, bucket) + item.count];
        }
      }
      assert was[..n] == was;
      assert observations == Map((o: Observation) => Resolved(o, classes), was);
    }
  }

  lemma TallyNext(terminal: map<string, nat>, s: seq<Observation>, i: nat, c: Classifications)
    requires i < |s|
    ensures TallyAll(terminal, s[..i + 1], c) == Tallied(TallyAll(terminal, s[..i], c), s[i], c)
  {
    assert s[..i + 1][..i] == s[..i];
  }

  lemma {:induction false} FindIs(s: seq<Observation>, d: Digest, i: nat)
    requires i <= |s| && (i < |s| ==> s[i].digest == d) && forall j :: 0 <= j < i ==> s[j].digest != d
    ensures Find(s, d) == i
  {
  }

  /** `_merge_observed` into an existing entry. */
  method MergeObserved(existing: Observed, incoming: Observed) returns (r: Observed)
    ensures r == Merge(existing, incoming)
  {
    var items := existing.evidence;
    var known := set e | e in existing.evidence :: e.key;
    KeysListed(items);
    for i := 0 to |incoming.evidence|
      invariant Absorb(items, incoming.evidence[i..]) == Absorb(existing.evidence, incoming.evidence)
      invariant forall k :: k in known <==> k in EvidenceKeys(items)
    {
      var e := incoming.evidence[i];
      assert incoming.evidence[i..][0] == e && incoming.evidence[i..][1..] == incoming.evidence[i + 1..];
      if e.key != "" && e.key !in known {
        KeyAppended(items, e);
        items := items + [e];
        known := known + {e.key};
      }
    }
    r := existing.(domains := existing.domains + incoming.domains, pages := existing.pages + incoming.pages,
                   evidence := items);
  }

  lemma KeysListed(items: seq<Evidence>)
    ensures forall k :: k in EvidenceKeys(items) <==> k in set e | e in items :: e.key
  {
    forall k
      ensures k in EvidenceKeys(items) <==> exists e :: e in items && e.key == k
    {
      MapMembers((e: Evidence) => e.key, items, k);
    }
  }

  lemma KeyAppended(items: seq<Evidence>, e: Evidence)
    ensures EvidenceKeys(items + [e]) == EvidenceKeys(items) + [e.key]
  {
  }

  lemma OneEvent(f: Funnel, e: Event)
    ensures Replay(f, [e]) == Apply(f, e)
  {
    assert [e][..0] == [];
  }

  lemma SeeReplays(f: Funnel, scan: Scan, s: Sighting)
    ensures Replay(f, See(scan, s).events) == Apply(Replay(f, scan.events), Valid(s.key, s.kind))
  {
    ReplayAppend(f, scan.events, [Valid(s.key, s.kind)]);
    OneEvent(Replay(f, scan.events), Valid(s.key, s.kind));
  }

  lemma SeeKeys(scan: Scan, s: Sighting)
    ensures See(scan, s).Keys() == if s.key in scan.Keys() then scan.Keys() else scan.Keys() + [s.key]
  {
    var f := (s: Sighting) => s.key;
    MapAppend(f, scan.sightings, [s]);
    assert Map(f, [s]) == [s.key];
    FromKeysPush(Map(f, scan.sightings), s.key);
    hide FromKeys;
  }

  lemma SeeTracks(web: Web, scan: Scan, found: Found, s: Sighting)
    requires Tracks(web, scan, found)
    ensures See(scan, s).Keys() == if s.key in found.order then found.order else found.order + [s.key]
    ensures forall k :: k != s.key ==> Merged(web, See(scan, s).sightings, k) == Merged(web, scan.sightings, k)
    ensures Merged(web, See(scan, s).sightings, s.key)
            == if s.key in found.observed then Some(Merge(found.observed[s.key], ObservedFrom(web, s)))
               else Some(ObservedFrom(web, s))
  {
    SeeKeys(scan, s);
    if s.key !in found.order {
      UnsightedHasNone(web, scan.sightings, s.key);
    }
    hide Scan.Keys, Merge, ObservedFrom;
    assert (scan.sightings + [s])[..|scan.sightings|] == scan.sightings;
  }

  /** The dictionary after one more sighting. */
  function Sighted(web: Web, found: Found, s: Sighting): Found {
    if s.key in found.observed
    then found.(observed := found.observed[s.key := Merge(found.observed[s.key], ObservedFrom(web, s))])
    else found.(observed := found.observed[s.key := ObservedFrom(web, s)], order := found.order + [s.key])
  }

  lemma NextTracks(web: Web, scan: Scan, found: Found, s: Sighting)
    requires Tracks(web, scan, found)
    ensures Tracks(web, See(scan, s), Sighted(web, found, s))
  {
    NextOrder(web, scan, found, s);
    forall k | k in Sighted(web, found, s).observed
      ensures Some(Sighted(web, found, s).observed[k]) == Merged(web, See(scan, s).sightings, k)
    {
      NextEntry(web, scan, found, s, k);
    }
    hide Sighted, See, Merged, FromKeys, Map;
  }

  lemma NextOrder(web: Web, scan: Scan, found: Found, s: Sighting)
    requires Tracks(web, scan, found)
    ensures var next := Sighted(web, found, s);
            && next.order == See(scan, s).Keys() && next.fetches == See(scan, s).fetches
            && forall k :: k in next.observed <==> k in next.order
  {
    SeeTracks(web, scan, found, s);
    hide Merge, ObservedFrom, Merged, FromKeys, Map;
  }

  lemma NextEntry(web: Web, scan: Scan, found: Found, s: Sighting, k: string)
    requires Tracks(web, scan, found) && k in Sighted(web, found, s).observed
    ensures Some(Sighted(web, found, s).observed[k]) == Merged(web, See(scan, s).sightings, k)
  {
    SeeTracks(web, scan, found, s);
    hide Merge, ObservedFrom, Merged, FromKeys, See;
    assert k != s.key ==> k in found.observed;
  }

  function ListCandidates(found: Found): seq<Candidate>
    requires forall k :: k in found.order ==> k in found.observed
  {
    seq(|found.order|, i requires 0 <= i < |found.order| => CandidateOf(found.observed[found.order[i]]))
  }

  lemma ListedCandidates(web: Web, scan: Scan, found: Found)
    requires Tracks(web, scan, found)
    ensures CandidatesOf(web, scan, ListCandidates(found))
  {
  }

  lemma TracksFrame(web: Web, scan: Scan, next: Scan, found: Found, after: Found)
    requires Tracks(web, scan, found) && next.sightings == scan.sightings
    requires after == found.(fetches := next.fetches)
    ensures Tracks(web, next, after)
  {
  }

  lemma OrderIsKeys(web: Web, scan: Scan, found: Found)
    requires Tracks(web, scan, found)
    ensures found.order == scan.Keys() && found.fetches == scan.fetches
  {
  }

  lemma {:induction false} UnsightedHasNone(web: Web, s: seq<Sighting>, key: string)
    requires key !in FromKeys(Map((t: Sighting) => t.key, s))
    ensures Merged(web, s, key).None?
  {
    if s != [] {
      var f := (t: Sighting) => t.key;
      assert s == s[..|s| - 1] + [s[|s| - 1]];
      MapAppend(f, s[..|s| - 1], [s[|s| - 1]]);
      assert Map(f, s)[|s| - 1] == s[|s| - 1].key;
      UnsightedHasNone(web, s[..|s| - 1], key);
    }
  }

  // --- what every scan keeps -----------------------------------------------------------

  function ValidOf(s: Sighting): Event { Valid(s.key, s.kind) }

  /** Both caps hold, and the valid-reference events are the sightings, in order. */
  ghost predicate WithinCaps(scan: Scan, lim: Limits) {
    && |scan.Keys()| <= lim.candidates
    && scan.fetches <= (if lim.pageFetches < 0 then 0 else lim.pageFetches)
    && Filter(scan.events, (e: Event) => e.Valid?) == Map(ValidOf, scan.sightings)
    && forall e :: e in scan.events ==> !e.Finalize?
  }

  lemma SeeKeeps(scan: Scan, lim: Limits, s: Sighting)
    requires WithinCaps(scan, lim) && !scan.Full(lim)
    ensures WithinCaps(See(scan, s), lim)
    ensures s.key in See(scan, s).Keys() && forall k :: k in scan.Keys() ==> k in See(scan, s).Keys()
  {
    var f := (s: Sighting) => s.key;
    MapAppend(f, scan.sightings, [s]);
    assert Map(f, [s]) == [s.key];
    FromKeysPush(Map(f, scan.sightings), s.key);
    FilterPush(scan.events, Valid(s.key, s.kind), (e: Event) => e.Valid?);
    MapAppend(ValidOf, scan.sightings, [s]);
    assert Map(ValidOf, [s]) == [ValidOf(s)];
  }

  /** Counters do not matter to the caps, nor does a fetch made under its cap. */
  lemma CapsFrame(scan: Scan, next: Scan, lim: Limits)
    requires WithinCaps(scan, lim) && next.events == scan.events && next.sightings == scan.sightings
    requires next.fetches == scan.fetches || next.fetches <= lim.pageFetches
    ensures WithinCaps(next, lim) && next.Keys() == scan.Keys() && next.Full(lim) == scan.Full(lim)
  {
  }

  /** The scan goes on from a state with room, and loses no key. */
  ghost predicate Continues(scan: Scan, next: Scan, lim: Limits) {
    && WithinCaps(next, lim) && next.aborted == scan.aborted
    && forall k :: k in scan.Keys() ==> k in next.Keys()
  }

  lemma {:induction false} LinksContinue(scan: Scan, lim: Limits, query: nat, links: seq<Link>)
    requires WithinCaps(scan, lim) && !scan.Full(lim)
    ensures Continues(scan, ScanLinks(scan, lim, query, links), lim)
    decreases |links|
  {
    if links != [] {
      var next := See(scan, LinkSighting(query, links[0]));
      SeeKeeps(scan, lim, LinkSighting(query, links[0]));
      hide WithinCaps;
      if !next.Full(lim) {
        LinksContinue(next, lim, query, links[1..]);
      }
    }
  }

  lemma ResultContinues(web: Web, scan: Scan, lim: Limits, query: nat, result: SearchResult)
    requires WithinCaps(scan, lim) && !scan.Full(lim)
    ensures Continues(scan, ScanResult(web, scan, lim, query, result), lim)
    ensures web.parse(result.url).Some?
            ==> web.parse(result.url).value in ScanResult(web, scan, lim, query, result).Keys()
  {
    var considered := scan.(considered := scan.considered + 1);
    CapsFrame(scan, considered, lim);
    var direct := web.parse(result.url);
    if direct.Some? {
      hide WithinCaps, Scan.Keys;
      SeeKeeps(considered, lim,
               Sighting(direct.value, DirectResult, query, result.title, web.host(result.url), result.url));
    } else if web.looksLikeTelegram(result.url) {
      hide FromKeys;
      FilterPush(scan.events, Invalid(web.fold(result.url), "INVALID_SOURCE_TYPE"), (e: Event) => e.Valid?);
    } else if scan.fetches < lim.pageFetches {
      hide WithinCaps, Scan.Keys;
      PageContinues(web, considered, lim, query, result.url);
    }
  }

  lemma PageContinues(web: Web, scan: Scan, lim: Limits, query: nat, url: string)
    requires WithinCaps(scan, lim) && !scan.Full(lim) && scan.fetches < lim.pageFetches
    ensures Continues(scan, ScanPage(web, scan, lim, query, url), lim)
  {
    hide WithinCaps, ScanLinks, Scan.Keys;
    var fetched := scan.(fetches := scan.fetches + 1);
    var missed := fetched.(failures := fetched.failures + 1);
    CapsFrame(scan, fetched, lim);
    CapsFrame(scan, missed, lim);
    assert Continues(scan, missed, lim);
    var page := web.fetch(url, lim.candidates - |scan.Keys()|);
    if page.Links? {
      LinksContinue(fetched, lim, query, page.links);
      ContinuesFrom(scan, fetched, ScanLinks(fetched, lim, query, page.links), lim);
    }
    hide Continues;
  }

  lemma ContinuesFrom(scan: Scan, next: Scan, end: Scan, lim: Limits)
    requires next.Keys() == scan.Keys() && next.aborted == scan.aborted && Continues(next, end, lim)
    ensures Continues(scan, end, lim)
  {
    hide WithinCaps, Scan.Keys;
  }

  lemma {:induction false} ResultsContinue(web: Web, scan: Scan, lim: Limits, query: nat, results: seq<SearchResult>)
    requires WithinCaps(scan, lim) && !scan.Full(lim)
    ensures var end := ScanResults(web, scan, lim, query, results);
            && Continues(scan, end, lim)
            && (end.Full(lim) ||
                forall r :: r in results && web.parse(r.url).Some? ==> web.parse(r.url).value in end.Keys())
    decreases |results|
  {
    if results != [] {
      hide WithinCaps, ScanResult;
      var next := ScanResult(web, scan, lim, query, results[0]);
      ResultContinues(web, scan, lim, query, results[0]);
      if !next.Full(lim) {
        ResultsContinue(web, next, lim, query, results[1..]);
      }
    }
  }

  /** Every direct reference among the first answers of these queries was observed. */
  ghost predicate DirectSeen(web: Web, queries: seq<seq<BackendOutcome>>, from: nat, keys: seq<string>) {
    forall q, r :: from <= q < |queries| && FirstAnswer(queries[q]).Some? && r in FirstAnswer(queries[q]).value &&
                   web.parse(r.url).Some?
                   ==> web.parse(r.url).value in keys
  }

  /** However the Web answers, a discovery stays within both caps, and one that neither aborts
      nor fills up has observed every direct reference. */
  lemma {:induction false} ScanStaysWithinCaps(web: Web, scan: Scan, lim: Limits, queries: seq<seq<BackendOutcome>>,
                                               from: nat)
    requires WithinCaps(scan, lim) && !scan.Full(lim) && !scan.aborted && from <= |queries|
    ensures var end := ScanQueries(web, scan, lim, queries, from);
            && WithinCaps(end, lim)
            && (forall k :: k in scan.Keys() ==> k in end.Keys())
            && (end.aborted || end.Full(lim) || DirectSeen(web, queries, from, end.Keys()))
    decreases |queries| - from
  {
    if from < |queries| {
      hide WithinCaps;
      var next := ScanQuery(web, scan, lim, from, queries[from]);
      QueryContinues(web, scan, lim, from, queries[from]);
      if !next.aborted && !next.Full(lim) {
        ScanStaysWithinCaps(web, next, lim, queries, from + 1);
      }
    }
  }

  lemma QueryContinues(web: Web, scan: Scan, lim: Limits, query: nat, outcomes: seq<BackendOutcome>)
    requires WithinCaps(scan, lim) && !scan.Full(lim) && !scan.aborted
    ensures var next := ScanQuery(web, scan, lim, query, outcomes);
            && WithinCaps(next, lim) && (forall k :: k in scan.Keys() ==> k in next.Keys())
            && (next.aborted <==> FirstAnswer(outcomes).None?)
            && (next.aborted || next.Full(lim)
                || forall r :: r in FirstAnswer(outcomes).value && web.parse(r.url).Some? ==>
                     web.parse(r.url).value in next.Keys())
  {
    var asked := Asked(scan, outcomes);
    CapsFrame(scan, asked, lim);
    CapsFrame(scan, asked.(aborted := true), lim);
    hide WithinCaps, Scan.Keys, Failures, ScanResult;
    var answer := FirstAnswer(outcomes);
    if answer.Some? {
      ResultsContinue(web, asked, lim, query, answer.value);
    }
  }

  lemma {:induction false} LinksNeverAbort(scan: Scan, lim: Limits, query: nat, links: seq<Link>)
    ensures ScanLinks(scan, lim, query, links).aborted == scan.aborted
    decreases |links|
  {
    if links != [] {
      LinksNeverAbort(See(scan, LinkSighting(query, links[0])), lim, query, links[1..]);
    }
  }

  lemma {:induction false} AnswersNeverAbort(web: Web, scan: Scan, lim: Limits, query: nat, results: seq<SearchResult>)
    ensures ScanResults(web, scan, lim, query, results).aborted == scan.aborted
    decreases |results|
  {
    if results != [] {
      var next := ScanResult(web, scan, lim, query, results[0]);
      ResultNeverAborts(web, scan, lim, query, results[0]);
      AnswersNeverAbort(web, next, lim, query, results[1..]);
    }
  }

  lemma ResultNeverAborts(web: Web, scan: Scan, lim: Limits, query: nat, result: SearchResult)
    ensures ScanResult(web, scan, lim, query, result).aborted == scan.aborted
  {
    forall fetched: Scan, links: seq<Link>
      ensures ScanLinks(fetched, lim, query, links).aborted == fetched.aborted
    {
      LinksNeverAbort(fetched, lim, query, links);
    }
  }

  /** A whole discovery on top of any history: the caps hold, the books balance, and every
      direct reference was observed unless the discovery aborted or filled up. */
  lemma DiscoveryKeepsBooks(web: Web, lim: Limits, queries: seq<seq<BackendOutcome>>, history: seq<Event>)
    requires lim.candidates > 0
    ensures var scan := ScanQueries(web, NOTHING, lim, queries, 0);
            var f := Replay(Replay(EMPTY, history), scan.events);
            && WithinCaps(scan, lim) && Balanced(f)
            && Accounted(f, DroppedCount(history + scan.events), LostCount(history + scan.events))
            && (scan.aborted || scan.Full(lim) || DirectSeen(web, queries, 0, scan.Keys()))
  {
    var scan := ScanQueries(web, NOTHING, lim, queries, 0);
    assert WithinCaps(NOTHING, lim);
    ScanStaysWithinCaps(web, NOTHING, lim, queries, 0);
    ReplayAppend(EMPTY, history, scan.events);
    FunnelAccounting(history + scan.events);
    hide WithinCaps, ScanQueries, Replay;
  }

  // --- a full list within one discovery ------------------------------------------------

  /** Links naming the n-th key up to the m-th. */
  function LinksBetween(n: nat, m: nat): seq<Link>
    decreases m - n
  {
    if n >= m then [] else [Link(NthKey(n), "", "page")] + LinksBetween(n + 1, m)
  }

  /** A web whose one page names m keys. */
  function CrowdedWeb(m: nat): Web {
    Web(url => None, url => url == "t.me/", url => "", url => url, (url, most) => Links(LinksBetween(0, m)),
        (domain, page, key) => key)
  }

  const MALFORMED: SearchResult := SearchResult("t.me/", "")

  const PAGE: SearchResult := SearchResult("page", "")

  /** The malformed reference and the first n keys have been met. */
  ghost predicate Met(scan: Scan, n: nat) {
    && scan.events == Meetings(n) && |scan.sightings| == n
    && forall i :: 0 <= i < n ==> scan.sightings[i].key == NthKey(i)
  }

  lemma MetKeys(scan: Scan, n: nat)
    requires Met(scan, n)
    ensures |scan.Keys()| == n
  {
    var keys := Map((s: Sighting) => s.key, scan.sightings);
    forall i, j | 0 <= i < j < n
      ensures keys[i] != keys[j]
    {
      NthKeyLength(i);
      NthKeyLength(j);
    }
    FromKeysOfDistinct(keys);
  }

  lemma MeetLink(scan: Scan, n: nat)
    requires Met(scan, n)
    ensures Met(See(scan, LinkSighting(0, Link(NthKey(n), "", "page"))), n + 1)
  {
    hide NthKey;
  }

  lemma {:induction false} LinksMet(scan: Scan, n: nat, m: nat)
    requires Met(scan, n) && n < m
    ensures Met(ScanLinks(scan, Limits(m, 1), 0, LinksBetween(n, m)), m)
    decreases m - n
  {
    var next := See(scan, LinkSighting(0, Link(NthKey(n), "", "page")));
    MeetLink(scan, n);
    MetKeys(next, n + 1);
    assert LinksBetween(n, m)[0] == Link(NthKey(n), "", "page") && LinksBetween(n, m)[1..] == LinksBetween(n + 1, m);
    assert next.Full(Limits(m, 1)) <==> n + 1 >= m;
    hide Met, Meetings, See, NthKey, LinksBetween, Scan.Full, Scan.Keys;
    if n + 1 < m {
      LinksMet(next, n + 1, m);
    }
  }

  lemma MalformedMet(m: nat)
    ensures var scan := ScanResult(CrowdedWeb(m), Asked(NOTHING, [Answered([MALFORMED, PAGE])]), Limits(m, 1), 0,
                                   MALFORMED);
            Met(scan, 0) && scan.fetches == 0
  {
    hide LinksBetween;
    assert Meetings(0) == [] + [Invalid("t.me/", "INVALID_SOURCE_TYPE")];
  }

  /** Inspecting a reachable page scans its links. */
  lemma PageScanned(web: Web, scan: Scan, lim: Limits, query: nat, result: SearchResult, links: seq<Link>)
    requires web.parse(result.url).None? && !web.looksLikeTelegram(result.url)
    requires scan.fetches < lim.pageFetches && !scan.Full(lim)
    requires web.fetch(result.url, lim.candidates - |scan.Keys()|) == Links(links)
    ensures ScanResult(web, scan, lim, query, result)
         == ScanLinks(scan.(considered := scan.considered + 1, fetches := scan.fetches + 1), lim, query, links)
  {
    hide ScanLinks;
    SameKeys(scan, scan.(considered := scan.considered + 1));
  }

  lemma SameKeys(scan: Scan, other: Scan)
    requires scan.sightings == other.sightings
    ensures scan.Keys() == other.Keys() && forall lim :: scan.Full(lim) == other.Full(lim)
  {
  }

  lemma PageMet(scan: Scan, m: nat)
    requires Met(scan, 0) && scan.fetches == 0 && 0 < m
    ensures Met(ScanResult(CrowdedWeb(m), scan, Limits(m, 1), 0, PAGE), m)
  {
    var fetched := scan.(considered := scan.considered + 1, fetches := 1);
    MetKeys(scan, 0);
    assert Met(fetched, 0) && !scan.Full(Limits(m, 1)) && |"page"| != |"t.me/"|;
    hide Met, Scan.Full, Scan.Keys, ScanResult, ScanLinks, LinksBetween;
    PageScanned(CrowdedWeb(m), scan, Limits(m, 1), 0, PAGE, LinksBetween(0, m));
    LinksMet(fetched, 0, m);
  }

  /** The discovery meets exactly the malformed reference and the m keys. */
  lemma CrowdedScan(m: nat)
    requires 0 < m
    ensures ScanQueries(CrowdedWeb(m), NOTHING, Limits(m, 1), [[Answered([MALFORMED, PAGE])]], 0).events == Meetings(m)
  {
    var web, lim, answer := CrowdedWeb(m), Limits(m, 1), [MALFORMED, PAGE];
    var asked := Asked(NOTHING, [Answered(answer)]);
    var one := ScanResult(web, asked, lim, 0, MALFORMED);
    var two := ScanResult(web, one, lim, 0, PAGE);
    MalformedMet(m);
    MetKeys(one, 0);
    PageMet(one, m);
    MetKeys(two, m);
    hide ScanResult, Meetings, Asked, CrowdedWeb, Scan.Keys;
    assert answer[1..] == [PAGE] && answer[0] == MALFORMED;
    assert ScanResults(web, one, lim, 0, [PAGE]) == two;
    assert ScanResults(web, asked, lim, 0, answer) == two;
    assert ScanQuery(web, NOTHING, lim, 0, [Answered(answer)]) == two;
  }

  /** One discovery under the largest candidate cap the provider accepts is enough: it meets a
      malformed reference and 1000 new keys, and after the finalize one of those is in no bucket. */
  lemma OneDiscoveryLosesReference(c: Classifications)
    ensures var scan := ScanQueries(CrowdedWeb(1000), NOTHING, Limits(1000, 1), [[Answered([MALFORMED, PAGE])]], 0);
            var f := Apply(Replay(EMPTY, scan.events), Finalize(c));
            f.valid == 1000 && Total(f.terminal) == 999
  {
    hide Meetings, ScanQueries, CrowdedWeb, Replay, Apply, Total;
    CrowdedScan(1000);
    FullListLosesReference(c);
  }
}
