/** Analyzers, their routing, and the identities a cached analysis is accepted under. */
module OpportunityAnalysis {
  import opened Sequences
  import Prefilter = MessagePrefilter

  type CompatibilityKey = Prefilter.CompatibilityKey

  // --- analyzers ---------------------------------------------------------------

  const SCHEMA_VERSION := "opportunity_analysis.v1"
  const LEGACY_SCHEMA_VERSION := "opportunity-analysis.v1"
  const ANALYZER_VERSION := "opportunity-analyzer.v1"

  datatype Identity = Identity(provider: string, model: string, analyzerVersion: string, promptVersion: string,
                               schemaVersion: string)

  /** Confidence counts in units of 0.0001; `content` stands for everything else the model said. */
  datatype Analysis = Analysis(isOpportunity: bool, confidence: nat, schemaVersion: string, content: string)

  /** `details` stands for the response model, attempt count, usage and stage. */
  datatype Call = Call(analysis: Analysis, identity: Identity, details: string, routingVersion: string,
                       routeReason: string)

  datatype Analyzer =
    | Plain(route: Identity)
    | Routed(primary: Identity, fallback: Option<Identity>, threshold: nat, routingVersion: string)
  {
    /** What the constructor checks. */
    predicate Valid() {
      Routed? ==> primary.schemaVersion == SCHEMA_VERSION && (fallback.Some? ==> SameContract(primary, fallback.value))
    }

    function Face(): Identity { if Plain? then route else primary }

    predicate AcceptsMetadata(identity: Identity, routing: string) {
      Routed? && (identity == primary || fallback == Some(identity)) && routing == routingVersion
    }

    predicate AcceptsCall(call: Call) {
      && (if Plain? then call.identity == route else AcceptsMetadata(call.identity, call.routingVersion))
      && call.analysis.schemaVersion == SCHEMA_VERSION
    }

    predicate AcceptsEnvelope(envelope: Envelope) {
      AcceptsMetadata(envelope.identity, envelope.routingVersion) || envelope.identity == Face()
    }
  }

  predicate SameContract(a: Identity, b: Identity) {
    a.analyzerVersion == b.analyzerVersion && a.promptVersion == b.promptVersion && a.schemaVersion == b.schemaVersion
  }

  datatype Reply = Replied(call: Call) | BudgetExceeded | Failed

  /** `RoutedOpportunityAnalyzer.analyze`, or the one route's own reply. */
  function Analyze(a: Analyzer, first: Reply, second: Reply): (reply: Reply) {
    if a.Plain? || !first.Replied? then first
    else if a.fallback.None? || first.call.analysis.confidence >= a.threshold then
      Replied(first.call.(routingVersion := a.routingVersion, routeReason := "primary_confident"))
    else
      match second
      case BudgetExceeded =>
        Replied(first.call.(routingVersion := a.routingVersion, routeReason := "fallback_budget_exhausted"))
      case Replied(call) => Replied(call.(routingVersion := a.routingVersion, routeReason := "low_confidence_fallback"))
      case Failed => Failed
  }

  /** A route answers under its own name and the current schema. */
  predicate Honest(reply: Reply, route: Identity) {
    reply.Replied? ==> reply.call.identity == route && reply.call.analysis.schemaVersion == SCHEMA_VERSION
  }

  /** Whatever route answered, its call is one the configured analyzer accepts;
      the fallback speaks exactly for a primary answer below the threshold. */
  lemma RoutedCallIsAccepted(a: Analyzer, first: Reply, second: Reply)
    requires Honest(first, a.Face())
    requires a.Routed? && a.fallback.Some? ==> Honest(second, a.fallback.value)
    ensures var reply := Analyze(a, first, second);
            && (reply.Replied? ==> a.AcceptsCall(reply.call))
            && (first.Replied? && second.BudgetExceeded? ==>
                  reply.Replied? && reply.call.analysis == first.call.analysis)
            && (a.Routed? && reply.Replied? ==>
                  (reply.call.routeReason == "low_confidence_fallback"
                   <==> a.fallback.Some? && first.call.analysis.confidence < a.threshold && second.Replied?))
  {
  }

  // --- what is cached --------------------------------------------------------------

  datatype Envelope = Envelope(analysis: Analysis, identity: Identity, details: string, cacheVersion: string,
                               routingVersion: string, routeReason: string)

  function EnvelopeOf(call: Call, cacheVersion: string): Envelope {
    Envelope(call.analysis, call.identity, call.details, cacheVersion, call.routingVersion, call.routeReason)
  }

  /** An accepted call is cached under an envelope the same configuration accepts. */
  lemma OwnEnvelopeIsAccepted(a: Analyzer, call: Call, cacheVersion: string)
    requires a.AcceptsCall(call)
    ensures a.AcceptsEnvelope(EnvelopeOf(call, cacheVersion))
  {
  }

  // --- compatibility versions ----------------------------------------------------

  /** Digests and UUID text, kept abstract. */
  datatype Texts = Texts(digest: Analyzer -> string, defaultModel: string, defaultPrompt: string,
                         render: nat -> string, parse: string -> Option<nat>)
  {
    ghost predicate Valid() { forall id: nat :: parse(render(id)) == Some(id) }
  }

  function CacheVersion(x: Texts, a: Analyzer): string {
    var base := a.Face().analyzerVersion;
    (if |base| <= 50 then base else base[..50]) + "." + x.digest(a)
  }

  predicate DefaultRoute(x: Texts, a: Analyzer) {
    a.Face() == Identity("openai", x.defaultModel, ANALYZER_VERSION, x.defaultPrompt, SCHEMA_VERSION)
  }

  predicate SupportsJob(x: Texts, a: Analyzer, key: CompatibilityKey) {
    && (|| key.analyzerVersion == CacheVersion(x, a)
        || (a.Routed? && key.analyzerVersion == CacheVersion(x, Plain(a.primary)))
        || (DefaultRoute(x, a) && key.analyzerVersion == a.Face().analyzerVersion))
    && (key.schemaVersion == a.Face().schemaVersion || key.schemaVersion == LEGACY_SCHEMA_VERSION)
  }
}
