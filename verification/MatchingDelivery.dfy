/** The fan-out job's idempotency key: one spelling for each opportunity. */
module MatchingDelivery {
  import opened Sequences
  import opened OpportunityAnalysis

  const JOB_KEY_PREFIX := "opportunity:"

  function FanoutKey(x: Texts, opportunity: nat): string { JOB_KEY_PREFIX + x.render(opportunity) }

  datatype KeyError = UnsupportedPrefix | InvalidId | NotCanonical

  function DecodeFanoutKey(x: Texts, key: string): Result<nat, KeyError> {
    if !(JOB_KEY_PREFIX <= key) then Failure(UnsupportedPrefix)
    else
      var id := x.parse(key[|JOB_KEY_PREFIX|..]);
      if id.None? then Failure(InvalidId) else Success(id.value)
  }

  /** The check at the head of the matching job's `process`. */
  function ClaimedOpportunity(x: Texts, key: string): Result<nat, KeyError> {
    var decoded := DecodeFanoutKey(x, key);
    if decoded.Failure? then decoded
    else if key != FanoutKey(x, decoded.value) then Failure(NotCanonical)
    else decoded
  }

  lemma FanoutKeyDecodes(x: Texts, id: nat)
    requires x.Valid()
    ensures FanoutKey(x, id) == "opportunity:" + x.render(id) && DecodeFanoutKey(x, FanoutKey(x, id)) == Success(id)
  {
    assert FanoutKey(x, id)[|JOB_KEY_PREFIX|..] == x.render(id);
  }

  /** A claim is accepted exactly when its key is the one some opportunity was queued under,
      even though UUID parsing also accepts other spellings. */
  lemma ClaimAcceptedIffQueuedKey(x: Texts, key: string, id: nat)
    requires x.Valid()
    ensures ClaimedOpportunity(x, key) == Success(id) <==> key == FanoutKey(x, id)
  {
    FanoutKeyDecodes(x, id);
  }

  lemma FanoutKeyInjective(x: Texts)
    requires x.Valid()
    ensures forall o, p :: FanoutKey(x, o) == FanoutKey(x, p) ==> o == p
  {
    forall o: nat, p: nat | FanoutKey(x, o) == FanoutKey(x, p)
      ensures o == p
    {
      FanoutKeyDecodes(x, o);
      FanoutKeyDecodes(x, p);
    }
  }

  lemma {:induction false} KeysAreDistinct(x: Texts, s: set<nat>)
    requires x.Valid()
    ensures |set o | o in s :: FanoutKey(x, o)| == |s|
  {
    if s != {} {
      var p :| p in s;
      KeysAreDistinct(x, s - {p});
      FanoutKeyInjective(x);
      var rest := set o | o in s - {p} :: FanoutKey(x, o);
      assert FanoutKey(x, p) !in rest;
      assert (set o | o in s :: FanoutKey(x, o)) == rest + {FanoutKey(x, p)};
    }
  }
}
