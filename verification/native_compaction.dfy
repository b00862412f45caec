/**
 Preparing and dispatching a native request with compaction: which of transformer, plan and recovery
 a request carries, and that a claimed recovery is settled exactly once whatever happens.
 */
module NativeCompaction {
  import opened Wrappers
  import opened Bytes
  import opened EventStream
  import opened PassthroughCopy
  import opened PassthroughForward

  /** A reservation of a recovery: it is to be completed or released, once. */
  class Recovery {
    var completed: nat
    var released: nat

    constructor ()
      ensures IsOpen()
    {
      completed, released := 0, 0;
    }

    predicate IsOpen()
      reads this
    {
      completed == 0 && released == 0
    }

    /** Settled once, one way or the other. */
    predicate Settled(complete: bool)
      reads this
    {
      if complete then completed == 1 && released == 0 else completed == 0 && released == 1
    }

    method Complete()
      modifies this
      ensures completed == old(completed) + 1 && released == old(released)
    {
      completed := completed + 1;
    }

    method Release()
      modifies this
      ensures released == old(released) + 1 && completed == old(completed)
    {
      released := released + 1;
    }
  }

  /** The plan of a compaction turn: armed when the turn succeeds, released when its copy fails. */
  class Plan {
    var armed: nat
    var released: nat

    constructor ()
      ensures armed == 0 && released == 0
    {
      armed, released := 0, 0;
    }

    method Arm()
      modifies this
      ensures armed == old(armed) + 1 && released == old(released)
    {
      armed := armed + 1;
    }

    method Release()
      modifies this
      ensures released == old(released) + 1 && armed == old(armed)
    {
      released := released + 1;
    }
  }

  /**
   What the compaction library finds in a request. `second` says the headers ask for the second
   protocol; `plan` is the planned body; `injected` the body with a recovery, which claims one;
   `transformed` the body for a transformer; `encode` puts a body back under the content encoding.
   */
  datatype Findings = Findings(
    second: bool, plan: Option<bytes>, injected: Option<bytes>, transformed: Option<bytes>,
    encode: bytes -> Option<bytes>)

  /** A request ready to go out. */
  datatype Prepared = Prepared(body: bytes, transforms: bool, plan: Plan?, recovery: Recovery?)

  /** The body to send: the wire body when nothing changed, else the new body encoded. */
  function PlannedBody(wire: bytes, decoded: bytes, f: Findings): Option<bytes> {
    if f.plan.None? then None
    else if f.plan.value == decoded then Some(wire)
    else f.encode(f.plan.value)
  }

  predicate Claims(f: Findings) {
    !f.second && f.injected.Some?
  }

  /** The claim goes out with the request: the injected body could be encoded. */
  predicate ClaimGoesOut(f: Findings) {
    Claims(f) && f.encode(f.injected.value).Some?
  }

  method PrepareSecond(wire: bytes, decoded: bytes, f: Findings) returns (body: bytes, plan: Plan?)
    ensures var planned := PlannedBody(wire, decoded, f);
      && (planned.Some? <==> plan != null) && body == (if planned.Some? then planned.value else wire)
      && (plan != null ==> fresh(plan) && plan.armed == 0 && plan.released == 0)
  {
    if f.plan.None? {
      return wire, null;
    }
    if f.plan.value == decoded {
      var p := new Plan();
      return wire, p;
    }
    var encoded := f.encode(f.plan.value);
    if encoded.None? {
      return wire, null;
    }
    var p := new Plan();
    return encoded.value, p;
  }

  /**
   At most one of transformer, plan and recovery comes out. A claim that does not go out with the
   request is released here. A request that carries none of them goes out as it came in.
   */
  method Prepare(wire: bytes, decoded: bytes, f: Findings) returns (p: Prepared, claim: Recovery?)
    ensures !(p.transforms && p.plan != null) && !(p.transforms && p.recovery != null)
    ensures !(p.plan != null && p.recovery != null)
    ensures !p.transforms && p.plan == null && p.recovery == null ==> p.body == wire
    ensures claim != null <==> Claims(f)
    ensures claim != null ==> fresh(claim) && if ClaimGoesOut(f) then p.recovery == claim && claim.IsOpen()
      else p.recovery == null && claim.Settled(false)
    ensures p.recovery != null ==> p.recovery == claim && p.body == f.encode(f.injected.value).value
    ensures p.plan != null <==> f.second && PlannedBody(wire, decoded, f).Some?
    ensures p.plan != null ==>
      fresh(p.plan) && p.plan.armed == 0 && p.plan.released == 0 && p.body == PlannedBody(wire, decoded, f).value
    ensures p.transforms <==>
      !f.second && f.injected.None? && f.transformed.Some? && f.encode(f.transformed.value).Some?
    ensures p.transforms ==> p.body == f.encode(f.transformed.value).value
  {
    claim := null;
    if f.second {
      var body, plan := PrepareSecond(wire, decoded, f);
      return Prepared(body, false, plan, null), null;
    }
    if f.injected.Some? {
      var recovery := new Recovery();
      claim := recovery;
      var encoded := f.encode(f.injected.value);
      if encoded.None? {
        recovery.Release();
        p := Prepared(wire, false, null, null);
        return;
      }
      p := Prepared(encoded.value, false, null, recovery);
      return;
    }
    if f.transformed.None? {
      p := Prepared(wire, false, null, null);
      return;
    }
    var encoded := f.encode(f.transformed.value);
    if encoded.None? {
      p := Prepared(wire, false, null, null);
      return;
    }
    p := Prepared(encoded.value, true, null, null);
  }

  // ---- Dispatch ----

  /**
   What the provider does: there may be none, it may fail to open, or it answers. `finalAnswer`
   says the turn gets a final-answer transformer, `mutates` that this transformer changed the answer.
   */
  datatype Provider = Missing | FailsToOpen | Opens(answer: Answer, finalAnswer: bool, mutates: bool)

  predicate CopySucceeds(provider: Provider, accepts: nat) {
    provider.Opens? && !provider.answer.broken && !CopyAll(provider.answer.chunks, accepts).refused
  }

  /** The turn kept the recovered text: the answer came through whole, with a 2xx, and was changed. */
  predicate KeepsRecovery(provider: Provider, accepts: nat) {
    && CopySucceeds(provider, accepts) && 200 <= provider.answer.status < 300
    && provider.finalAnswer && provider.mutates
  }

  method SettleRecovery(recovery: Recovery?, keep: bool)
    requires recovery != null ==> recovery.IsOpen()
    modifies recovery
    ensures recovery != null ==> recovery.Settled(keep)
  {
    if recovery != null {
      if keep {
        recovery.Complete();
      } else {
        recovery.Release();
      }
    }
  }

  method SettlePlan(plan: Plan?, ok: bool, succeeded: bool)
    requires plan != null ==> plan.armed == 0 && plan.released == 0
    modifies plan
    ensures plan != null ==> plan.armed == (if ok && succeeded then 1 else 0) && plan.released == (if ok then 0 else 1)
  {
    if ok && succeeded && plan != null {
      plan.Arm();
    }
    if !ok && plan != null {
      plan.Release();
    }
  }

  datatype Lifecycle = Began | Opened | Ended(failed: bool)

  /** The events of a dispatch: none without a provider, else a beginning, an opening if it streams, and an end. */
  predicate Tells(events: seq<Lifecycle>, provider: Provider, accepts: nat, streamRequested: bool) {
    if provider.Missing? then events == []
    else if provider.FailsToOpen? then events == [Began, Ended(true)]
    else
      var success := 200 <= provider.answer.status < 300;
      var streams := provider.answer.eventStream || (streamRequested && success);
      events == [Began] + (if streams then [Opened] else []) + [Ended(!(CopySucceeds(provider, accepts) && success))]
  }

  method Dispatch(p: Prepared, provider: Provider, accepts: nat, retained: nat, streamRequested: bool)
    returns (events: seq<Lifecycle>)
    requires p.recovery != null ==> p.recovery.IsOpen()
    requires p.plan != null ==> p.plan.armed == 0 && p.plan.released == 0
    modifies p.recovery, p.plan
    ensures p.recovery != null ==> p.recovery.Settled(KeepsRecovery(provider, accepts))
    ensures p.plan != null ==>
              && p.plan.armed == (if CopySucceeds(provider, accepts) && 200 <= provider.answer.status < 300 then 1
                else 0)
              && p.plan.released == (if provider.Opens? && !CopySucceeds(provider, accepts) then 1 else 0)
    ensures Tells(events, provider, accepts, streamRequested)
  {
    hide CopyAll, StreamUsage, First;
    events := [];
    if provider.Missing? {
      SettleRecovery(p.recovery, false);
      return;
    }
    events := [Began];
    if provider.FailsToOpen? {
      SettleRecovery(p.recovery, false);
      events := events + [Ended(true)];
      return;
    }
    var answer := provider.answer;
    var streaming := answer.eventStream || (streamRequested && Succeeded(answer.status));
    if streaming {
      events := events + [Opened];
    }
    var result, ok, written := CopyPassthroughResponse(answer.chunks, answer.broken, accepts, retained);
    var succeeded := Succeeded(answer.status);
    SettlePlan(p.plan, ok, succeeded);
    SettleRecovery(p.recovery, ok && succeeded && provider.finalAnswer && provider.mutates);
    events := events + [Ended(!(ok && succeeded))];
  }

  /**
   The end of a native dispatch. Every claim is settled exactly once: completed if and only if the
   claim went out, the provider opened, the copy succeeded, the status was a 2xx and the answer was
   changed; released otherwise.
   */
  method PrepareAndDispatch(wire: bytes, decoded: bytes, f: Findings, provider: Provider, accepts: nat, retained: nat,
      streamRequested: bool)
    returns (events: seq<Lifecycle>, claim: Recovery?)
    ensures claim != null <==> Claims(f)
    ensures claim != null ==> claim.Settled(ClaimGoesOut(f) && KeepsRecovery(provider, accepts))
    ensures Tells(events, provider, accepts, streamRequested)
  {
    hide KeepsRecovery, Tells;
    var p;
    p, claim := Prepare(wire, decoded, f);
    events := Dispatch(p, provider, accepts, retained, streamRequested);
  }
}
