/** The bracket around every delegated call of the pool (doQuery, doExecute, doPrepare,
    doNotify, doTransaction in lib/AbstractPool.php): the connection from pop is pushed
    back either as soon as the call returns or throws, or when the returned handle
    signals completion. */
module Dispatch {
  import opened PoolSteps
  import PoolProtocol

  datatype Operation = Query | Execute | Prepare | Notify | Transaction

  /** How the delegated connection call ended. */
  datatype Delegated =
    | Threw
    | Returned(isOperation: bool)  // the value is an Operation, which exposes onComplete

  datatype ReleaseTime = Now | OnComplete

  /** When the bracket of `op` pushes its connection back. */
  function ReleaseTiming(op: Operation, d: Delegated): (t: ReleaseTime)
    ensures d == Threw ==> t == Now
    ensures op == Prepare || op == Notify ==> t == Now
    ensures op == Transaction ==> (t == OnComplete <==> d.Returned?)
    ensures op == Query || op == Execute ==> (t == OnComplete <==> d == Returned(true))
  {
    match op
    case Prepare | Notify => Now
    case Transaction => if d == Threw then Now else OnComplete
    case Query | Execute => if d == Returned(true) then OnComplete else Now
  }

  /** The part of the bracket after the delegated call on the leased connection `c`.
      The caller sees the call's value, or its failure rethrown after the push; a push
      that itself throws replaces both. */
  function AfterCall(s: PoolState, op: Operation, c: ConnId, d: Delegated): (o: Outcome<Delegated>)
    requires c in s.leased
    ensures ReleaseTiming(op, d) == OnComplete ==> o == Outcome(s, Ok(d))
    ensures ReleaseTiming(op, d) == Now ==> o.post == Release(s, c).post
    ensures ReleaseTiming(op, d) == Now && Release(s, c).result.Ok? ==>
      o.result == (if d == Threw then Err(Rethrown) else Ok(d))
    ensures ReleaseTiming(op, d) == Now && Release(s, c).result.Err? ==>
      o.result == Err(NotPartOfPool)
    ensures o.result.Ok? ==> o.result.value == d && d != Threw
  {
    if ReleaseTiming(op, d) == OnComplete then Outcome(s, Ok(d))
    else
      var r := Release(s, c);
      if r.result.Err? then Outcome(r.post, Err(r.result.error))
      else if d == Threw then Outcome(r.post, Err(Rethrown))
      else Outcome(r.post, Ok(d))
  }

  /** A call that releases at once (every failure, every prepare and notify, a plain
      query or execute result) leaves its connection idle at the tail, ends its lease,
      and hands the caller the call's own value or failure. */
  lemma ImmediateReleaseReturnsConnection(s: PoolState, max: nat, op: Operation, c: ConnId, d: Delegated)
    requires PoolSteps.Inv(s, max) && c in s.leased
    requires ReleaseTiming(op, d) == Now
    ensures var o := AfterCall(s, op, c, d);
      && PoolSteps.Inv(o.post, max)
      && o.post.idle == s.idle + [c] && c !in o.post.leased
      && |o.post.leased| == |s.leased| - 1
      && o.result == (if d == Threw then Err(Rethrown) else Ok(d))
  {
    PoolProtocol.ReleasePreservesInv(s, max, c);
    PoolProtocol.InvFacts(s, max, c);
  }

  /** A call whose handle releases on completion keeps its connection out of the idle
      queue until then; the completion hook then puts it back. */
  lemma DeferredReleaseKeepsLease(s: PoolState, max: nat, op: Operation, c: ConnId, d: Delegated)
    requires PoolSteps.Inv(s, max) && c in s.leased
    requires ReleaseTiming(op, d) == OnComplete
    ensures var o := AfterCall(s, op, c, d);
      && c !in o.post.idle && c in o.post.leased
      && Release(o.post, c).result.Ok?
      && c in Release(o.post, c).post.idle
  {
    PoolProtocol.InvFacts(s, max, c);
    PoolProtocol.ReleasePreservesInv(s, max, c);
  }

  /** However other callers interleave before the completion hook runs (short of
      pushing this connection or adopting it for listening), the connection is still
      leased and not idle, and the hook's push then succeeds and makes it idle. */
  lemma DeferredReleaseAfterAnyInterleaving(s: PoolState, max: nat, op: Operation, c: ConnId, d: Delegated,
                                            es: seq<PoolProtocol.Event>)
    requires PoolSteps.Inv(s, max) && c in s.leased
    requires ReleaseTiming(op, d) == OnComplete
    requires forall i :: 0 <= i < |es| ==>
      es[i] != PoolProtocol.Release(c) && es[i] != PoolProtocol.ListenPopSettled(Ok(c))
    ensures var t := PoolProtocol.Run(AfterCall(s, op, c, d).post, max, es);
      && c in t.leased && c !in t.idle
      && Release(t, c).result.Ok? && c in Release(t, c).post.idle
  {
    PoolProtocol.LeaseHeldUntilReleased(s, max, es, c);
    PoolProtocol.RunPreservesInv(s, max, es);
    PoolProtocol.ReleaseOfLeaseSucceeds(PoolProtocol.Run(s, max, es), max, c);
  }
}
