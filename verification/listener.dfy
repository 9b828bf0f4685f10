/** The reference-counted listening connection of the pool (doListen in
    lib/AbstractPool.php): one connection shared by every active listen subscription,
    acquired by the first caller, returned to the idle queue by the last one. */
module ListenerProtocol {
  import opened PoolSteps
  import opened PoolProtocol

  /** A listen call that fails on an already listening connection (for instance a
      channel already listened on) leaves the pool exactly as it found it. */
  lemma FailedSharedListenRestoresPool(s: PoolState, max: nat)
    requires Inv(s, max) && s.listening.Ready?
    ensures var entered := ListenEnter(s);
      && !entered.1
      && ListenAwait(entered.0).result == Ok(s.listening.conn)
      && DropListener(ListenAwait(entered.0).post) == Outcome(s, Ok(()))
  {
  }

  /** When the last subscription ends, the listening field is cleared, the count is
      zero and the shared connection is back at the tail of the idle queue. */
  lemma LastListenerReturnsConnection(s: PoolState, max: nat)
    requires Inv(s, max) && s.listening.Ready? && s.listenerCount == 1
    ensures var o := DropListener(s);
      && o.result.Ok?
      && o.post.listening == NoListener && o.post.listenerCount == 0
      && o.post.idle == s.idle + [s.listening.conn]
      && Inv(o.post, max)
  {
    DropPreservesInv(s, max);
  }

  /** While other subscriptions remain, ending one only lowers the count. */
  lemma EarlierListenerKeepsConnection(s: PoolState, max: nat)
    requires Inv(s, max) && s.listening.Ready? && s.listenerCount > 1
    ensures DropListener(s).post == s.(listenerCount := s.listenerCount - 1)
  {
  }

  /** The first listen acquires the head of the idle queue and makes it the listening
      connection, with itself as the only subscriber. */
  lemma FirstListenAcquiresHead(s: PoolState, max: nat)
    requires Inv(s, max) && s.listening == NoListener && s.gate == Open && s.idle != []
    ensures Run(s, max, [ListenStart, Enter, ListenPopSettled(Ok(s.idle[0])), ListenResume])
            == s.(listenerCount := 1, listening := Ready(s.idle[0]), idle := s.idle[1..])
  {
    var c := s.idle[0];
    var xs := [ListenStart, Enter];
    var ys := [ListenPopSettled(Ok(c)), ListenResume];
    assert xs + ys == [ListenStart, Enter, ListenPopSettled(Ok(c)), ListenResume];
    RunSplit(s, max, xs, ys);
    ListenStartShiftsHead(s, max);
    AdoptAndResume(s.(listenerCount := 1, listening := Pending(Running), idle := s.idle[1..],
                      leased := s.leased + multiset{c}), max, c, s.leased);
  }

  /** The first half: the subscriber is counted, the acquisition starts and shifts the head. */
  lemma ListenStartShiftsHead(s: PoolState, max: nat)
    requires s.listening == NoListener && s.gate == Open && s.idle != []
    ensures Run(s, max, [ListenStart, Enter])
            == s.(listenerCount := s.listenerCount + 1, listening := Pending(Running),
                  idle := s.idle[1..], leased := s.leased + multiset{s.idle[0]})
  {
    var s1 := s.(listenerCount := s.listenerCount + 1, listening := Pending(Running));
    assert Step(s, max, ListenStart) == s1;
    var s2 := s1.(idle := s.idle[1..], leased := s.leased + multiset{s.idle[0]});
    assert Step(s1, max, Enter) == s2;
    assert Run(s, max, [ListenStart, Enter]) == Run(s1, max, [Enter]);
    assert Run(s1, max, [Enter]) == Run(s2, max, []);
  }

  /** The second half: the acquisition adopts its connection and the listen resumes on it. */
  lemma AdoptAndResume(s: PoolState, max: nat, c: ConnId, rest: multiset<ConnId>)
    requires s.listening == Pending(Running) && s.listenerCount > 0 && s.leased == rest + multiset{c}
    ensures Run(s, max, [ListenPopSettled(Ok(c)), ListenResume])
            == s.(listening := Ready(c), leased := rest)
  {
    var s3 := s.(listening := Pending(Resolved(c)), leased := rest);
    assert s.leased - multiset{c} == rest;
    assert Step(s, max, ListenPopSettled(Ok(c))) == s3;
    var s4 := s3.(listening := Ready(c));
    assert Step(s3, max, ListenResume) == s4;
    assert Run(s, max, [ListenPopSettled(Ok(c)), ListenResume]) == Run(s3, max, [ListenResume]);
    assert Run(s3, max, [ListenResume]) == Run(s4, max, []);
  }

  /** The first listen on a pool with an idle connection, failing its listen call:
      it acquires the head of the idle queue and, being the only subscriber, gives it
      back to the tail, with the count back at zero. */
  lemma FirstListenFailureReturnsConnection(s: PoolState, max: nat)
    requires Inv(s, max) && s.listening == NoListener && s.gate == Open && s.idle != []
    ensures var t := Run(s, max, [ListenStart, Enter, ListenPopSettled(Ok(s.idle[0])), ListenResume, ListenDrop]);
      && t.listening == NoListener && t.listenerCount == 0
      && t.idle == s.idle[1..] + [s.idle[0]]
      && t.leased == s.leased && t.connections == s.connections
  {
    var c := s.idle[0];
    var es := [ListenStart, Enter, ListenPopSettled(Ok(c)), ListenResume, ListenDrop];
    FirstListenAcquiresHead(s, max);
    assert es[..4] == [ListenStart, Enter, ListenPopSettled(Ok(c)), ListenResume];
    assert es == es[..4] + [ListenDrop];
    RunSplit(s, max, es[..4], [ListenDrop]);
    var s4 := s.(listenerCount := 1, listening := Ready(c), idle := s.idle[1..]);
    assert Run(s, max, es) == Run(s4, max, [ListenDrop]);
    InvFacts(s, max, c);
    var s5 := s4.(listenerCount := 0, listening := NoListener, idle := s.idle[1..] + [c]);
    assert Step(s4, max, ListenDrop) == s5;
    assert Run(s4, max, [ListenDrop]) == Run(s5, max, []);
  }

  /** As written, a failed acquisition of the listening connection is never rolled
      back: the failing caller stays counted, the failed coroutine stays in the
      listening field, and every later listen waits on it and fails again. */
  lemma FailedAcquisitionSticksAsWritten(s: PoolState)
    requires s.listening == Pending(Rejected) && s.listenerCount > 0
    ensures ListenAwaitAsWritten(s) == Outcome(s, Err(ListenerPopFailed))
    ensures var next := ListenEnter(s);
      && !next.1
      && ListenAwaitAsWritten(next.0) == Outcome(next.0, Err(ListenerPopFailed))
      && next.0.listenerCount == s.listenerCount + 1
  {
  }

  /** The concrete run that shows it: on a fresh pool the first listen's connection
      creation fails; afterwards the count stays at one, and the next listen starts no
      new acquisition and fails with the same error even if the factory would now
      succeed. */
  lemma FirstListenFactoryFailureAsWritten()
    ensures var s1 := ListenEnter(Empty).0;
      var s2 := PopEnter(s1, 1).0;
      var s3 := PopCreated(s2, FactoryFailed).post;
      var s4 := PoolSteps.ListenPopSettled(s3, Err(ConnectFailed));
      var o := ListenAwaitAsWritten(s4);
      && PopEnter(s1, 1).1 == StartedCreate
      && o.result == Err(ListenerPopFailed)
      && o.post.listenerCount == 1 && o.post.listening == Pending(Rejected)
      && !ListenEnter(o.post).1
      && ListenAwaitAsWritten(ListenEnter(o.post).0).result == Err(ListenerPopFailed)
  {
  }

  /** With the rollback, a failed acquisition uncounts its caller and the last failing
      caller clears the field, so that the next listen starts a fresh acquisition; the
      pool invariant holds throughout. */
  lemma FailedAcquisitionRollsBack(s: PoolState, max: nat)
    requires Inv(s, max) && s.listening == Pending(Rejected)
    ensures var o := ListenAwait(s);
      && o.result == Err(ListenerPopFailed)
      && o.post.listenerCount == s.listenerCount - 1
      && Inv(o.post, max)
      && (s.listenerCount == 1 ==> o.post.listening == NoListener && ListenEnter(o.post).1)
  {
  }

  /** The same fresh-pool run with the rollback: the count returns to zero and the next
      listen starts a new acquisition. */
  lemma FirstListenFactoryFailureRecovers()
    ensures var s1 := ListenEnter(Empty).0;
      var s2 := PopEnter(s1, 1).0;
      var s3 := PopCreated(s2, FactoryFailed).post;
      var s4 := PoolSteps.ListenPopSettled(s3, Err(ConnectFailed));
      var o := ListenAwait(s4);
      && o.result == Err(ListenerPopFailed)
      && o.post == Empty
      && ListenEnter(o.post).1
  {
  }
}
