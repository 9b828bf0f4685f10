/** The pool as a transition system: any interleaving of the atomic stretches of
    lib/AbstractPool.php that the callers' control flow allows, and the invariant it
    keeps: every connection is idle, leased or listening exactly once, the number of
    connections never passes the maximum, and a woken capacity waiter always finds an
    idle connection. */
module PoolProtocol {
  import opened PoolSteps

  /** One atomic stretch, taken by some caller. */
  datatype Event =
    | Enter                                // a pop reaches its gate check
    | CreateSettled(created: Created)      // the gate owner's factory call settles
    | WaitResumed                          // the gate owner's capacity wait resumes
    | Release(conn: ConnId)                // the holder of a lease pushes it back
    | ListenStart                          // a listen call starts
    | ListenPopSettled(popped: Result<ConnId>)  // the shared acquisition finishes
    | ListenResumeAsWritten                // a listen call resumes after that acquisition
    | ListenResume                         // the same, with the rollback of a failed acquisition
    | ListenDrop                           // a listen call failed or a listener completed

  /** When the callers' control flow can take the stretch at all. */
  predicate Enabled(s: PoolState, e: Event) {
    match e
    case Enter => true
    case CreateSettled(_) => s.gate == Creating
    case WaitResumed => s.gate == Waiting(true)
    case Release(c) => c in s.leased
    case ListenStart => true
    case ListenPopSettled(r) => s.listening == Pending(Running) && (r.Ok? ==> r.value in s.leased)
    case ListenResumeAsWritten | ListenResume => s.listenerCount > 0 && AwaitSettled(s.listening)
    case ListenDrop => s.listening.Ready? && s.listenerCount > 0
  }

  /** The state after one event; an event that cannot happen changes nothing. */
  function Step(s: PoolState, max: nat, e: Event): PoolState {
    if !Enabled(s, e) then s
    else match e
      case Enter => PopEnter(s, max).0
      case CreateSettled(created) => PopCreated(s, created).post
      case WaitResumed => PopWoken(s).post
      case Release(c) => PoolSteps.Release(s, c).post
      case ListenStart => ListenEnter(s).0
      case ListenPopSettled(r) => PoolSteps.ListenPopSettled(s, r)
      case ListenResumeAsWritten => ListenAwaitAsWritten(s).post
      case ListenResume => ListenAwait(s).post
      case ListenDrop => DropListener(s).post
  }

  /** The state after a whole interleaving of events. */
  function Run(s: PoolState, max: nat, es: seq<Event>): PoolState
    decreases |es|
  {
    if es == [] then s else Run(Step(s, max, es[0]), max, es[1..])
  }

  /** Running two interleavings one after the other is running their concatenation. */
  lemma {:induction false} RunSplit(s: PoolState, max: nat, xs: seq<Event>, ys: seq<Event>)
    ensures Run(s, max, xs + ys) == Run(Run(s, max, xs), max, ys)
    decreases |xs|
  {
    if xs == [] {
      assert xs + ys == ys;
    } else {
      assert (xs + ys)[0] == xs[0];
      assert (xs + ys)[1..] == xs[1..] + ys;
      RunSplit(Step(s, max, xs[0]), max, xs[1..], ys);
    }
  }

  lemma {:induction false} SetMultisetCard(s: set<ConnId>)
    ensures |multiset(s)| == |s|
  {
    if s != {} {
      var c :| c in s;
      SetMultisetCard(s - {c});
      assert s == (s - {c}) + {c};
      assert multiset(s) == multiset(s - {c}) + multiset{c};
    }
  }

  /** What the invariant says about the individual collections: nothing outside the
      pool is idle or leased, no connection is both idle and leased, and the idle, leased
      and listening connections add up to all connections, at most the maximum. */
  lemma InvFacts(s: PoolState, max: nat, c: ConnId)
    requires Inv(s, max)
    ensures c in s.idle ==> c in s.connections && c !in s.leased
    ensures c in s.leased ==> c in s.connections && s.leased[c] == 1
    ensures multiset(s.idle)[c] <= 1
    ensures |s.idle| + |s.leased| + |ListenerHeld(s.listening)| == |s.connections| <= max
  {
    SetMultisetCard(s.connections);
    var m := multiset(s.idle) + s.leased + ListenerHeld(s.listening);
    assert m[c] == multiset(s.idle)[c] + s.leased[c] + ListenerHeld(s.listening)[c];
  }

  lemma InvEmpty(max: nat)
    ensures Inv(Empty, max)
  {
  }

  /** Shifting with the gate free keeps the invariant: the head moves from idle to leased. */
  lemma ShiftPreservesInv(s: PoolState, max: nat)
    requires Inv(s, max) && s.gate == Open
    ensures Inv(Shift(s).post, max)
  {
    if s.idle != [] {
      assert s.idle == [s.idle[0]] + s.idle[1..];
    }
  }

  lemma EnterPreservesInv(s: PoolState, max: nat)
    requires Inv(s, max)
    ensures Inv(PopEnter(s, max).0, max)
  {
    if s.gate == Open && s.idle != [] {
      ShiftPreservesInv(s, max);
    }
  }

  /** Registering the created connection uses up the slot the gate reserved for it. */
  lemma AddCreatedPreservesInv(s: PoolState, max: nat, c: ConnId)
    requires Inv(s, max) && s.gate == Creating
    ensures Inv(AddConnection(s, c).(gate := Open), max)
  {
    if c !in s.connections {
      var a := AddConnection(s, c);
      assert a.connections == s.connections + {c};
      assert multiset(a.connections) == multiset(s.connections) + multiset{c};
      assert multiset(a.idle) == multiset(s.idle) + multiset{c};
    }
  }

  lemma CreatedPreservesInv(s: PoolState, max: nat, created: Created)
    requires Inv(s, max) && s.gate == Creating
    ensures Inv(PopCreated(s, created).post, max)
  {
    if created.Connected? {
      AddCreatedPreservesInv(s, max, created.conn);
      ShiftPreservesInv(AddConnection(s, created.conn).(gate := Open), max);
    }
  }

  lemma WokenPreservesInv(s: PoolState, max: nat)
    requires Inv(s, max) && s.gate == Waiting(true)
    ensures Inv(PopWoken(s).post, max)
  {
    ShiftPreservesInv(s.(gate := Open), max);
  }

  lemma ReleasePreservesInv(s: PoolState, max: nat, c: ConnId)
    requires Inv(s, max) && c in s.leased
    ensures PoolSteps.Release(s, c).result.Ok?
    ensures Inv(PoolSteps.Release(s, c).post, max)
  {
    InvFacts(s, max, c);
    var o := PoolSteps.Release(s, c);
    assert multiset(s.idle + [c]) == multiset(s.idle) + multiset{c};
    assert s.leased == (s.leased - multiset{c}) + multiset{c};
  }

  lemma PopSettledPreservesInv(s: PoolState, max: nat, r: Result<ConnId>)
    requires Inv(s, max) && s.listening == Pending(Running) && (r.Ok? ==> r.value in s.leased)
    ensures Inv(PoolSteps.ListenPopSettled(s, r), max)
  {
    if r.Ok? {
      assert s.leased == (s.leased - multiset{r.value}) + multiset{r.value};
    }
  }

  lemma DropPreservesInv(s: PoolState, max: nat)
    requires Inv(s, max) && s.listening.Ready? && s.listenerCount > 0
    ensures DropListener(s).result.Ok?
    ensures Inv(DropListener(s).post, max)
  {
    var c := s.listening.conn;
    assert ListenerHeld(s.listening)[c] == 1;
    assert c in multiset(s.connections);
    assert multiset(s.idle + [c]) == multiset(s.idle) + multiset{c};
  }

  /** Every event keeps the invariant, the resume of a listen call both as written and
      with the rollback. */
  lemma StepPreservesInv(s: PoolState, max: nat, e: Event)
    requires Inv(s, max)
    ensures Inv(Step(s, max, e), max)
  {
    if Enabled(s, e) {
      match e
      case Enter => EnterPreservesInv(s, max);
      case CreateSettled(created) => CreatedPreservesInv(s, max, created);
      case WaitResumed => WokenPreservesInv(s, max);
      case Release(c) => ReleasePreservesInv(s, max, c);
      case ListenStart =>
      case ListenPopSettled(r) => PopSettledPreservesInv(s, max, r);
      case ListenResumeAsWritten =>
      case ListenResume =>
      case ListenDrop => DropPreservesInv(s, max);
    }
  }

  /** Only two events end a lease: the holder's own push, and the shared listen
      acquisition adopting the connection. */
  lemma StepKeepsLease(s: PoolState, max: nat, e: Event, c: ConnId)
    requires c in s.leased
    requires e != Release(c) && e != ListenPopSettled(Ok(c))
    ensures c in Step(s, max, e).leased
  {
    match e
    case Enter => EnterKeepsLease(s, max, c);
    case CreateSettled(created) => CreatedKeepsLease(s, max, created, c);
    case WaitResumed => WokenKeepsLease(s, max, c);
    case Release(d) => OtherReleaseKeepsLease(s, max, d, c);
    case ListenPopSettled(r) => OtherAdoptionKeepsLease(s, max, r, c);
    case ListenStart =>
    case ListenResumeAsWritten =>
    case ListenResume =>
    case ListenDrop =>
  }

  lemma EnterKeepsLease(s: PoolState, max: nat, c: ConnId)
    requires c in s.leased
    ensures c in Step(s, max, Enter).leased
  {
    assert s.leased <= PopEnter(s, max).0.leased;
  }

  lemma CreatedKeepsLease(s: PoolState, max: nat, created: Created, c: ConnId)
    requires c in s.leased
    ensures c in Step(s, max, CreateSettled(created)).leased
  {
    if s.gate == Creating {
      assert s.leased <= PopCreated(s, created).post.leased;
    }
  }

  lemma WokenKeepsLease(s: PoolState, max: nat, c: ConnId)
    requires c in s.leased
    ensures c in Step(s, max, WaitResumed).leased
  {
    if s.gate == Waiting(true) {
      assert s.leased <= PopWoken(s).post.leased;
    }
  }

  lemma OtherReleaseKeepsLease(s: PoolState, max: nat, d: ConnId, c: ConnId)
    requires c in s.leased && d != c
    ensures c in Step(s, max, Release(d)).leased
  {
    assert (s.leased - multiset{d})[c] == s.leased[c];
  }

  lemma OtherAdoptionKeepsLease(s: PoolState, max: nat, r: Result<ConnId>, c: ConnId)
    requires c in s.leased && r != Ok(c)
    ensures c in Step(s, max, ListenPopSettled(r)).leased
  {
    if r.Ok? {
      assert (s.leased - multiset{r.value})[c] == s.leased[c];
    }
  }

  /** A leased connection stays leased, and out of the idle queue, through any
      interleaving of other callers' events that neither pushes it back nor adopts it
      as the listening connection. */
  lemma {:induction false} LeaseHeldUntilReleased(s: PoolState, max: nat, es: seq<Event>, c: ConnId)
    requires Inv(s, max) && c in s.leased
    requires forall i :: 0 <= i < |es| ==> es[i] != Release(c) && es[i] != ListenPopSettled(Ok(c))
    ensures c in Run(s, max, es).leased && c !in Run(s, max, es).idle
    decreases |es|
  {
    if es == [] {
      InvFacts(s, max, c);
    } else {
      StepKeepsLease(s, max, es[0], c);
      StepPreservesInv(s, max, es[0]);
      assert forall i :: 0 <= i < |es[1..]| ==> es[1..][i] == es[i + 1];
      LeaseHeldUntilReleased(Step(s, max, es[0]), max, es[1..], c);
    }
  }

  /** Every interleaving keeps the invariant. */
  lemma {:induction false} RunPreservesInv(s: PoolState, max: nat, es: seq<Event>)
    requires Inv(s, max)
    ensures Inv(Run(s, max, es), max)
    decreases |es|
  {
    if es != [] {
      StepPreservesInv(s, max, es[0]);
      RunPreservesInv(Step(s, max, es[0]), max, es[1..]);
    }
  }

  /** From a fresh pool, whatever the callers, the factory and the delegated calls do,
      and in particular in every interleaving of the code as written (no ListenResume
      event), the pool never holds more than `max` connections, never has a connection both
      idle and leased, and idle plus leased plus listening equals the connection count. */
  lemma NeverPastMaximum(max: nat, es: seq<Event>, c: ConnId)
    ensures var s := Run(Empty, max, es);
      && |s.connections| <= max
      && !(c in s.idle && c in s.leased)
      && |s.idle| + |s.leased| + |ListenerHeld(s.listening)| == |s.connections|
  {
    InvEmpty(max);
    RunPreservesInv(Empty, max, es);
    InvFacts(Run(Empty, max, es), max, c);
  }

  /** Past the maximum, the caller that installed the capacity deferred stays
      suspended, every later pop blocks at the gate, and no connection is created,
      until a push: a release, or the completion of the last listener, which returns
      its connection. Completions of earlier listeners push nothing. */
  lemma {:induction false} WaitHoldsWithoutPush(s: PoolState, max: nat, es: seq<Event>)
    requires s.gate == Waiting(false)
    requires forall i :: 0 <= i < |es| ==>
      !es[i].Release? && (es[i].ListenDrop? ==> Run(s, max, es[..i]).listenerCount != 1)
    ensures Run(s, max, es).gate == Waiting(false)
    ensures Run(s, max, es).connections == s.connections
    decreases |es|
  {
    if es != [] {
      assert es[..0] == [];
      var t := Step(s, max, es[0]);
      assert t.gate == Waiting(false) && t.connections == s.connections;
      forall i | 0 <= i < |es[1..]|
        ensures !es[1..][i].Release?
        ensures es[1..][i].ListenDrop? ==> Run(t, max, es[1..][..i]).listenerCount != 1
      {
        assert es[1..][i] == es[i + 1];
        assert es[..i + 1][0] == es[0] && es[..i + 1][1..] == es[1..][..i];
        assert Run(s, max, es[..i + 1]) == Run(t, max, es[1..][..i]);
      }
      WaitHoldsWithoutPush(t, max, es[1..]);
    }
  }

  /** The events of acquisitions alone: gate checks, factory results and resumed waits. */
  predicate AcquisitionOnly(e: Event) {
    e.Enter? || e.CreateSettled? || e.WaitResumed?
  }

  /** With nothing idle and no push to wake a waiter, acquisitions alone never leave a
      connection idle: every connection a creator registers is shifted at once. */
  lemma {:induction false} NoPushNoIdle(s: PoolState, max: nat, es: seq<Event>)
    requires s.idle == [] && s.gate != Waiting(true)
    requires forall i :: 0 <= i < |es| ==> AcquisitionOnly(es[i])
    ensures Run(s, max, es).idle == [] && Run(s, max, es).gate != Waiting(true)
    decreases |es|
  {
    if es != [] {
      var t := Step(s, max, es[0]);
      assert t.idle == [] && t.gate != Waiting(true);
      assert forall i :: 0 <= i < |es[1..]| ==> es[1..][i] == es[i + 1];
      NoPushNoIdle(t, max, es[1..]);
    }
  }

  /** With nothing idle, the creator of a new connection is handed that connection. */
  lemma CreatorGetsOwnConnection(s: PoolState, c: ConnId)
    requires s.gate == Creating && s.idle == [] && c !in s.connections
    ensures PopCreated(s, Connected(c)).result == Ok(c)
    ensures PopCreated(s, Connected(c)).post.idle == []
  {
  }

  /** A capacity waiter woken by a push always shifts a connection: the shift of the
      wait path never meets an empty queue. */
  lemma WokenWaiterGetsConnection(s: PoolState, max: nat)
    requires Inv(s, max) && s.gate == Waiting(true)
    ensures PopWoken(s).result == Ok(s.idle[0])
  {
  }

  /** A factory that returns a new connection never makes the creating caller's shift
      fail, and the gate is free again afterwards. */
  lemma CreatorGetsConnection(s: PoolState, max: nat, c: ConnId)
    requires Inv(s, max) && s.gate == Creating && c !in s.connections
    ensures PopCreated(s, Connected(c)).result.Ok?
    ensures PopCreated(s, Connected(c)).post.gate == Open
    ensures |PopCreated(s, Connected(c)).post.connections| <= max
  {
  }

  /** Pushing back a connection obtained from pop never raises the unknown-connection
      error. */
  lemma ReleaseOfLeaseSucceeds(s: PoolState, max: nat, c: ConnId)
    requires Inv(s, max) && c in s.leased
    ensures PoolSteps.Release(s, c).result.Ok?
    ensures c in PoolSteps.Release(s, c).post.idle
  {
    ReleasePreservesInv(s, max, c);
  }
}

/** Three concurrent acquisitions against a pool of at most two connections. */
module PoolScenario {
  import opened PoolSteps
  import opened PoolProtocol

  /** Both pool slots taken, the third caller owning the gate and waiting for a release. */
  const Full := PoolState({1, 2}, [], Waiting(false), NoListener, 0, multiset{1, 2})

  /** A creates connection 1 while B waits on A's gate; B then creates connection 2;
      C finds the pool full and takes the gate to wait for a release. */
  lemma ThreeAcquisitionsFillThePool()
    ensures Run(Empty, 2, [Enter, Enter, CreateSettled(Connected(1)), Enter,
                           CreateSettled(Connected(2)), Enter]) == Full
  {
    var es := [Enter, Enter, CreateSettled(Connected(1)), Enter, CreateSettled(Connected(2)), Enter];
    var a1 := Empty.(gate := Creating);
    assert Step(Empty, 2, Enter) == a1;
    assert Step(a1, 2, Enter) == a1;
    var a2 := PoolState({1}, [], Open, NoListener, 0, multiset{1});
    assert Step(a1, 2, CreateSettled(Connected(1))) == a2;
    var b2 := a2.(gate := Creating);
    assert Step(a2, 2, Enter) == b2;
    var b3 := PoolState({1, 2}, [], Open, NoListener, 0, multiset{1, 2});
    assert multiset{1} + multiset{2} == multiset{1, 2};
    assert Step(b2, 2, CreateSettled(Connected(2))) == b3;
    assert |b3.connections| == 2;
    assert Step(b3, 2, Enter) == Full;
    calc {
      Run(Empty, 2, es);
      Run(a1, 2, es[1..]);
      Run(a1, 2, es[2..]);
      Run(a2, 2, es[3..]);
      Run(b2, 2, es[4..]);
      Run(b3, 2, es[5..]);
      Run(Full, 2, []);
    }
  }

  /** A full pool whose second connection is shared by two listeners: one of them
      completing pushes nothing, so the capacity waiter stays suspended and the next
      pop still blocks at the gate. */
  lemma EarlierListenerDropKeepsWait()
    ensures var s := PoolState({1, 2}, [], Waiting(false), Ready(1), 2, multiset{2});
      var t := Run(s, 2, [ListenDrop, Enter]);
      t.gate == Waiting(false) && t.connections == {1, 2} && t.listenerCount == 1
  {
    var s := PoolState({1, 2}, [], Waiting(false), Ready(1), 2, multiset{2});
    var es := [ListenDrop, Enter];
    assert es[..0] == [];
    assert Run(s, 2, es[..1]) == s.(listenerCount := 1);
    WaitHoldsWithoutPush(s, 2, es);
    assert Run(s, 2, es) == s.(listenerCount := 1);
  }

  /** In the full pool a fourth pass of the gate check only waits; when A's query
      completes and pushes connection 1, C is woken and shifts it. No third connection
      is created. */
  lemma ReleaseWakesTheWaiter()
    ensures PopEnter(Full, 2) == (Full, Blocked)
    ensures Run(Full, 2, [Release(1), WaitResumed])
            == PoolState({1, 2}, [], Open, NoListener, 0, multiset{1, 2})
  {
    var r1 := PoolState({1, 2}, [1], Waiting(true), NoListener, 0, multiset{2});
    assert multiset{1, 2} - multiset{1} == multiset{2};
    assert Step(Full, 2, Release(1)) == r1;
    var c2 := PoolState({1, 2}, [], Open, NoListener, 0, multiset{1, 2});
    assert multiset{2} + multiset{1} == multiset{1, 2};
    assert Step(r1, 2, WaitResumed) == c2;
    assert Run(r1, 2, [WaitResumed]) == Run(c2, 2, []);
  }
}
