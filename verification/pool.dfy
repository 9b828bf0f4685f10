/** The pool object of lib/AbstractPool.php: its fields are updated in place by each
    atomic stretch of its coroutines, and each method is proved to make exactly the
    state change of the matching step function. The helpers AddConnection, Shift and
    Push do only that; the methods that stand for a whole step also require and keep
    the pool invariant. */
module ConnectionPool {
  import opened PoolSteps
  import PoolProtocol
  import Dispatch

  class AbstractPool {
    /** getMaxConnections(): fixed for the lifetime of the pool. */
    const maxConnections: nat
    /** Every connection the pool registered. */
    var connections: set<ConnId>
    /** Connections available for lease, oldest first. */
    var idle: seq<ConnId>
    /** The awaitable and deferred fields, the single-slot admission gate. */
    var gate: Gate
    var listeningConnection: Listening
    var listenerCount: nat
    /** Connections handed out by pop and not yet pushed back. */
    ghost var leased: multiset<ConnId>

    ghost function State(): PoolState
      reads this
    {
      PoolState(connections, idle, gate, listeningConnection, listenerCount, leased)
    }

    ghost predicate Valid()
      reads this
    {
      Inv(State(), maxConnections)
    }

    constructor (max: nat)
      ensures Valid() && State() == Empty && maxConnections == max
    {
      maxConnections := max;
      connections, idle, gate := {}, [], Open;
      listeningConnection, listenerCount := NoListener, 0;
      leased := multiset{};
      new;
      PoolProtocol.InvEmpty(max);
    }

    /** Number of connections the pool holds, never more than the maximum. */
    method ConnectionCount() returns (n: nat)
      requires Valid()
      ensures n == |connections| && n <= maxConnections
    {
      n := |connections|;
    }

    /** Number of idle connections; with the leased ones they never exceed the total. */
    method IdleConnectionCount() returns (n: nat)
      requires Valid()
      ensures n == |idle| && n + |leased| <= |connections|
    {
      n := |idle|;
      PoolProtocol.InvFacts(State(), maxConnections, 0);
    }

    method AddConnection(c: ConnId)
      modifies this
      ensures State() == PoolSteps.AddConnection(old(State()), c)
    {
      if c in connections {
        return;
      }
      connections := connections + {c};
      idle := idle + [c];
    }

    method Shift() returns (r: Result<ConnId>)
      modifies this
      ensures State() == PoolSteps.Shift(old(State())).post
      ensures r == PoolSteps.Shift(old(State())).result
    {
      if idle == [] {
        return Err(EmptyQueue);
      }
      r := Ok(idle[0]);
      leased := leased + multiset{idle[0]};
      idle := idle[1..];
    }

    method Push(c: ConnId) returns (r: Result<()>)
      modifies this
      ensures State() == PoolSteps.Push(old(State()), c).post
      ensures r == PoolSteps.Push(old(State()), c).result
    {
      if c !in connections {
        return Err(NotPartOfPool);
      }
      idle := idle + [c];
      if gate.Waiting? {
        gate := Waiting(true);
      }
      r := Ok(());
    }

    /** Push by the holder of a lease; never refused. */
    method Release(c: ConnId) returns (r: Result<()>)
      requires Valid() && c in leased
      modifies this
      ensures Valid() && r == Ok(())
      ensures State() == PoolSteps.Release(old(State()), c).post
      ensures r == PoolSteps.Release(old(State()), c).result
    {
      PoolProtocol.ReleasePreservesInv(State(), maxConnections, c);
      r := Push(c);
      if r.Ok? {
        leased := leased - multiset{c};
      }
    }

    /** pop: the gate check and what follows it, up to the next suspension. */
    method PopEnter() returns (entry: Entry)
      requires Valid()
      modifies this
      ensures Valid()
      ensures (State(), entry) == PoolSteps.PopEnter(old(State()), maxConnections)
    {
      PoolProtocol.EnterPreservesInv(State(), maxConnections);
      if gate != Open {
        // wait on the gate; its failure is swallowed and the check runs again
        return Blocked;
      }
      if idle != [] {
        var r := Shift();
        return Got(r.value);
      }
      if |connections| >= maxConnections {
        gate := Waiting(false);
        entry := StartedWait;
      } else {
        gate := Creating;
        entry := StartedCreate;
      }
    }

    /** pop, resumed when the factory call settles. */
    method PopCreated(created: Created) returns (r: Result<ConnId>)
      requires Valid() && gate == Creating
      modifies this
      ensures Valid()
      ensures State() == PoolSteps.PopCreated(old(State()), created).post
      ensures r == PoolSteps.PopCreated(old(State()), created).result
    {
      PoolProtocol.CreatedPreservesInv(State(), maxConnections, created);
      if created == FactoryFailed {
        gate := Open;
        return Err(ConnectFailed);
      }
      AddConnection(created.conn);
      gate := Open;
      r := Shift();
    }

    /** pop, resumed when a push resolved its capacity wait. */
    method PopWoken() returns (c: ConnId)
      requires Valid() && gate == Waiting(true)
      modifies this
      ensures Valid()
      ensures State() == PoolSteps.PopWoken(old(State())).post
      ensures Ok(c) == PoolSteps.PopWoken(old(State())).result
    {
      PoolProtocol.WokenPreservesInv(State(), maxConnections);
      gate := Open;
      var r := Shift();
      c := r.value;
    }

    /** The bracket after the delegated call on the leased connection `c`. */
    method FinishCall(op: Dispatch.Operation, c: ConnId, d: Dispatch.Delegated)
      returns (r: Result<Dispatch.Delegated>)
      requires Valid() && c in leased
      modifies this
      ensures Valid()
      ensures State() == Dispatch.AfterCall(old(State()), op, c, d).post
      ensures r == Dispatch.AfterCall(old(State()), op, c, d).result
    {
      if Dispatch.ReleaseTiming(op, d) == Dispatch.OnComplete {
        // the handle's onComplete hook calls Release(c) later
        return Ok(d);
      }
      var _ := Release(c);
      r := if d == Dispatch.Threw then Err(Rethrown) else Ok(d);
    }

    /** doListen: entry; true when this caller starts the shared acquisition. */
    method ListenEnter() returns (startsPop: bool)
      requires Valid()
      modifies this
      ensures Valid()
      ensures (State(), startsPop) == PoolSteps.ListenEnter(old(State()))
    {
      listenerCount := listenerCount + 1;
      startsPop := listeningConnection == NoListener;
      if startsPop {
        listeningConnection := Pending(Running);
      }
    }

    /** The shared acquisition coroutine finished with `popped`. */
    method ListenPopSettled(popped: Result<ConnId>)
      requires Valid() && listeningConnection == Pending(Running)
      requires popped.Ok? ==> popped.value in leased
      modifies this
      ensures Valid()
      ensures State() == PoolSteps.ListenPopSettled(old(State()), popped)
    {
      PoolProtocol.PopSettledPreservesInv(State(), maxConnections, popped);
      match popped
      case Ok(c) =>
        listeningConnection := Pending(Resolved(c));
        leased := leased - multiset{c};
      case Err(_) =>
        listeningConnection := Pending(Rejected);
    }

    /** doListen: resumed once the shared acquisition has settled. */
    method ListenResume() returns (r: Result<ConnId>)
      requires Valid() && listenerCount > 0 && AwaitSettled(listeningConnection)
      modifies this
      ensures Valid()
      ensures State() == ListenAwait(old(State())).post
      ensures r == ListenAwait(old(State())).result
    {
      match listeningConnection
      case Ready(c) =>
        r := Ok(c);
      case Pending(Resolved(c)) =>
        listeningConnection := Ready(c);
        r := Ok(c);
      case Pending(Rejected) =>
        listenerCount := listenerCount - 1;
        if listenerCount == 0 {
          listeningConnection := NoListener;
        }
        r := Err(ListenerPopFailed);
    }

    /** A listen call failed or a listener completed. */
    method ListenDrop()
      requires Valid() && listeningConnection.Ready? && listenerCount > 0
      modifies this
      ensures Valid()
      ensures State() == DropListener(old(State())).post
    {
      PoolProtocol.DropPreservesInv(State(), maxConnections);
      listenerCount := listenerCount - 1;
      if listenerCount == 0 {
        var connection := listeningConnection.conn;
        listeningConnection := NoListener;
        var _ := Push(connection);
      }
    }
  }
}
