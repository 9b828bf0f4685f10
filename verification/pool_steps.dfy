/** The bookkeeping state of the connection pool (lib/AbstractPool.php) as a value, and
    the state change each stretch of its code makes between two suspension points.

    The pool runs on a single-threaded cooperative scheduler: everything between two
    `yield`s is atomic. Each function below is one such atomic stretch; what another
    collaborator decides (the connection factory, a delegated call) is an input. */
module PoolSteps {

  /** Identity of a connection object. The pool keys its set on object identity, so
      only equality of these ids is ever used. */
  type ConnId = nat

  datatype PoolError =
    | NotPartOfPool      // push of a connection this pool never registered
    | EmptyQueue         // shift on an empty idle queue
    | ConnectFailed      // the connection factory failed
    | ListenerPopFailed  // the shared acquisition of the listening connection failed
    | Rethrown           // a delegated connection call failed and its error is rethrown

  datatype Result<T> = Ok(value: T) | Err(error: PoolError)

  /** What the connection factory produced for a creating caller. */
  datatype Created = Connected(conn: ConnId) | FactoryFailed

  /** The single-slot admission gate: the awaitable and deferred fields together.
      Open: both null. Creating: the awaitable is the factory's, no deferred.
      Waiting: a deferred is installed and the awaitable is its own; `resolved`
      records that a push has already resolved it. */
  datatype Gate = Open | Creating | Waiting(resolved: bool)

  /** State of the coroutine that acquires the listening connection. */
  datatype PopStatus = Running | Resolved(conn: ConnId) | Rejected

  /** The listening-connection field: null, a pending coroutine, or a connection. */
  datatype Listening = NoListener | Pending(pop: PopStatus) | Ready(conn: ConnId)

  /** `leased` holds the connections handed out by pop and not yet pushed back; the
      source keeps no such collection and derives their number as connections - idle. */
  datatype PoolState = PoolState(
    connections: set<ConnId>,
    idle: seq<ConnId>,
    gate: Gate,
    listening: Listening,
    listenerCount: nat,
    leased: multiset<ConnId>)

  /** New state plus what the stretch returns or throws. */
  datatype Outcome<T> = Outcome(post: PoolState, result: Result<T>)

  /** What one pass of pop's gate check did for its caller. */
  datatype Entry =
    | Blocked          // the gate is taken: wait on it, then check again
    | Got(conn: ConnId)
    | StartedCreate    // this caller now owns the gate and awaits the factory
    | StartedWait      // this caller now owns the gate and awaits a release

  /** A freshly constructed pool. */
  const Empty := PoolState({}, [], Open, NoListener, 0, multiset{})

  /** The connection the listening field holds, if any. */
  function ListenerHeld(l: Listening): multiset<ConnId> {
    match l
    case Ready(c) => multiset{c}
    case Pending(Resolved(c)) => multiset{c}
    case _ => multiset{}
  }

  /** The pool invariant, for a pool whose maximum is `max`. */
  ghost predicate Inv(s: PoolState, max: nat) {
    // every connection is in exactly one place: idle, leased, or held for listening
    && multiset(s.idle) + s.leased + ListenerHeld(s.listening) == multiset(s.connections)
    // creation only below the maximum, and at most one creation in flight
    && |s.connections| + (if s.gate == Creating then 1 else 0) <= max
    // a resolved capacity wait always finds something to shift
    && (s.gate == Waiting(true) ==> s.idle != [])
    && (s.listenerCount == 0 <==> s.listening == NoListener)
  }

  /** Register a connection: idempotent on a known connection, otherwise counted once
      and queued at the tail of the idle queue. */
  function AddConnection(s: PoolState, c: ConnId): (r: PoolState)
    ensures c in r.connections
    ensures c in s.connections ==> r == s
    ensures c !in s.connections ==>
      && r.connections == s.connections + {c} && r.idle == s.idle + [c]
      && |r.connections| == |s.connections| + 1 && |r.idle| == |s.idle| + 1
    ensures r.(connections := s.connections, idle := s.idle) == s
  {
    if c in s.connections then s
    else s.(connections := s.connections + {c}, idle := s.idle + [c])
  }

  /** Take the head of the idle queue and hand it to the caller; an empty queue throws. */
  function Shift(s: PoolState): (o: Outcome<ConnId>)
    ensures s.idle == [] <==> o.result.Err?
    ensures s.idle == [] ==> o == Outcome(s, Err(EmptyQueue))
    ensures o.result.Ok? ==>
      && [o.result.value] + o.post.idle == s.idle
      && o.post.leased == s.leased + multiset{o.result.value}
    ensures o.post.(idle := s.idle, leased := s.leased) == s
  {
    if s.idle == [] then Outcome(s, Err(EmptyQueue))
    else Outcome(s.(idle := s.idle[1..], leased := s.leased + multiset{s.idle[0]}), Ok(s.idle[0]))
  }

  /** Release a connection to the idle queue: unknown connections are refused and
      change nothing; a known one goes to the tail and wakes an installed deferred. */
  function Push(s: PoolState, c: ConnId): (o: Outcome<()>)
    ensures o.result.Err? <==> c !in s.connections
    ensures c !in s.connections ==> o == Outcome(s, Err(NotPartOfPool))
    ensures c in s.connections ==>
      && o.post.idle == s.idle + [c]
      && o.post.connections == s.connections
      && (s.gate.Waiting? ==> o.post.gate == Waiting(true))
      && (!s.gate.Waiting? ==> o.post.gate == s.gate)
    ensures o.post.(idle := s.idle, gate := s.gate) == s
    ensures (forall x :: x in s.idle ==> x in s.connections) ==>
      forall x :: x in o.post.idle ==> x in o.post.connections
  {
    if c !in s.connections then Outcome(s, Err(NotPartOfPool))
    else
      var gate := if s.gate.Waiting? then Waiting(true) else s.gate;
      Outcome(s.(idle := s.idle + [c], gate := gate), Ok(()))
  }

  /** Push done by the code that leased `c`: it also ends the lease. */
  function Release(s: PoolState, c: ConnId): (o: Outcome<()>)
    requires c in s.leased
    ensures o.result.Err? <==> c !in s.connections
    ensures o.result.Err? ==> o.post == s
    ensures o.result.Ok? ==>
      && o.post.idle == s.idle + [c]
      && o.post.leased == s.leased - multiset{c}
      && o.post.gate == (if s.gate.Waiting? then Waiting(true) else s.gate)
      && o.post.(idle := s.idle, leased := s.leased, gate := s.gate) == s
  {
    var o := Push(s, c);
    if o.result.Ok? then o.(post := o.post.(leased := s.leased - multiset{c})) else o
  }

  /** One pass of pop's gate check and the decision after it: wait on a foreign gate,
      shift an idle connection, or take the gate to create or to wait for capacity. */
  function PopEnter(s: PoolState, max: nat): (r: (PoolState, Entry))
    ensures s.gate != Open ==> r == (s, Blocked)
    ensures r.1.Got? <==> s.gate == Open && s.idle != []
    ensures r.1.StartedCreate? <==> s.gate == Open && s.idle == [] && |s.connections| < max
    ensures r.1.StartedWait? <==> s.gate == Open && s.idle == [] && |s.connections| >= max
    ensures r.1.Got? ==>
      && [r.1.conn] + r.0.idle == s.idle
      && r.0.leased == s.leased + multiset{r.1.conn}
      && r.0.(idle := s.idle, leased := s.leased) == s
    ensures r.1.StartedCreate? ==> r.0 == s.(gate := Creating)
    ensures r.1.StartedWait? ==> r.0 == s.(gate := Waiting(false))
    ensures r.0.connections == s.connections
  {
    if s.gate != Open then (s, Blocked)
    else if s.idle != [] then
      var o := Shift(s);
      (o.post, Got(o.result.value))
    else if |s.connections| >= max then (s.(gate := Waiting(false)), StartedWait)
    else (s.(gate := Creating), StartedCreate)
  }

  /** The gate owner's factory call settled: register the new connection, clear the
      gate whatever happened, then shift the head of the idle queue. */
  function PopCreated(s: PoolState, created: Created): (o: Outcome<ConnId>)
    requires s.gate == Creating
    ensures o.post.gate == Open
    ensures created == FactoryFailed ==> o == Outcome(s.(gate := Open), Err(ConnectFailed))
    ensures created.Connected? && created.conn !in s.connections ==>
      && o.result == Ok((s.idle + [created.conn])[0])
      && o.post.connections == s.connections + {created.conn}
      && o.post.idle == (s.idle + [created.conn])[1..]
      && o.post.leased == s.leased + multiset{o.result.value}
    ensures created.Connected? && created.conn in s.connections ==>
      // the factory handed back a connection already registered: nothing is added
      o == Shift(s.(gate := Open))
    ensures |o.post.connections| <= |s.connections| + 1
    ensures o.post.listening == s.listening && o.post.listenerCount == s.listenerCount
  {
    match created
    case FactoryFailed => Outcome(s.(gate := Open), Err(ConnectFailed))
    case Connected(c) => Shift(AddConnection(s, c).(gate := Open))
  }

  /** The gate owner's capacity wait was resolved by a push: clear the gate, shift. */
  function PopWoken(s: PoolState): (o: Outcome<ConnId>)
    requires s.gate == Waiting(true)
    ensures o.post.gate == Open && o.post.connections == s.connections
    ensures s.idle != [] ==>
      && o.result == Ok(s.idle[0]) && o.post.idle == s.idle[1..]
      && o.post.leased == s.leased + multiset{s.idle[0]}
    ensures o.post.(gate := s.gate, idle := s.idle, leased := s.leased) == s
  {
    Shift(s.(gate := Open))
  }

  /** Entry of listen: count the caller; only a caller that finds no listening
      connection starts the shared acquisition (returns true). */
  function ListenEnter(s: PoolState): (r: (PoolState, bool))
    ensures r.0.listenerCount == s.listenerCount + 1
    ensures r.1 <==> s.listening == NoListener
    ensures r.0.listening == if r.1 then Pending(Running) else s.listening
    ensures r.0.(listenerCount := s.listenerCount, listening := s.listening) == s
  {
    if s.listening == NoListener
    then (s.(listenerCount := s.listenerCount + 1, listening := Pending(Running)), true)
    else (s.(listenerCount := s.listenerCount + 1), false)
  }

  /** The shared acquisition coroutine finished: its connection passes from the lease
      its pop made to the listening field. */
  function ListenPopSettled(s: PoolState, popped: Result<ConnId>): (r: PoolState)
    requires s.listening == Pending(Running)
    requires popped.Ok? ==> popped.value in s.leased
    ensures popped.Ok? ==>
      && r.listening == Pending(Resolved(popped.value))
      && r.leased == s.leased - multiset{popped.value}
    ensures popped.Err? ==> r == s.(listening := Pending(Rejected))
    ensures r.(listening := s.listening, leased := s.leased) == s
  {
    match popped
    case Ok(c) => s.(listening := Pending(Resolved(c)), leased := s.leased - multiset{c})
    case Err(_) => s.(listening := Pending(Rejected))
  }

  /** The listening field can be read without waiting further. */
  predicate AwaitSettled(l: Listening) {
    l.Ready? || (l.Pending? && !l.pop.Running?)
  }

  /** Resuming listen after the shared acquisition, as the source does it: a failed
      acquisition is thrown with the count and the failed coroutine left in place. */
  function ListenAwaitAsWritten(s: PoolState): (o: Outcome<ConnId>)
    requires s.listenerCount > 0 && AwaitSettled(s.listening)
    ensures s.listening == Pending(Rejected) ==> o == Outcome(s, Err(ListenerPopFailed))
    ensures o.result.Ok? <==> !s.listening.Pending? || s.listening.pop.Resolved?
    ensures o.result.Ok? ==>
      && o.post.listening == Ready(o.result.value)
      && ListenerHeld(o.post.listening) == ListenerHeld(s.listening)
    ensures o.post.(listening := s.listening) == s
  {
    match s.listening
    case Ready(c) => Outcome(s, Ok(c))
    case Pending(Resolved(c)) => Outcome(s.(listening := Ready(c)), Ok(c))
    case Pending(Rejected) => Outcome(s, Err(ListenerPopFailed))
  }

  /** Resuming listen after the shared acquisition, with the failure rolled back the
      way a failed listen call is: the caller is uncounted, and the last one clears
      the listening field so that the next listen starts a fresh acquisition. */
  function ListenAwait(s: PoolState): (o: Outcome<ConnId>)
    requires s.listenerCount > 0 && AwaitSettled(s.listening)
    ensures o.result.Ok? <==> !s.listening.Pending? || s.listening.pop.Resolved?
    ensures o.result.Ok? ==>
      && o.post.listening == Ready(o.result.value)
      && ListenerHeld(o.post.listening) == ListenerHeld(s.listening)
      && o.post.listenerCount == s.listenerCount
    ensures o.result.Err? ==>
      && o.post.listenerCount == s.listenerCount - 1
      && (o.post.listening == NoListener <==> o.post.listenerCount == 0)
    ensures o.result.Err? && o.post.listenerCount > 0 ==> o.post.listening == s.listening
    ensures o.post.(listening := s.listening, listenerCount := s.listenerCount) == s
  {
    match s.listening
    case Ready(c) => Outcome(s, Ok(c))
    case Pending(Resolved(c)) => Outcome(s.(listening := Ready(c)), Ok(c))
    case Pending(Rejected) =>
      var n := s.listenerCount - 1;
      Outcome(s.(listenerCount := n, listening := if n == 0 then NoListener else s.listening),
              Err(ListenerPopFailed))
  }

  /** A listen call failed, or a listener completed: uncount it; the last one clears the
      listening field and pushes its connection back. */
  function DropListener(s: PoolState): (o: Outcome<()>)
    requires s.listening.Ready? && s.listenerCount > 0
    ensures s.listenerCount > 1 ==> o == Outcome(s.(listenerCount := s.listenerCount - 1), Ok(()))
    ensures s.listenerCount == 1 && s.listening.conn in s.connections ==>
      && o.result.Ok?
      && o.post.listenerCount == 0 && o.post.listening == NoListener
      && o.post.idle == s.idle + [s.listening.conn]
      && o.post.gate == (if s.gate.Waiting? then Waiting(true) else s.gate)
      && o.post.connections == s.connections && o.post.leased == s.leased
  {
    var n := s.listenerCount - 1;
    if n == 0 then Push(s.(listenerCount := 0, listening := NoListener), s.listening.conn)
    else Outcome(s.(listenerCount := n), Ok(()))
  }
}
