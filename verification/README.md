# Connection pool bookkeeping of amphp/postgres, in Dafny

This project models the connection pool of an asynchronous PostgreSQL client
(`lib/AbstractPool.php`). The pool keeps four kinds of state:

- the set of every connection it registered;
- a FIFO queue of idle connections;
- a single-slot admission gate. This is the awaitable and deferred pair that makes
  callers take turns at creating a connection or at waiting for capacity;
- a reference-counted listening connection shared by all listen subscriptions.

Every pool operation brackets a delegated call between `pop` (acquire) and `push`
(release).

The pool runs on one cooperative scheduler. Whatever happens between two `yield`s is
atomic. The model cuts every coroutine at its `yield`s. Each atomic stretch is one step
function on a `PoolState` value (module `PoolSteps`), for example:

- `pop` becomes `PopEnter` (gate check, then shift, start creating, or start waiting),
  `PopCreated` (the factory settled) and `PopWoken` (a push resolved the capacity wait);
- `doListen` becomes `ListenEnter`, `ListenPopSettled`, `ListenAwait` and `DropListener`.

What other code decides comes in as a parameter: the factory's result, how a delegated
call ended, and the order in which callers run. Module `PoolProtocol` runs any
interleaving of these steps and proves that the pool invariant holds across all of
them:

- every connection is idle, leased or held for listening, exactly once;
- the number of connections plus a creation in flight never passes the maximum;
- a resolved capacity wait always finds an idle connection;
- the listener count is zero exactly when there is no listening connection.

`Dispatch` models the release bracket of query, execute, prepare, notify and
transaction. `ListenerProtocol` models the reference count of the listening
connection. `ConnectionPool.AbstractPool` is the pool object: its fields mirror the
source's fields, and each method updates them in place. Each method is proved to
produce exactly the state and result of the matching step function. The helpers
`AddConnection`, `Shift` and `Push` do only that: they neither require nor keep the
invariant, because the source calls them only inside a larger step. The methods that
stand for a whole step (`Release`, `PopEnter`, `PopCreated`, `PopWoken`, `FinishCall`,
`ListenEnter`, `ListenPopSettled`, `ListenResume`, `ListenDrop`) also require and keep
the invariant.

The model follows the code in two details that are easy to miss:

- A newly created connection is not handed straight to its creator. It goes through
  `addConnection` to the tail of the idle queue, and the creator shifts the head. If
  pushes arrived while the creation was in flight, the creator gets an older connection
  and the new one stays idle.
- After its capacity wait, `pop` shifts without checking the gate again.
  `WokenWaiterGetsConnection` proves that this shift never meets an empty queue.

## Model

| member | source | states |
|---|---|---|
| `PoolSteps.AddConnection` | lib/AbstractPool.php:60-67 | A known connection changes nothing (idempotent). A new one is added to the connection set and queued at the tail of idle, each growing by one. Nothing else changes. |
| `PoolSteps.Shift` | lib/AbstractPool.php:102-103 | An empty idle queue throws. Otherwise the head is returned and removed, and it becomes leased. The connection set is unchanged. |
| `PoolSteps.Push` | lib/AbstractPool.php:111-121 | An unknown connection fails with "not part of this pool" and changes nothing. A known one goes to the tail of idle and resolves an installed deferred; any other gate is unchanged. Nothing else changes (connections, leases, listener), and idle stays inside the connection set. |
| `PoolSteps.Release` | lib/AbstractPool.php:111-121 | A push by the holder of a lease also ends that lease. It fails only for a connection outside the pool, and then changes nothing. On success the connection is at the tail of idle, an installed deferred is resolved, and nothing else changes. |
| `PoolSteps.PopEnter` | lib/AbstractPool.php:76-95 | A taken gate blocks and changes nothing. An open gate with idle connections shifts the head into the leases and changes nothing else. Creation starts exactly when idle is empty and the count is below the maximum. Otherwise the caller installs a deferred and waits. |
| `PoolSteps.PopCreated` | lib/AbstractPool.php:92-103 | The gate is cleared on both outcomes. A factory failure is rethrown. A new connection is registered and the head of idle plus that connection is returned and leased. A connection already registered is not added again; the caller just shifts. The count grows by at most one, and the listener is untouched. |
| `PoolSteps.PopWoken` | lib/AbstractPool.php:88-103 | The gate is cleared and the head of idle is shifted into the leases. Nothing else changes. |
| `PoolSteps.ListenEnter` | lib/AbstractPool.php:230-234 | The listener count grows by one. Only a caller that finds no listening connection starts the shared acquisition. |
| `PoolSteps.ListenPopSettled` | lib/AbstractPool.php:233-237 | The acquisition's connection moves from its lease to the listening field. A failure leaves a failed pending value there. Nothing else changes. |
| `PoolSteps.ListenAwaitAsWritten` | lib/AbstractPool.php:236-237 | As written: a failed acquisition is thrown, and the count and the failed pending value stay. It succeeds exactly when the field holds a connection or a resolved acquisition; then that connection becomes the listening one, still held once. Only the listening field changes. |
| `PoolSteps.ListenAwait` | lib/AbstractPool.php:236-237 | Corrected: on success the listening connection is set and the count is kept. On failure the caller is uncounted, and the field is cleared exactly when the count reaches zero, kept otherwise. Only the count and the field change. |
| `PoolSteps.DropListener` | lib/AbstractPool.php:243-258 | Above one subscriber, only the count drops. The last subscriber clears the field and pushes the connection to the tail of idle, resolving an installed deferred. Connections and leases are unchanged. |
| `PoolProtocol.InvFacts` | lib/AbstractPool.php:46-55 | Under the invariant, idle, leased and listening connections add up to the connection count, which is at most the maximum. No connection is both idle and leased, and none is idle twice. |
| `PoolProtocol.InvEmpty` | lib/AbstractPool.php:37-41 | A freshly constructed pool satisfies the invariant. |
| `PoolProtocol.ShiftPreservesInv` | lib/AbstractPool.php:102-103 | A shift with the gate open keeps the invariant. |
| `PoolProtocol.EnterPreservesInv` | lib/AbstractPool.php:77-95 | The gate check and its branches keep the invariant. |
| `PoolProtocol.AddCreatedPreservesInv` | lib/AbstractPool.php:92-99 | Registering the created connection uses up the slot the gate reserved, so the count stays within the maximum. |
| `PoolProtocol.CreatedPreservesInv` | lib/AbstractPool.php:92-103 | Finishing a creation keeps the invariant, whatever the factory returned. |
| `PoolProtocol.WokenPreservesInv` | lib/AbstractPool.php:88-103 | Finishing a capacity wait keeps the invariant. |
| `PoolProtocol.ReleasePreservesInv` | lib/AbstractPool.php:111-121 | Releasing a leased connection succeeds and keeps the invariant. |
| `PoolProtocol.PopSettledPreservesInv` | lib/AbstractPool.php:233-237 | Settling the shared listener acquisition keeps the invariant. |
| `PoolProtocol.DropPreservesInv` | lib/AbstractPool.php:243-258 | Dropping a listener succeeds (its push is never refused) and keeps the invariant. |
| `PoolProtocol.StepPreservesInv` | lib/AbstractPool.php:76-258 | Every atomic stretch of every coroutine keeps the invariant, with the listen resume both as written and corrected. |
| `PoolProtocol.RunPreservesInv` | lib/AbstractPool.php:76-258 | Every interleaving of them keeps the invariant, including every interleaving of the code as written. |
| `PoolProtocol.NeverPastMaximum` | lib/AbstractPool.php:85-95 | From a fresh pool, under any interleaving (those of the code as written included), factory results and call outcomes, the count never passes the maximum. No connection is both idle and leased, and idle plus leased plus listening equals the count. |
| `PoolProtocol.StepKeepsLease` | lib/AbstractPool.php:76-258 | No stretch other than the holder's own push, or the listener's acquisition adopting it, ends a lease. |
| `PoolProtocol.LeaseHeldUntilReleased` | lib/AbstractPool.php:142-144 | Through any interleaving without its own push or adoption, a leased connection stays leased and out of idle, so a deferred release keeps its connection until the completion hook runs. |
| `PoolProtocol.WaitHoldsWithoutPush` | lib/AbstractPool.php:77-90 | Once a caller has installed the capacity deferred, every interleaving without a release or a last-listener push keeps it suspended, with later pops blocked at the gate and no connection created. Completions of earlier listeners, which push nothing, may occur. |
| `PoolProtocol.NoPushNoIdle` | lib/AbstractPool.php:76-103 | From an empty idle queue with no woken waiter, gate checks, factory results and resumed waits alone never leave a connection idle: each registered connection is shifted at once. |
| `PoolProtocol.CreatorGetsOwnConnection` | lib/AbstractPool.php:92-103 | With nothing idle, the creator of a new connection is handed exactly that connection, and idle stays empty. |
| `PoolProtocol.WokenWaiterGetsConnection` | lib/AbstractPool.php:88-120 | The shift after a resolved capacity wait returns the head of idle and never meets an empty queue. |
| `PoolProtocol.CreatorGetsConnection` | lib/AbstractPool.php:92-103 | A factory that returns a new connection gets its creator a connection. The gate is free again and the count stays within the maximum. |
| `PoolProtocol.ReleaseOfLeaseSucceeds` | lib/AbstractPool.php:111-120 | Pushing back a connection obtained from pop never raises the unknown-connection error. The connection ends up idle. |
| `PoolScenario.ThreeAcquisitionsFillThePool` | lib/AbstractPool.php:76-95 | With a maximum of two and three callers, one caller waits on another's creation gate. Two connections are created, and the third caller takes the gate to wait for capacity. |
| `PoolScenario.EarlierListenerDropKeepsWait` | lib/AbstractPool.php:252-258 | With two listeners sharing a connection of a full pool, one listener completing only lowers the count. The capacity waiter stays suspended and no connection is created. |
| `PoolScenario.ReleaseWakesTheWaiter` | lib/AbstractPool.php:76-121 | In that full pool a further gate check only blocks. A push wakes the waiter, which takes the released connection. No third connection is created. |
| `Dispatch.ReleaseTiming` | lib/AbstractPool.php:130-287 | A failure always releases at once. Prepare and notify always release at once. A query or execute result that is an Operation, and every transaction, release on completion. |
| `Dispatch.AfterCall` | lib/AbstractPool.php:134-149 | A deferred release leaves the state alone and returns the value. An immediate release is a push; after a successful push the caller gets the value, or the failure rethrown. A refused push replaces both with its own error. |
| `Dispatch.ImmediateReleaseReturnsConnection` | lib/AbstractPool.php:134-279 | The immediate pushes at lines 136-138, 145-146, 165-167, 174-175, 192-197, 213-217 and 277-279. After an immediate release the connection is at the tail of idle. Its lease has ended, the leased count dropped by one, and the caller sees the call's own value or failure. |
| `Dispatch.DeferredReleaseKeepsLease` | lib/AbstractPool.php:282-284 | The connection of a deferred release stays leased and out of idle. The completion hook's push then succeeds and makes it idle. |
| `Dispatch.DeferredReleaseAfterAnyInterleaving` | lib/AbstractPool.php:141-144 | After any interleaving of other callers that neither pushes the connection nor adopts it for listening, a deferred release's connection is still leased and not idle. The completion hook's push then succeeds and makes it idle. |
| `ListenerProtocol.FailedSharedListenRestoresPool` | lib/AbstractPool.php:229-250 | A listen that fails on an existing listening connection starts no acquisition and leaves the pool exactly as it was. |
| `ListenerProtocol.LastListenerReturnsConnection` | lib/AbstractPool.php:252-258 | When the last subscription completes, the count is 0, the field is cleared and the connection is back at the tail of idle. |
| `ListenerProtocol.EarlierListenerKeepsConnection` | lib/AbstractPool.php:252-258 | While other subscriptions remain, a completion only lowers the count. |
| `ListenerProtocol.FirstListenAcquiresHead` | lib/AbstractPool.php:229-237 | On a pool with no listener and an open gate, the first listen shifts the head of idle and makes it the listening connection, with a count of 1. |
| `ListenerProtocol.ListenStartShiftsHead` | lib/AbstractPool.php:229-234 | A listen that finds no listening connection is counted and starts the shared acquisition, whose pop shifts the head of idle into the leases. |
| `ListenerProtocol.AdoptAndResume` | lib/AbstractPool.php:233-237 | The acquisition's connection leaves the leases for the listening field, and the resumed listen makes it the listening connection. |
| `ListenerProtocol.FirstListenFailureReturnsConnection` | lib/AbstractPool.php:229-250 | The first listen acquires the head of idle. When its listen call fails, it returns that connection to the tail with the count back at 0. |
| `ListenerProtocol.FailedAcquisitionSticksAsWritten` | lib/AbstractPool.php:236-237 | As written, a failed acquisition stays. Every later listen waits on it, fails, and raises the count. |
| `ListenerProtocol.FirstListenFactoryFailureAsWritten` | lib/AbstractPool.php:229-250 | On a fresh pool whose factory fails, the first listen leaves the count at 1. The next listen starts no acquisition and fails. |
| `ListenerProtocol.FailedAcquisitionRollsBack` | lib/AbstractPool.php:236-250 | Corrected: a failed acquisition uncounts its caller and keeps the invariant. The last failing caller clears the field, so the next listen starts afresh. |
| `ListenerProtocol.FirstListenFactoryFailureRecovers` | lib/AbstractPool.php:229-250 | Corrected, on the same run: the pool is back to its empty state and the next listen starts a new acquisition. |
| `ConnectionPool.AbstractPool.constructor` | lib/AbstractPool.php:37-41 | Starts empty, with the gate open and no listener, and satisfies the invariant. |
| `ConnectionPool.AbstractPool.ConnectionCount` | lib/AbstractPool.php:46-48 | The size of the connection set, never above the maximum. |
| `ConnectionPool.AbstractPool.IdleConnectionCount` | lib/AbstractPool.php:53-55 | The length of the idle queue. Idle plus leased never exceeds the connection count. |
| `ConnectionPool.AbstractPool.AddConnection` | lib/AbstractPool.php:60-67 | Updates the fields exactly as `PoolSteps.AddConnection`. |
| `ConnectionPool.AbstractPool.Shift` | lib/AbstractPool.php:102-103 | Updates the fields and returns exactly as `PoolSteps.Shift`. |
| `ConnectionPool.AbstractPool.Push` | lib/AbstractPool.php:111-121 | Updates the fields and returns exactly as `PoolSteps.Push`. |
| `ConnectionPool.AbstractPool.Release` | lib/AbstractPool.php:111-121 | A push of a leased connection never fails, ends the lease and keeps the invariant. |
| `ConnectionPool.AbstractPool.PopEnter` | lib/AbstractPool.php:76-95 | Updates the fields as `PoolSteps.PopEnter` and keeps the invariant. |
| `ConnectionPool.AbstractPool.PopCreated` | lib/AbstractPool.php:92-103 | Updates the fields as `PoolSteps.PopCreated` and keeps the invariant. |
| `ConnectionPool.AbstractPool.PopWoken` | lib/AbstractPool.php:88-103 | Always returns a connection, updates the fields as `PoolSteps.PopWoken` and keeps the invariant. |
| `ConnectionPool.AbstractPool.FinishCall` | lib/AbstractPool.php:130-287 | Updates the fields and returns as `Dispatch.AfterCall`, and keeps the invariant. |
| `ConnectionPool.AbstractPool.ListenEnter` | lib/AbstractPool.php:230-234 | Updates the fields as `PoolSteps.ListenEnter` and keeps the invariant. |
| `ConnectionPool.AbstractPool.ListenPopSettled` | lib/AbstractPool.php:233-237 | Updates the fields as `PoolSteps.ListenPopSettled` and keeps the invariant. |
| `ConnectionPool.AbstractPool.ListenResume` | lib/AbstractPool.php:236-237 | Updates the fields and returns as the corrected `PoolSteps.ListenAwait`, and keeps the invariant. |
| `ConnectionPool.AbstractPool.ListenDrop` | lib/AbstractPool.php:243-258 | Updates the fields as `PoolSteps.DropListener` and keeps the invariant. |

## Left out

- Amp's coroutines, awaitables and deferreds (scheduling, promise resolution, cancellation) are not modelled. Each stretch between two `yield`s is a step, and the order of steps is an arbitrary event sequence. A creator or waiter cancelled while holding the gate is therefore not modelled.
- The steps of one coroutine that the source runs back to back are separate events in the model. An example is the eager start of the listener's `pop` inside `new Coroutine`. The invariants are proved over this larger set of interleavings.
- `createConnection()` is an input. It is the factory over libpq. Its result is a `Created` value: a connection id or a failure.
- The delegated `Connection`, `Statement`, `Listener`, `Transaction` and `Result` calls are inputs. This covers SQL, the wire protocol and LISTEN/NOTIFY. Their outcome is a `Delegated` value, and a handle's completion is a later `Release` of its connection.
- lib/PqStatement.php is not part of this model. It only forwards to `pq\Statement`, and its destructor's fire-and-forget deallocation concerns the statement, not the pool.
- The `$busy` queue is not modelled. It is created and never read or written.
- `getMaxConnections()` is a constant of the pool (`maxConnections`).
- `PoolProtocol.NeverPastMaximum`: the events are those of the pool's own coroutines. A subclass calling `addConnection` directly (it is protected) is outside the trace model and could exceed the maximum.
- `PoolSteps.Push`: resolving a deferred that an earlier push already resolved is a no-op here. Amp would reject it, but Amp resumes the waiter inside the first resolve, so the waiter clears the deferred before any second push.
- `ConnectionPool.AbstractPool.ListenResume` follows the corrected `PoolSteps.ListenAwait`. The code as written is `PoolSteps.ListenAwaitAsWritten` (see Findings). The event model has both, as `ListenResumeAsWritten` and `ListenResume`, and its invariant proofs cover both.
- `PoolSteps.ListenPopSettled`: the shared acquisition's result is not tied to the connection that its own `pop` shifted. The settle event may adopt any leased connection, a larger set of behaviours than the source has, over which the invariant still holds.
- Connection identities are natural numbers compared only for equality. PHP object identity is what the source uses.

## Findings

| source | as written | input that shows it | evidently intended | confidence | as-written member | corrected member |
|---|---|---|---|---|---|---|
| lib/AbstractPool.php:236-237 | When the shared acquisition of the listening connection fails, `yield` throws at line 237, outside the try of lines 240-250. The listener count is never decremented, and the failed coroutine stays in the listening field. Every later listen waits on it and fails, so the pool can never listen again. | A fresh pool with maximum 1: the first `listen` whose `createConnection()` fails. | Roll back as a failed listen call does: uncount the caller, and clear the field when the count reaches zero. | high; not executed | `ListenerProtocol.FirstListenFactoryFailureAsWritten` | `ListenerProtocol.FirstListenFactoryFailureRecovers` |
