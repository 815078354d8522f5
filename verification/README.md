# Connection pooling and HTTP connection set-up, verified

A Dafny model of the pooling and connection set-up logic of `monoio-transports`,
with proofs over whole runs. `dafny verify dfyconfig.toml` checks everything.

The runtime is single-threaded and cooperative. An async function is therefore a
sequence of atomic steps, cut at its awaits. A run is any sequence of events:
steps of any number of tasks on any number of keys, decisions of the peer and of
the network, and futures dropped while they are suspended. Each machine has an
`Enabled` predicate, an `Apply` function, and theorems about `Exec(Init(..), es)`
for every legal `es`. Code that changes things in place (pool operations,
exchanges, body adapters, the segments of `connect`) is also given as classes and
methods with the source's loops, proved against the same functions.

- `Pool.dfy`: queues of idle connections and the class `ConnectionPool`.
- `PoolRun.dfy`: whole runs of a pool, and of its handles.
- `Sweeper.dfy`: the timed background sweep.
- `Http1Exchange.dfy`: one HTTP/1.1 exchange, and pools of such connections.
- `Http2Exchange.dfy`: one HTTP/2 request and the frames it submits.
- `Bodies.dfy`: the two body adapters, in any nesting.
- `HyperH1.dfy`: the retry loop of the Hyper HTTP/1.1 connector.
- `ConnectTasks.dfy`: tasks, per-key locks and the account of created connections,
  shared by the two HTTP/2 connectors.
- `HttpConnector.dfy`: the unified connector and its protocol choice.
- `HyperH2.dfy`, `HyperH2Tight.dfy`: the Hyper HTTP/2 connector with its limit on
  senders, and the proof that its bound is reached.

## What is assumed of foreign code

- Keys are only compared. The clock is monotone, and one pool operation reads it once.
- A semaphore or mutex has one permit and is never closed; its guard gives the permit
  back when dropped.
- A connection that has an error, is closed or is not ready stays so. `ready()` on
  an HTTP/1.1 sender fails only on a closed connection; when it succeeds, nothing is
  assumed.
- A fixed-length decoder that yields data has delivered the whole body.
- A stored future starts disarmed, and disarms when it yields.
- Only a connector writes its pools, and callers do not clone a Hyper HTTP/2 handle.

## Findings

- The second result of `send_request` is documented as "can be reused"
  (src/http/connection.rs:267). On HTTP/1.1 it is `false` on every path
  (src/http/connection.rs:64-126, `Http1Connection.SendRequest`), while the connection
  does return to its pool unless the exchange reported an error (`ErrorMeansClosed`).
- An HTTP/1.1 connection goes back to its pool out of step with its peer exactly if
  an exchange on it was dropped midway or a fixed-length read failed
  (src/http/connection.rs:80-89): neither lowers `open` (`InSyncIffClean`,
  `ReuseSafeIff`).
- A connector set to HTTP/1.1 only still serves HTTP/2 over a transport that
  negotiated `h2` (src/http/connector.rs:259, `OnlyH1Iff`).
- A queue can grow above the limit of its pool. `put` (src/pool/mod.rs:377) leaves one
  too many exactly if the queue was at the limit or the limit is zero
  (`PutExceedsIff`); a returning handle (src/pool/mod.rs:165) exactly if the limit is
  zero (`ReturnExceedsIff`). All runs stay within the limit if and only if they use no
  `put` and the limit is not zero (`WithinLimitIff`).
- The `idle_dur` field of a pool is never set (src/pool/mod.rs:239, src/pool/mod.rs:254),
  so `get` never looks at an age (src/pool/mod.rs:332-353, `GetIsSinglePop`). Ages are
  bounded by the sweeper alone (src/pool/mod.rs:442-469, `AgeBound`).

## Model

| member | source | states |
|---|---|---|
| Pool.ConnectionPool.constructor | src/pool/mod.rs:245-258 | a new pool is empty and has no idle duration; its limit is 256, or the caller's, or 16384 if the caller's is larger |
| Pool.ConnectionPool.Get | src/pool/mod.rs:332-353 | for any idle duration the loop ends, discards exactly the expired prefix of the key's queue and hands out the first unexpired entry |
| Pool.Stale | src/pool/mod.rs:339-346 | the cut is the first unexpired entry: everything before it is expired, it is not |
| Pool.StaleIff | src/pool/mod.rs:202-207 | the cut is n if and only if the first n entries have been idle for longer than the duration and the next has not; without a duration it is 0 |
| Pool.ConnectionPool.Evict | src/pool/mod.rs:377-382 | popping the excess and one more leaves exactly the newest entries, one fewer than the limit |
| Pool.ConnectionPool.Put | src/pool/mod.rs:371-386 | the connection is last in its queue, and of the old entries all stay if there were at most the limit, else the newest, up to the limit in all |
| Pool.ConnectionPool.Return | src/pool/mod.rs:148-178 | a closed connection is not taken back; an open one is last in its queue, and of the old entries the newest stay, up to the limit in all |
| Pool.ConnectionPool.Retain | src/pool/mod.rs:263-263 | the in-place filter keeps the unexpired entries in order |
| Pool.ConnectionPool.ClearExpired | src/pool/mod.rs:261-266 | every queue is filtered and keys with nothing left are removed |
| Pool.ConnectionPool.IdleConnectionCount | src/pool/mod.rs:423-426 | the sum of the queue lengths is the number of occupied positions of all queues |
| Pool.RetainedMembers | src/pool/mod.rs:263-263 | an entry survives the filter if and only if it was there and is not expired |
| Pool.SweepOfSortedIsPrefixDrop | src/pool/mod.rs:261-266 | on a queue in idle order the filter equals dropping the expired prefix |
| Pool.ResetKeepsOrderIff | src/pool/mod.rs:211-213 | stamping an entry anew keeps the queue in idle order if and only if every later entry is stamped with the present |
| PoolRun.OnePlaceStep | src/pool/mod.rs:332-426 | every pool operation keeps each connection in exactly one place |
| PoolRun.EveryRunOnePlace | src/pool/mod.rs:148-178 | over all runs each connection is in one idle queue of its own key, in one live handle, or gone |
| PoolRun.GetHandsOutOwnKey | src/pool/mod.rs:332-368 | what is handed out was linked or put under the key asked for, and was idle, and now is held |
| PoolRun.GetMeans | src/pool/mod.rs:332-353 | for any idle duration a get discards exactly the entries at the front that are too old, hands out the next, and touches no other key |
| PoolRun.LinkMeans | src/pool/mod.rs:414-420 | a linked connection is held under its key and nothing becomes idle |
| PoolRun.ReturnMeans | src/pool/mod.rs:148-178 | after the drop of an open handle the queue is the newest of the old entries and then the connection, as many as the limit allows; what left is gone |
| PoolRun.DiscardMeans | src/pool/mod.rs:148-158 | a handle dropped closed, or after its pool, is gone, and no queue changes |
| PoolRun.PutMeans | src/pool/mod.rs:371-386 | after a put the queue is the old entries and then the connection, cut to the limit only if it was above it; what left is gone |
| PoolRun.SweepMeans | src/pool/mod.rs:261-266 | after any run a sweep removes from each queue exactly the entries idle for longer than the duration, which are a prefix, and the keys with nothing left |
| PoolRun.CloseMeans | src/pool/mod.rs:158-159 | when the pool goes so do its idle connections, but no handle |
| PoolRun.Conservation | src/pool/mod.rs:414-426 | linked + put = held + idle count + gone, in every run |
| PoolRun.EveryRunIdleOrder | src/pool/mod.rs:161-173 | every queue stays sorted by the time its entries became idle |
| PoolRun.LongestIdleFirst | src/pool/mod.rs:332-386 | after any run a get returns the longest-idle entry, evictions take the longest-idle entries, and a sweep is a prefix drop |
| PoolRun.SettingsNeverChange | src/pool/mod.rs:216-223 | no operation changes the limit or the idle duration |
| PoolRun.GetIsSinglePop | src/pool/mod.rs:355-367 | in reachable states the looping get changes the whole pool exactly as the single pop of the build without timers does, and hands out the same connection |
| PoolRun.CapacityOverRuns | src/pool/mod.rs:161-173 | in terms of the caller's limit: queues never exceed limit + 1, and without put never max(1, limit) |
| PoolRun.InitLimit | src/pool/mod.rs:229-231 | the limit is 256 by default, else the caller's, and at most 16384 |
| PoolRun.ReturnLeavesAtMost | src/pool/mod.rs:161-173 | a drop that re-inserts leaves between 1 and max(1, limit) entries, whatever was there |
| PoolRun.PutExceedsIff | src/pool/mod.rs:377-385 | a put leaves its queue above the limit if and only if the queue was at the limit or the limit is zero |
| PoolRun.ReturnExceedsIff | src/pool/mod.rs:148-178 | a returning open handle leaves its queue above the limit if and only if the limit is zero |
| PoolRun.WithinLimitIff | src/pool/mod.rs:161-173 | all runs stay within the limit if and only if they use no put and the caller did not ask for a limit of zero |
| PoolRun.ReturnsReachLimit | src/pool/mod.rs:161-173 | for every limit of the caller some run of links and drops reaches max(1, limit) |
| PoolRun.PutReachesOneOver | src/pool/mod.rs:377-385 | for every limit of the caller some run reaches limit + 1 |
| Sweeper.PollIdleTask | src/pool/mod.rs:442-469 | the task ends if the pool is gone, else waits; all overdue ticks taken in one poll amount to one sweep |
| Sweeper.SweepIdempotent | src/pool/mod.rs:261-266 | a second sweep at the same instant removes nothing |
| Sweeper.EveryRunFresh | src/pool/mod.rs:285-312 | every idle entry was young enough at the latest tick or joined since, in every timed run |
| Sweeper.AgeBound | src/pool/mod.rs:285-312 | with on-time ticks no idle connection is older than the interval plus the interval or 1s, whichever is longer |
| Sweeper.AgeBoundIsReached | src/pool/mod.rs:457-463 | for every interval some run hands out a connection of exactly that age |
| Http1Exchange.Http1Connection.constructor | src/http/connection.rs:35-41 | a new connection is open and unused |
| Http1Exchange.Http1Connection.SendRequest | src/http/connection.rs:54-127 | the flags, what crossed the wire and the reply for every way an exchange can go; a streamed body of chunks ds yields exactly ds, in order; the reuse flag is never raised |
| Http1Exchange.StreamedReply | src/http/connection.rs:90-111 | a streamed body is handed over whole and in order; a broken one is a decode error and closes the connection; a dropped future gives no reply |
| Http1Exchange.FixedReply | src/http/connection.rs:80-89 | a fixed body is handed over as read, its error included, or not at all if the read yields nothing; the connection stays open either way |
| Http1Exchange.NoReplyIffDropped | src/http/connection.rs:64-126 | there is no reply if and only if the future was dropped, and each failure has its own error |
| Http1Exchange.ErrorMeansClosed | src/http/connection.rs:64-126 | the exchange closes the connection if and only if it reports an error |
| Http1Exchange.InSyncIffClean | src/http/connection.rs:54-127 | an open connection stays in step if and only if the exchange ran to its end and a fixed body was delivered |
| Http1Exchange.CleanReplyIsOnePair | src/http/connection.rs:72-111 | a clean exchange with a response is one request and one response on the wire, and leaves the flags alone |
| Http1Exchange.OpenOnlyFalls | src/http/connection.rs:46-50 | no exchange reopens a connection or marks it as in use |
| Http1Run.NewlyIdle | src/pool/mod.rs:148-178 | a connection becomes idle only by the drop of its open handle or by a put |
| Http1Run.EveryCleanRun | src/http/connection.rs:54-127 | in runs of clean exchanges every connection that is open, idle or held, has strictly alternating requests and responses |
| Http1Run.UncleanPoisonsPool | src/http/connection.rs:80-89 | any single unclean exchange leaves an out-of-step connection at the front of its queue |
| Http1Run.ReuseSafeIff | src/http/connection.rs:46-50 | reuse is in step in all runs drawing exchanges from a class if and only if the class has only clean ones |
| Http2Exchange.FeedBody | src/http/connection.rs:186-201 | the loop submits the pieces in order up to the first error, refusal or drop, none ending the stream |
| Http2Exchange.SendRequest | src/http/connection.rs:161-216 | past its body a request has submitted headers, exactly the body's pieces and one empty end-of-stream frame; otherwise no end of stream; the reuse flag is raised if and only if the result is a response |
| Http2Exchange.SentBodyIsWholeMessage | src/http/connection.rs:186-203 | those frames are one whole message, and the peer reassembles exactly the body |
| Bodies.HyperBody.PollFrame | src/http/hyper/body.rs:30-42 | one poll arms a future only if none is armed, and disarms it when it yields |
| Bodies.MonoioBody.PollNextData | src/http/hyper/body.rs:65-81 | one poll of the future skips the frames that are not data |
| Bodies.PollMeaning | src/http/hyper/body.rs:30-42 | in any nesting of adapters a pending poll changes nothing, a ready one takes the head of the stream, and the end is reported only at the end |
| Bodies.OnlyOtherDropped | src/http/hyper/body.rs:65-81 | what is skipped is decided frame by frame: data and errors stay, in order, the rest goes |
| Bodies.DrainIsExact | src/http/hyper/body.rs:65-81 | for every pattern of pending and ready polls exactly the stream is read, none lost or repeated, and the end is met once the source was ready often enough |
| Bodies.MonoioUndoesHyper | src/http/hyper/body.rs:22-43 | a monoio body through both adapters yields its own items |
| Bodies.HyperUndoesMonoio | src/http/hyper/body.rs:57-82 | a hyper body through both adapters yields its data frames and errors, other frames dropped |
| HyperH1.NextOpen | src/http/hyper/mod.rs:321-328 | between awaits the loop passes over exactly the closed prefix of the queue and stops at the first open connection |
| HyperH1.IterateMeans | src/http/hyper/mod.rs:321-328 | one turn of the loop dials if and only if nothing of the key is idle; it takes an open front connection to be awaited and passes over a closed one, which is gone |
| HyperH1.TurnsPassOverClosed | src/http/hyper/mod.rs:321-328 | the turns between two awaits of a run leave the task and the queue as `NextOpen` leaves them: the closed prefix passed over, the first open connection taken, a dial if there is none |
| HyperH1.TaskStepMeans | src/http/hyper/mod.rs:323-337 | a successful `ready()` returns the connection, a failed one goes round again; a dialed and shaken connection is linked and returned |
| HyperH1.LetGoMeans | src/pool/mod.rs:148-178 | a handle released, or dropped with its future, is last in its queue if open and gone if closed; other dropped futures leave no trace |
| HyperH1.AnythingMayHappen | src/http/hyper/mod.rs:323-335 | runs admit a dropped future at every await, failing dials and handshakes, and the closing of any connection at any time |
| HyperH1.EveryRun | src/http/hyper/mod.rs:320-338 | in every interleaving no two tasks share a handle, and what a task passed over is closed, of its key, and gone |
| HyperH1.RetriesBounded | src/http/hyper/mod.rs:321-328 | a task retries at most once per connection ever linked under its key, and none of those it passed over is idle or held |
| HyperH1.FinishesOpenOrNew | src/http/hyper/mod.rs:321-337 | in every run a task that returned a connection either dialed it or popped it, saw it open and then had its `ready()` succeed; and it alone holds it |
| ConnectTasks.GotoKeepsExclusion | src/http/connector.rs:262-271 | per key, free permits and holders always make one, lock entries stay, and whoever waits for a lock or holds it has its entry |
| ConnectTasks.NoDeadlock | src/http/hyper/mod.rs:376-385 | whenever a task is unfinished some task can move |
| ConnectTasks.GotoReducesWork | src/http/connector.rs:240-290 | every move of a task to a later phase strictly reduces the sum of ranks |
| ConnectTasks.RetainLiving | src/http/connector.rs:212-223 | the filter of try_get keeps the living connections in order |
| ConnectTasks.LivingConns | src/http/connector.rs:212-223 | exactly the connections without an error survive the filter |
| ConnectTasks.OneFlight | src/http/connector.rs:270-278 | attempts never exceed one plus failures plus losses; with neither, one attempt and one connection |
| HttpConnector.Connector.constructor | src/http/connector.rs:54-63 | a new connector has empty pools of the default limit and no locks |
| HttpConnector.Connector.TryGet | src/http/connector.rs:209-228 | drops errored connections and yields the front of what is left |
| HttpConnector.Connector.Begin | src/http/connector.rs:241-256 | the segment up to the dial is the step that `BeginMeans` describes |
| HttpConnector.Connector.Dialed | src/http/connector.rs:257-289 | the setting or the negotiated protocol sends the task to the lock, which is created once per key, or gives it an HTTP/1.1 handle |
| HttpConnector.Connector.Acquire | src/http/connector.rs:271-271 | the permit is taken |
| HttpConnector.Connector.Recheck | src/http/connector.rs:272-276 | a hit returns and frees the lock; a miss begins the one handshake |
| HttpConnector.Connector.Shaken | src/http/connector.rs:276-279 | the connection is put, handed to the caller, and the lock freed |
| HttpConnector.Connector.DialFailed | src/http/connector.rs:256-256 | a failed dial ends the task and changes nothing else |
| HttpConnector.Connector.ShakeFailed | src/http/connector.rs:276-276 | a failed handshake frees the lock and pools nothing |
| HttpConnector.Connector.Cancel | src/http/connector.rs:256-276 | a dropped future gives back its lock and nothing else |
| HttpConnector.Connector.DropH1 | src/pool/mod.rs:148-178 | an open HTTP/1.1 handle returns to its pool |
| HttpConnector.BeginMeans | src/http/connector.rs:241-256 | the first poll returns the first pooled HTTP/2 connection without an error unless set to HTTP/1.1, else the front of the HTTP/1.1 queue unless set to HTTP/2, and dials if and only if there is neither |
| HttpConnector.BeginLeavesAlone | src/http/connector.rs:209-256 | the first poll takes no lock and touches no other task or key; only errored HTTP/2 connections of its key leave the pool |
| HttpConnector.PlainStepMeans | src/http/connector.rs:256-276 | a dial leads to the key's lock or to a new HTTP/1.1 connection as setting and negotiation say; acquiring takes the permit; a failure or a dropped future gives back a permit held, and no pool changes |
| HttpConnector.ShakenMeans | src/http/connector.rs:276-279 | a completed handshake leaves its connection alone in the key's pool, handed to the caller, the lock free again |
| HttpConnector.DropH1Means | src/pool/mod.rs:148-178 | an HTTP/1.1 handle dropped open is last in its key's queue, which keeps the newest 256; dropped closed, no queue changes |
| HttpConnector.AnythingMayHappen | src/http/connector.rs:256-276 | runs admit a dropped future at every await, a failure of every dial and handshake, either negotiation, and an error of any connection at any time |
| HttpConnector.HandsOutHealthy | src/http/connector.rs:272-276 | a recheck returns the first pooled connection without an error and frees the lock, and begins a handshake if and only if there is none |
| HttpConnector.SingleFlight | src/http/connector.rs:240-290 | in every interleaving, per key: at most one pooled connection; put = removed + pooled, in order; removed only if errored; handshakes at most one plus failures plus losses; with neither all callers share one connection |
| HttpConnector.CallersShare | src/http/connector.rs:209-279 | under any setting, if no handshake of a key failed, its connections are healthy and its callers all ended with HTTP/2, one handshake ran and all hold its connection, whatever happens to other keys |
| HttpConnector.AllCallersShare | src/http/connector.rs:240-290 | under any setting, if a key's dials lead to HTTP/2, none of its dials, handshakes or futures fails or is dropped, its connection stays healthy and all its callers end, exactly one handshake ran for the key and all hold its connection |
| HttpConnector.H1InOnePlace | src/http/connector.rs:247-289 | in every run an HTTP/1.1 connection is held by one caller, or idle in one position of its key's queue, or gone |
| HttpConnector.MutualExclusion | src/http/connector.rs:262-279 | permits + holders = 1 per key in every reachable state |
| HttpConnector.LockEntriesStay | src/http/connector.rs:262-268 | a lock entry is never removed or replaced |
| HttpConnector.StepsBounded | src/http/connector.rs:240-290 | all tasks together take at most six steps per task, whatever fails |
| HttpConnector.NeverStuck | src/http/connector.rs:240-290 | with an environment that answers no reachable state is stuck |
| HttpConnector.OnlyH2Iff | src/http/connector.rs:240-290 | all runs serve only HTTP/2, with the HTTP/1.1 pool empty, if and only if the setting is HTTP/2 or transports always negotiate h2 |
| HttpConnector.OnlyH1Iff | src/http/connector.rs:240-290 | all runs serve only HTTP/1.1, with the HTTP/2 pool empty, if and only if the setting is not HTTP/2 and transports never negotiate h2 |
| HyperH2.FirstFit | src/http/hyper/mod.rs:360-367 | the chosen connection has room and every earlier one is full |
| HyperH2.Connector.constructor | src/http/hyper/mod.rs:202-212 | a new connector has an empty pool and no locks |
| HyperH2.Connector.RetainReady | src/http/hyper/mod.rs:358-358 | connections that are not ready leave the pool, and their counts fall by one |
| HyperH2.Connector.FindRoom | src/http/hyper/mod.rs:360-368 | the scan finds the first connection with room |
| HyperH2.Connector.TryGet | src/http/hyper/mod.rs:354-373 | the hit is stamped anew and its count rises by one; a miss changes nothing more |
| HyperH2.Connector.Begin | src/http/hyper/mod.rs:375-385 | the first check returns a handle or queues the task on the key's lock |
| HyperH2.Connector.Recheck | src/http/hyper/mod.rs:386-392 | the recheck returns a handle and frees the lock, or begins to dial under it |
| HyperH2.Connector.Shaken | src/http/hyper/mod.rs:396-399 | the new connection is counted once for the pool and once for the caller |
| HyperH2.Connector.Acquire | src/http/hyper/mod.rs:385-385 | the permit of an existing entry is taken |
| HyperH2.Connector.DialOk | src/http/hyper/mod.rs:390-394 | a dialed task goes on to its handshake, still under the lock |
| HyperH2.Connector.Failed | src/http/hyper/mod.rs:389-395 | a failed dial or handshake frees the lock and pools nothing |
| HyperH2.Connector.Cancel | src/http/hyper/mod.rs:385-394 | a dropped future gives back its lock and nothing else |
| HyperH2.Connector.DropHandle | src/http/hyper/mod.rs:235-239 | a dropped handle lowers its connection's count by one |
| HyperH2.StrongCountAndSenderCap | src/http/hyper/mod.rs:241-253 | in every run the strong count is the handles plus one while pooled, and handles never exceed max(1, limit - 1) |
| HyperH2.ServedIffUsable | src/http/hyper/mod.rs:354-373 | a check serves the task if and only if some pooled connection is ready and below the limit, and then with such a one |
| HyperH2.CheckMeans | src/http/hyper/mod.rs:354-386 | both checks serve the task if and only if a pooled connection is ready and below the limit, with the first such, whose entry is stamped anew; else the task goes to the lock, or under the lock to dial; unready ones leave, other keys stay |
| HyperH2.PlainStepMeans | src/http/hyper/mod.rs:385-394 | acquiring takes the permit, a dial leads to the handshake, a failure or a dropped future gives back a permit held, and no pool changes |
| HyperH2.ShakenMeans | src/http/hyper/mod.rs:396-399 | a completed handshake is last in its key's queue, cut only above the pool's limit, with one handle for the caller and the lock free again |
| HyperH2.DropHandleMeans | src/http/hyper/mod.rs:235-239 | a dropped handle is one fewer on its connection and changes nothing else |
| HyperH2.AnythingMayHappen | src/http/hyper/mod.rs:385-394 | runs admit a dropped future at every await, a failure of every dial and handshake, and the death of any connection at any time |
| HyperH2.PooledConnectionsBound | src/http/hyper/mod.rs:353-400 | with sender limit m >= 2 and at most n outstanding handles throughout, at most min(n/(m-1), pool limit) + 1 connections are pooled, and none if n is zero |
| HyperH2Tight.BoundIsReached | src/http/hyper/mod.rs:386-399 | for every m >= 2, every n >= 1 and every pool limit some run with at most n handles reaches that bound |
| HyperH2.SingleFlight | src/http/hyper/mod.rs:375-399 | without a limit: one pooled connection per key, and one dial unless attempts fail or connections are lost |
| HyperH2.AllCallersShare | src/http/hyper/mod.rs:375-399 | without a limit, if none of a key's attempts or futures fails or is dropped, its connection stays healthy and all its callers end, exactly one dial ran for the key and all hold its connection, whatever happens to other keys |
| HyperH2.MutualExclusion | src/http/hyper/mod.rs:376-399 | permits + holders = 1 per key in every reachable state |
| HyperH2.ExclusionStep | src/http/hyper/mod.rs:376-382 | every step keeps mutual exclusion and never removes a lock entry |
| HyperH2.StepsBounded | src/http/hyper/mod.rs:353-400 | all tasks together take at most six steps per task, whatever fails |
| HyperH2.NeverStuck | src/http/hyper/mod.rs:353-400 | with an environment that answers no reachable state is stuck |

## Left out

- `src/connectors/` (sockets, TLS, poll-io adapters): a dial is a decision of the environment that carries whether `h2` was negotiated.
- `src/key.rs`, `src/pool/map.rs`, `src/pool/reuse.rs`: keys are abstract, and `Reuse` is one instance of the open flag.
- `PooledConnector::connect` and `H1Connector::connect`: a get, else a dial and a link; the runs of `PoolRun` and `Http1Run` contain all of theirs, so members of their own would only be easy ones.
- A connector without an HTTP/1.1 pool (`h1_pool` is `None`): no constructor builds one.
- Unpooled handles, which never return anywhere.
- A sweeper on the pool of a Hyper HTTP/2 connector (possible through `new_with_pool`): its runs have no sweep, so what leaves that pool was not ready or was evicted.
- The reference count of a Hyper HTTP/2 connection without a limit is notional: the source keeps one only if there is a limit.
- I/O forwarding on `Pooled`, `Deref`, error types, logging, codecs, the h2 and hyper internals and the scheduler.
- The clock inside one operation: a sweep or an eviction reads it once, not once per entry.
- The Hyper HTTP/1.1 connector is modelled on values across its awaits; `NextOpen` is its loop between two awaits, in place.
- Fairness of the locks: which waiting task gets a free permit is left open, so every order is covered and none is promised.
