# Tikfinity WebSocket-to-HTTP relay: event queue and reconnecting client

The relay in `fix.js` keeps one WebSocket connection to the Tikfinity event
source. It stores every message it receives in an in-memory queue. Each
`GET /events` request takes the whole queue and leaves an empty one behind.
This project models the two pieces of logic in that script:

- `event_store.dfy`, module `EventStore`: the queue (`eventsQueue`,
  `storeEvent`, and the drain done by the `/events` handler). It is a class
  `EventQueue` whose `queue` field is the array the script keeps. Ghost fields
  record every payload ever appended (`history`) and every batch a drain
  returned (`batches`). The invariant `Valid()` says that the drained batches,
  concatenated oldest first, followed by the current queue, are exactly the
  append history. `Append` and `DrainAll` preserve it. Lemmas about
  `Flatten`, `Offset` and `InBatch` then show that each appended payload was
  returned by exactly one drain, at the place its arrival order gives it, or
  is still queued. `PollScenario` is a client of the class. It checks the
  "A, B / nothing / C" polling sequence, and that a second drain with no
  append in between returns nothing.
- `stream_client.dfy`, module `StreamClient`: the connection lifecycle of
  `connectWebSocket`. Its states are `Connecting`, `Connected` and
  `ReconnectPending(delayMs)`. Its events are `Open`, `Message(data)`,
  `Error`, `Close` and `TimerFire`. `Next` is the transition function and
  `Run` folds it over a trace. `Stored` gives the payloads one event hands to
  the queue, and `Payloads` does the same for a trace. The class `Client`
  keeps the state, a reference to the shared `EventQueue`, and ghost counters
  of connection attempts and scheduled reconnects. It has one method per
  handler. Each handler's postcondition gives that handler's own effect, and
  its frame keeps the rest. `Dispatch` runs the handler for one event: its
  postcondition ties the new state to `Next`, the new queue to `Stored`, and
  the counters to the event. `DispatchAll` runs the handlers for a whole
  trace, so its new state is `Run` and its appended payloads are `Payloads`.
`Closes` and `Reconnects` count the reconnects a trace schedules and the
connection attempts it makes; `DispatchAll` ties the ghost counters to them.

The event loop of JavaScript runs each handler to completion. So the model
uses sequential method calls: the swap in the `/events` handler cannot
interleave with a push from the `message` handler.

How events outside their state are treated. The socket library emits
`open` only on a connecting socket. The reconnect timer exists only after a
`close`. So `Next` leaves the state unchanged for `Open` outside
`Connecting` and for `TimerFire` outside `ReconnectPending`. The `close` and
`message` handlers have no guard in the script, and the model gives them
none: `Close` leads to `ReconnectPending(3000)` from every state, and
`Message` always appends.

## Model

| member | source | states |
|---|---|---|
| EventStore.EventQueue.constructor | fix.js:21 | the queue starts empty, with an empty history and no drained batches, and the no-loss invariant holds |
| EventStore.EventQueue.Append | fix.js:24-26 | the queue becomes the old queue with the payload, unchanged, added at the end; the history grows by that payload; the no-loss invariant is preserved |
| EventStore.EventQueue.DrainAll | fix.js:69-70 | returns exactly the queue as it was, in insertion order; leaves the queue empty; records the batch; keeps the invariant that drained batches followed by the queue equal the append history |
| EventStore.FlattenSnoc | fix.js:69-70 | recording one more drained batch extends the delivered history by exactly that batch, which is why a drain keeps the no-loss invariant |
| EventStore.FlattenConcat | fix.js:69-70 | the payloads delivered by two runs of drains are those of the first run followed by those of the second |
| EventStore.OffsetStep | fix.js:69-70 | each drained batch starts in the history right where the previous batch ended |
| EventStore.OffsetMonotone | fix.js:69-70 | a later drain's batch begins no earlier than an earlier drain's batch ends, so batches do not overlap |
| EventStore.FlattenAt | fix.js:69-70 | the j-th payload of drain k is the payload at position Offset(k)+j of the delivered history |
| EventStore.DeliveredBySomeBatch | fix.js:25 | every delivered position of the history was returned by some drain (no loss) |
| EventStore.DeliveredByOneBatch | fix.js:69-70 | no position of the history was returned by two different drains (no duplication) |
| EventStore.DeliveredExactlyOnce | fix.js:21-26 | under the queue invariant, each appended payload is either in exactly the drain batch its position falls in, at the matching offset, or still in the queue at its arrival position |
| StreamClient.PayloadsWithoutMessages | fix.js:39-54 | a trace with no message hands nothing to the queue: only the message handler stores |
| StreamClient.QuietTraceKeepsState | fix.js:39-49 | any trace made only of errors and messages leaves the connection state as it was, so errors never reconnect |
| StreamClient.PendingUntilTimer | fix.js:51-54 | once a reconnect is pending at 3000 ms, every trace without the timer leaves it pending |
| StreamClient.ReconnectAfterClose | fix.js:31-54 | after any history, a close leaves a reconnect pending at 3000 ms; it stays pending through any events but the timer; when the timer fires the client is connecting again |
| StreamClient.NextWellFormed | fix.js:51-54 | every transition keeps the rule that a pending reconnect waits exactly 3000 ms |
| StreamClient.RunWellFormed | fix.js:51-54 | along any trace of events a pending reconnect always waits exactly 3000 ms |
| StreamClient.RunConcat | fix.js:31-55 | handling two pieces of a trace one after the other is handling the whole trace |
| StreamClient.PayloadsConcat | fix.js:39-45 | the payloads stored by a trace are those of its two pieces, in order |
| StreamClient.MessagesStoredInOrder | fix.js:39-45 | a run of messages stores exactly their data, verbatim and in arrival order, and does not change the connection state |
| StreamClient.RetryForever | fix.js:51-54 | retrying is unbounded: after any number n > 0 of close-and-timer outages the client connects again, nothing was stored on the way, and one more close still schedules a reconnect |
| StreamClient.CountsSnoc | fix.js:51-54 | one more event adds one scheduled reconnect exactly when it is a close, and one connection attempt exactly when it is the timer firing in a pending state the trace reached |
| StreamClient.OneAttemptPerOutage | fix.js:51-54 | in n outages there are exactly n closes and exactly n new connection attempts: each close leads to one reconnect, with no limit on n |
| StreamClient.Client.constructor | fix.js:58 | startup calls connectWebSocket once: the client is connecting, with one attempt and no reconnect scheduled |
| StreamClient.Client.ConnectWebSocket | fix.js:31-33 | a new socket is created: the state is Connecting and the attempt count grows by one |
| StreamClient.Client.OnOpen | fix.js:35-37 | the state becomes the transition of Open; queue and counters are untouched |
| StreamClient.Client.OnMessage | fix.js:39-45 | exactly one append of the data to the queue, and no other change to the client |
| StreamClient.Client.OnError | fix.js:47-49 | the error handler changes nothing: queue, state and reconnect schedule stay as they were |
| StreamClient.Client.OnClose | fix.js:51-54 | exactly one reconnect is scheduled, and the state is ReconnectPending(3000) |
| StreamClient.Client.OnTimerFire | fix.js:53 | with a reconnect pending, connectWebSocket runs again: the state is Connecting and one more attempt is made |
| StreamClient.Client.Dispatch | fix.js:35-54 | the handler for any event moves the state by Next and appends exactly the event's Stored payloads to the queue; it schedules one reconnect exactly when the event is a close, and makes one connection attempt exactly when the timer fires with a reconnect pending |
| StreamClient.Client.DispatchAll | fix.js:31-55 | running the handlers for a whole trace leaves the state Run(old state, trace) and extends the queue by exactly Payloads(trace), in order; drained batches are untouched; one reconnect is scheduled per close in the trace, and one connection attempt is made per timer that fires while a reconnect is pending |

## Left out

- The Express server, the `cors()` middleware, `app.listen` and the HTTP port (fix.js:63-64, fix.js:76-79): HTTP framework plumbing.
- The JSON response `res.json({ events: toSend })` (fix.js:72): a foreign library call. The model stops at the sequence `DrainAll` returns.
- The `ws` library and the socket connection to the configured URL (fix.js:7, fix.js:14, fix.js:33): network I/O. Only the handler-driven transitions are modelled, and `ConnectWebSocket` stands for creating the socket.
- `data.toString()` (fix.js:44): decoding the frame's buffer into text belongs to the runtime. The model receives the message data already as a string.
- Real time and `setTimeout` (fix.js:53): the 3000 ms delay is a constant in the `ReconnectPending` state, and `TimerFire` is the moment the timer runs out.
- All `console.log` and `console.error` calls: they carry no state.
- Concurrency: the JavaScript event loop runs handlers one at a time, so the model uses sequential calls and no locks.
- A second `close` while a reconnect is already pending is not emitted by the socket library, since the old socket is already closed. `Next` maps it to the same pending state, so the state does not track two timers at once. The ghost counter `scheduled` still grows by one on that close, as the handler's `setTimeout` call would.
