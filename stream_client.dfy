/**
 The WebSocket client of the relay (`connectWebSocket` and the four handlers it
 registers), as a state machine driven by the events the socket library and
 the reconnect timer deliver. The socket itself and real time are not
 modelled: the reconnect delay is a constant carried by the pending state.
 */
module StreamClient {
  import EventStore

  /** The delay, in milliseconds, between a close and the next connection attempt. */
  const ReconnectDelayMs: nat := 3000

  datatype ConnState =
    | Connecting                       // a socket has been created, no handshake yet
    | Connected                        // the socket reported `open`
    | ReconnectPending(delayMs: nat)   // the socket closed; a reconnect timer is set

  datatype WsEvent =
    | Open
    | Message(data: string)
    | Error
    | Close
    | TimerFire                        // the reconnect timer ran out

  /** Every pending reconnect waits the fixed delay. */
  predicate WellFormed(s: ConnState)
  {
    s.ReconnectPending? ==> s.delayMs == ReconnectDelayMs
  }

  /**
   One transition. `open` only arrives on a socket that is connecting, and the
   timer only fires while a reconnect is pending; elsewhere those events
   cannot occur and leave the state as it is. `close` sets the timer from
   every state, `error` and `message` never move the state.
   */
  function Next(s: ConnState, e: WsEvent): ConnState
  {
    match e
    case Open => if s.Connecting? then Connected else s
    case Message(_) => s
    case Error => s
    case Close => ReconnectPending(ReconnectDelayMs)
    case TimerFire => if s.ReconnectPending? then Connecting else s
  }

  /** The payloads an event hands to the event store. */
  function Stored(e: WsEvent): seq<string>
  {
    if e.Message? then [e.data] else []
  }

  /** The state after a whole run of events. */
  function Run(s: ConnState, events: seq<WsEvent>): ConnState
    decreases |events|
  {
    if events == [] then s else Run(Next(s, events[0]), events[1..])
  }

  /** Every payload a run of events hands to the event store, in arrival order. */
  function Payloads(events: seq<WsEvent>): seq<string>
  {
    if events == [] then [] else Stored(events[0]) + Payloads(events[1..])
  }

  /** n outages in a row: each one a close followed by the reconnect timer. */
  function Outages(n: nat): seq<WsEvent>
  {
    if n == 0 then [] else [Close, TimerFire] + Outages(n - 1)
  }

  /** How many `close` events a trace holds: each one runs the close handler's `setTimeout` once. */
  function Closes(events: seq<WsEvent>): nat
  {
    if events == [] then 0 else (if events[0].Close? then 1 else 0) + Closes(events[1..])
  }

  /** How many connection attempts a trace makes: one per timer that fires while a reconnect is pending. */
  function Reconnects(s: ConnState, events: seq<WsEvent>): nat
    decreases |events|
  {
    if events == [] then 0
    else (if events[0].TimerFire? && s.ReconnectPending? then 1 else 0) + Reconnects(Next(s, events[0]), events[1..])
  }

  /** One more event adds to the counts exactly what that event does in the state the trace reached. */
  lemma {:induction false} CountsSnoc(s: ConnState, events: seq<WsEvent>, e: WsEvent)
    ensures Closes(events + [e]) == Closes(events) + (if e.Close? then 1 else 0)
    ensures Reconnects(s, events + [e]) == Reconnects(s, events) + (if e.TimerFire? && Run(s, events).ReconnectPending? then 1 else 0)
    decreases |events|
  {
    if events == [] {
      assert [] + [e] == [e];
    } else {
      assert (events + [e])[0] == events[0];
      assert (events + [e])[1..] == events[1..] + [e];
      CountsSnoc(Next(s, events[0]), events[1..], e);
    }
  }

  /** In n outages every close is followed by exactly one new connection attempt. */
  lemma {:induction false} OneAttemptPerOutage(s: ConnState, n: nat)
    ensures Closes(Outages(n)) == n
    ensures Reconnects(s, Outages(n)) == n
    decreases n
  {
    if n > 0 {
      var tail := Outages(n - 1);
      assert Outages(n) == [Close, TimerFire] + tail;
      assert Outages(n)[1..] == [TimerFire] + tail;
      assert Outages(n)[1..][1..] == tail;
      OneAttemptPerOutage(Connecting, n - 1);
    }
  }

  /** A trace with no message hands nothing to the event store. */
  lemma {:induction false} PayloadsWithoutMessages(events: seq<WsEvent>)
    requires forall i :: 0 <= i < |events| ==> !events[i].Message?
    ensures Payloads(events) == []
  {
    if events != [] {
      PayloadsWithoutMessages(events[1..]);
    }
  }

  /** Errors and messages, in any number and order, never move the state: an error alone never reconnects. */
  lemma {:induction false} QuietTraceKeepsState(s: ConnState, events: seq<WsEvent>)
    requires forall i :: 0 <= i < |events| ==> events[i].Error? || events[i].Message?
    ensures Run(s, events) == s
    decreases |events|
  {
    if events != [] {
      QuietTraceKeepsState(s, events[1..]);
    }
  }

  /** Once a reconnect is pending, only the timer ends it. */
  lemma {:induction false} PendingUntilTimer(events: seq<WsEvent>)
    requires forall i :: 0 <= i < |events| ==> !events[i].TimerFire?
    ensures Run(ReconnectPending(ReconnectDelayMs), events) == ReconnectPending(ReconnectDelayMs)
    decreases |events|
  {
    if events != [] {
      PendingUntilTimer(events[1..]);
    }
  }

  /**
   Whatever happened before, a close leaves a reconnect pending after the fixed
   delay; it stays pending through any events but the timer, and when the timer
   fires the client is connecting again.
   */
  lemma ReconnectAfterClose(s: ConnState, before: seq<WsEvent>, after: seq<WsEvent>)
    requires forall i :: 0 <= i < |after| ==> !after[i].TimerFire?
    ensures Run(s, before + [Close]) == ReconnectPending(ReconnectDelayMs)
    ensures Run(s, before + [Close] + after) == ReconnectPending(ReconnectDelayMs)
    ensures Run(s, before + [Close] + after + [TimerFire]) == Connecting
  {
    RunConcat(s, before, [Close]);
    RunConcat(s, before + [Close], after);
    PendingUntilTimer(after);
    RunConcat(s, before + [Close] + after, [TimerFire]);
  }

  /** Every transition keeps the fixed reconnect delay. */
  lemma NextWellFormed(s: ConnState, e: WsEvent)
    requires WellFormed(s)
    ensures WellFormed(Next(s, e))
  {
  }

  lemma {:induction false} RunWellFormed(s: ConnState, events: seq<WsEvent>)
    requires WellFormed(s)
    ensures WellFormed(Run(s, events))
    decreases |events|
  {
    if events != [] {
      NextWellFormed(s, events[0]);
      RunWellFormed(Next(s, events[0]), events[1..]);
    }
  }

  /** Running two pieces of a trace one after the other is running the whole trace. */
  lemma {:induction false} RunConcat(s: ConnState, a: seq<WsEvent>, b: seq<WsEvent>)
    ensures Run(s, a + b) == Run(Run(s, a), b)
    decreases |a|
  {
    if a == [] {
      assert a + b == b;
    } else {
      assert (a + b)[0] == a[0];
      assert (a + b)[1..] == a[1..] + b;
      RunConcat(Next(s, a[0]), a[1..], b);
    }
  }

  /** The payloads of a trace are those of its pieces, in order. */
  lemma {:induction false} PayloadsConcat(a: seq<WsEvent>, b: seq<WsEvent>)
    ensures Payloads(a + b) == Payloads(a) + Payloads(b)
  {
    if a == [] {
      assert a + b == b;
    } else {
      assert (a + b)[0] == a[0];
      assert (a + b)[1..] == a[1..] + b;
      PayloadsConcat(a[1..], b);
    }
  }

  /** A run of messages stores exactly their data, verbatim and in order, and keeps the state. */
  lemma {:induction false} MessagesStoredInOrder(s: ConnState, data: seq<string>)
    ensures Run(s, seq(|data|, i requires 0 <= i < |data| => Message(data[i]))) == s
    ensures Payloads(seq(|data|, i requires 0 <= i < |data| => Message(data[i]))) == data
  {
    var events := seq(|data|, i requires 0 <= i < |data| => Message(data[i]));
    if data != [] {
      var rest := seq(|data| - 1, i requires 0 <= i < |data| - 1 => Message(data[1..][i]));
      assert events[1..] == rest;
      MessagesStoredInOrder(s, data[1..]);
      assert data == [data[0]] + data[1..];
    }
  }

  /**
   Retrying has no bound: after any number n of outages (from any state, if
   n > 0) the client is connecting again, no payload was stored on the way,
   and one more close still schedules a reconnect.
   */
  lemma {:induction false} RetryForever(s: ConnState, n: nat)
    ensures n > 0 ==> Run(s, Outages(n)) == Connecting
    ensures n == 0 ==> Run(s, Outages(n)) == s
    ensures Run(s, Outages(n) + [Close]) == ReconnectPending(ReconnectDelayMs)
    ensures Payloads(Outages(n)) == []
    decreases n
  {
    if n > 0 {
      var tail := Outages(n - 1);
      assert Outages(n) == [Close, TimerFire] + tail;
      RunConcat(s, [Close, TimerFire], tail);
      assert Run(s, [Close, TimerFire]) == Connecting by {
        assert [Close, TimerFire][1..] == [TimerFire];
        assert [TimerFire][1..] == [];
      }
      RetryForever(Connecting, n - 1);
      PayloadsConcat([Close, TimerFire], tail);
      assert Payloads([Close, TimerFire]) == [] by {
        assert [Close, TimerFire][1..] == [TimerFire];
        assert [TimerFire][1..] == [];
      }
    }
    RunConcat(s, Outages(n), [Close]);
  }

  /**
   The client: `connectWebSocket` and the handlers it registers on each new
   socket. `events` is the shared event store. The ghost counters record how
   many connection attempts were made and how many reconnects scheduled.
   */
  class Client {
    var state: ConnState
    const events: EventStore.EventQueue
    ghost var attempts: nat
    ghost var scheduled: nat

    ghost predicate Valid()
      reads this, events
    {
      events.Valid() && WellFormed(state)
    }

    /** Program start: the first call of connectWebSocket. */
    constructor (store: EventStore.EventQueue)
      requires store.Valid()
      ensures Valid()
      ensures events == store && state == Connecting
      ensures attempts == 1 && scheduled == 0
    {
      events := store;
      state := Connecting;
      attempts := 1;
      scheduled := 0;
    }

    /** connectWebSocket: creates a new socket, which starts out connecting. */
    method ConnectWebSocket()
      requires Valid()
      modifies this
      ensures Valid()
      ensures state == Connecting
      ensures attempts == old(attempts) + 1 && scheduled == old(scheduled)
    {
      state := Connecting;
      attempts := attempts + 1;
    }

    /** The `open` handler: the handshake completed. */
    method OnOpen()
      requires Valid()
      modifies this
      ensures Valid()
      ensures state == Next(old(state), Open)
      ensures attempts == old(attempts) && scheduled == old(scheduled)
    {
      if state.Connecting? {
        state := Connected;
      }
    }

    /** The `message` handler: stores the data, as a string, in the event store. */
    method OnMessage(data: string)
      requires Valid()
      modifies events
      ensures Valid()
      ensures unchanged(this)
      ensures events.queue == old(events.queue) + [data]
      ensures events.history == old(events.history) + [data]
      ensures events.batches == old(events.batches)
    {
      events.Append(data);
    }

    /** The `error` handler: only reports, so it may change nothing. */
    method OnError()
      requires Valid()
      ensures Valid()
      ensures unchanged(this) && unchanged(events)
    {
    }

    /** The `close` handler: sets one timer that calls connectWebSocket after the fixed delay. */
    method OnClose()
      requires Valid()
      modifies this
      ensures Valid()
      ensures state == Next(old(state), Close) == ReconnectPending(ReconnectDelayMs)
      ensures scheduled == old(scheduled) + 1 && attempts == old(attempts)
    {
      state := ReconnectPending(ReconnectDelayMs);
      scheduled := scheduled + 1;
    }

    /** The reconnect timer runs out: connectWebSocket is called again. */
    method OnTimerFire()
      requires Valid()
      modifies this
      ensures Valid()
      ensures state == Next(old(state), TimerFire)
      ensures attempts == old(attempts) + (if old(state).ReconnectPending? then 1 else 0)
      ensures scheduled == old(scheduled)
    {
      if state.ReconnectPending? {
        ConnectWebSocket();
      }
    }

    /** The socket library delivering one event to the handler registered for it. */
    method Dispatch(e: WsEvent)
      requires Valid()
      modifies this, events
      ensures Valid()
      ensures state == Next(old(state), e)
      ensures events.queue == old(events.queue) + Stored(e)
      ensures events.history == old(events.history) + Stored(e)
      ensures events.batches == old(events.batches)
      ensures scheduled == old(scheduled) + (if e.Close? then 1 else 0)
      ensures attempts == old(attempts) + (if e.TimerFire? && old(state).ReconnectPending? then 1 else 0)
    {
      match e
      case Open => OnOpen();
      case Message(data) => OnMessage(data);
      case Error => OnError();
      case Close => OnClose();
      case TimerFire => OnTimerFire();
    }

    /**
     The socket library and the timer delivering a whole trace of events, one
     handler run after another.
     */
    method DispatchAll(trace: seq<WsEvent>)
      requires Valid()
      modifies this, events
      ensures Valid()
      ensures state == Run(old(state), trace)
      ensures events.queue == old(events.queue) + Payloads(trace)
      ensures events.history == old(events.history) + Payloads(trace)
      ensures events.batches == old(events.batches)
      ensures scheduled == old(scheduled) + Closes(trace)
      ensures attempts == old(attempts) + Reconnects(old(state), trace)
    {
      var i := 0;
      while i < |trace|
        invariant 0 <= i <= |trace|
        invariant Valid()
        invariant state == Run(old(state), trace[..i])
        invariant events.queue == old(events.queue) + Payloads(trace[..i])
        invariant events.history == old(events.history) + Payloads(trace[..i])
        invariant events.batches == old(events.batches)
        invariant scheduled == old(scheduled) + Closes(trace[..i])
        invariant attempts == old(attempts) + Reconnects(old(state), trace[..i])
      {
        assert trace[..i + 1] == trace[..i] + [trace[i]];
        CountsSnoc(old(state), trace[..i], trace[i]);
        RunConcat(old(state), trace[..i], [trace[i]]);
        PayloadsConcat(trace[..i], [trace[i]]);
        Dispatch(trace[i]);
        i := i + 1;
      }
      assert trace[..i] == trace;
    }
  }
}
