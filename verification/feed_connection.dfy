/** The order-book feed hook (src/hooks/useWebSocket.ts): one socket, its
    event handlers, the reconnect timer and the teardown. Timers are modelled
    by what the code keeps of them: the `reconnectTimer` reference (`timerRef`)
    and whether a timer is actually scheduled (`timerPending`). */
module FeedConnection {
  import opened Base
  import opened MarketTypes

  /** `WebSocket.readyState` of the current socket. */
  datatype ReadyState = Connecting | Open | Closing | Closed

  /** The error strings the hook publishes. */
  datatype FeedError = ParseFailure | ConnectionFailure {
    function Message(): string {
      match this
      case ParseFailure => "Failed to parse market data."
      case ConnectionFailure => "WebSocket connection error."
    }
  }

  /** The hook's state: the current socket (none before the first connect),
      how many sockets it has created, the reconnect timer reference and
      whether that timer is still scheduled, the published connection flag,
      error and snapshot, and whether the component is mounted. */
  datatype Feed = Feed(
    socket: Option<ReadyState>,
    socketsCreated: nat,
    timerRef: bool,
    timerPending: bool,
    isConnected: bool,
    error: Option<FeedError>,
    orderBook: Option<RawOrderBook>,
    mounted: bool)

  /** What can happen to the hook. A message carries the parsed snapshot, or
      `None` when the payload did not parse. */
  datatype FeedEvent =
    | Mount
    | SocketOpened
    | MessageReceived(parsed: Option<RawOrderBook>)
    | SocketError
    | SocketClosed
    | ReconnectTimerFired
    | Teardown

  /** Before the effect runs: no socket, no timer, nothing published. */
  const Initial: Feed := Feed(None, 0, false, false, false, None, None, false)

  /** `connect`: a no-op while the current socket is open; otherwise a new
      socket replaces the current one. */
  function Connect(s: Feed): (r: Feed)
    ensures s.socket == Some(Open) ==> r == s
    ensures s.socket != Some(Open) ==>
      r == s.(socket := Some(Connecting), socketsCreated := s.socketsCreated + 1)
  {
    if s.socket == Some(Open) then s
    else s.(socket := Some(Connecting), socketsCreated := s.socketsCreated + 1)
  }

  /** The socket is live: it can still deliver open, message, error or close events. */
  predicate Live(st: ReadyState) {
    st != Closed
  }

  /** The hook's response to one event, as written. `Mount` is the hook's
      effect running on this component instance: from `Initial` it is the
      first mount; from any other state it keeps the timer reference, the
      error and the snapshot, as a re-run of the effect on the same instance
      does. A fresh component instance starts again from `Initial`, and "the
      next mount" below means a `Mount` event on the same instance. */
  function Step(s: Feed, e: FeedEvent): Feed {
    match e
    case Mount => Connect(s.(mounted := true))
    case SocketOpened =>
      if s.socket != Some(Connecting) then s
      else s.(socket := Some(Open), isConnected := true, error := None, timerRef := false, timerPending := false)
    case MessageReceived(parsed) =>
      if s.socket != Some(Open) then s
      else if parsed.Some? then s.(orderBook := parsed)
      else s.(error := Some(ParseFailure))
    case SocketError =>
      if s.socket.None? || !Live(s.socket.value) then s
      else s.(error := Some(ConnectionFailure), isConnected := false)
    case SocketClosed =>
      if s.socket.None? || !Live(s.socket.value) then s
      else
        var s1 := s.(socket := Some(Closed), isConnected := false);
        if s1.timerRef then s1 else s1.(timerRef := true, timerPending := true)
    case ReconnectTimerFired =>
      // The handle is not released: `timerRef` stays set.
      if !s.timerPending then s else Connect(s.(timerPending := false))
    case Teardown =>
      var s1 := s.(timerPending := false, mounted := false);
      if s1.socket == Some(Connecting) || s1.socket == Some(Open) then s1.(socket := Some(Closing)) else s1
  }

  function Run(s: Feed, events: seq<FeedEvent>): Feed
    decreases |events|
  {
    if events == [] then s else Run(Step(s, events[0]), events[1..])
  }

  /** A timer can only be scheduled while its reference is held. */
  predicate Invariant(s: Feed) {
    s.timerPending ==> s.timerRef
  }

  /** The handlers one event at a time: what each changes and what it leaves alone. */
  lemma HandlerEffects(s: Feed, parsed: Option<RawOrderBook>)
    requires Invariant(s)
    // Opening a connecting socket publishes the connection, clears the error
    // and clears and releases the reconnect timer.
    ensures s.socket == Some(Connecting) ==>
      var r := Step(s, SocketOpened);
      && r.socket == Some(Open) && r.isConnected && r.error.None?
      && !r.timerRef && !r.timerPending && r.orderBook == s.orderBook
    // A parsed message replaces the snapshot; an unparsed one keeps it and sets the parse error.
    ensures s.socket == Some(Open) && parsed.Some? ==> Step(s, MessageReceived(parsed)) == s.(orderBook := parsed)
    ensures s.socket == Some(Open) && parsed.None? ==>
      var r := Step(s, MessageReceived(parsed));
      && r.orderBook == s.orderBook && r.error == Some(ParseFailure) && r.isConnected == s.isConnected
      && r.error.value.Message() == "Failed to parse market data."
    // An error publishes itself and the lost connection but schedules nothing.
    ensures s.socket.Some? && Live(s.socket.value) ==>
      var r := Step(s, SocketError);
      && r.error == Some(ConnectionFailure) && !r.isConnected
      && r.error.value.Message() == "WebSocket connection error."
      && r.timerRef == s.timerRef && r.timerPending == s.timerPending && r.socket == s.socket
    // A close schedules a reconnect only when no reference is held.
    ensures s.socket.Some? && Live(s.socket.value) ==>
      var r := Step(s, SocketClosed);
      && !r.isConnected && r.socket == Some(Closed) && r.timerRef
      && (r.timerPending <==> (s.timerPending || !s.timerRef))
      && r.socketsCreated == s.socketsCreated
  {
  }

  /** Every event keeps the invariant. */
  lemma StepKeepsInvariant(s: Feed, e: FeedEvent)
    requires Invariant(s)
    ensures Invariant(Step(s, e))
  {
  }

  /** The timer firing reconnects but keeps the reference, so no further timer
      can be scheduled until a socket opens. */
  lemma TimerFiringKeepsReference(s: Feed)
    requires Invariant(s) && s.timerPending
    ensures var r := Step(s, ReconnectTimerFired);
      && r.timerRef && !r.timerPending
      && (s.socket != Some(Open) ==> r.socket == Some(Connecting) && r.socketsCreated == s.socketsCreated + 1)
  {
  }

  /** Teardown cancels the pending timer and closes a connecting or open socket. */
  lemma TeardownReleases(s: Feed)
    ensures var r := Step(s, Teardown);
      && !r.timerPending && !r.mounted
      && (s.socket == Some(Connecting) || s.socket == Some(Open) ==> r.socket == Some(Closing))
      && r.socketsCreated == s.socketsCreated
  {
  }

  /** Mounting from the initial state opens the first socket and publishes nothing. */
  lemma MountConnects()
    ensures var r := Step(Initial, Mount);
      && r.socket == Some(Connecting) && r.socketsCreated == 1
      && !r.isConnected && r.error.None? && r.orderBook.None? && !r.timerRef && !r.timerPending
  {
  }

  // ---------------------------------------------------------------------------
  // Finding: the reference is never released when the timer fires.

  /** Stranded: the socket is closed, the stale reference is held and no timer
      is scheduled. */
  predicate Stranded(s: Feed) {
    s.socket == Some(Closed) && s.timerRef && !s.timerPending
  }

  /** Once stranded, no event except a fresh mount ever creates a socket again. */
  lemma {:induction false} StrandedForever(s: Feed, events: seq<FeedEvent>)
    requires Stranded(s)
    requires forall i :: 0 <= i < |events| ==> events[i] != Mount
    ensures Stranded(Run(s, events))
    ensures Run(s, events).socketsCreated == s.socketsCreated
    decreases |events|
  {
    if events != [] {
      assert events[0] != Mount;
      var s1 := Step(s, events[0]);
      assert Stranded(s1) && s1.socketsCreated == s.socketsCreated;
      assert forall i :: 0 <= i < |events[1..]| ==> events[1..][i] == events[i + 1];
      StrandedForever(s1, events[1..]);
    }
  }

  /** One failed reconnect attempt strands the feed: open, close, the timer
      fires, the new socket closes without opening. */
  lemma OneFailedReconnectStrands()
    ensures Stranded(Run(Initial, [Mount, SocketOpened, SocketClosed, ReconnectTimerFired, SocketClosed]))
  {
    var s1 := Step(Initial, Mount);
    var s2 := Step(s1, SocketOpened);
    var s3 := Step(s2, SocketClosed);
    var s4 := Step(s3, ReconnectTimerFired);
    var s5 := Step(s4, SocketClosed);
    assert Stranded(s5);
    var events := [Mount, SocketOpened, SocketClosed, ReconnectTimerFired, SocketClosed];
    assert Run(Initial, events) == Run(s1, events[1..]);
    assert events[1..][1..] == events[2..];
    assert events[2..][1..] == events[3..];
    assert events[3..][1..] == events[4..];
    assert events[4..][1..] == [];
  }

  // ---------------------------------------------------------------------------
  // Finding: the socket's handlers outlive the teardown.

  /** Teardown of an open feed, then the close event that `close()` causes:
      a reconnect is scheduled after unmounting, and when it fires a new
      socket is created. */
  lemma CloseAfterTeardownReconnects()
    ensures var s := Run(Initial, [Mount, SocketOpened, Teardown, SocketClosed]);
      !s.mounted && s.timerPending
    ensures Run(Initial, [Mount, SocketOpened, Teardown, SocketClosed, ReconnectTimerFired]).socketsCreated == 2
  {
    var s1 := Step(Initial, Mount);
    var s2 := Step(s1, SocketOpened);
    var s3 := Step(s2, Teardown);
    var s4 := Step(s3, SocketClosed);
    var s5 := Step(s4, ReconnectTimerFired);
    assert s5.socketsCreated == 2;
    var events := [Mount, SocketOpened, Teardown, SocketClosed, ReconnectTimerFired];
    assert events[1..][1..] == events[2..];
    assert events[2..][1..] == events[3..];
    assert events[3..][1..] == events[4..];
    assert events[4..][1..] == [];
    assert events[..4][1..] == events[1..4];
    assert events[1..4][1..] == events[2..4];
    assert events[2..4][1..] == events[3..4];
    assert events[3..4][1..] == [];
    assert events[..4] == [Mount, SocketOpened, Teardown, SocketClosed];
  }

  /** The hook as evidently intended: the timer releases its reference when it
      fires, and teardown releases the reference and detaches the handlers,
      so that nothing happens to an unmounted feed. */
  function CorrectedStep(s: Feed, e: FeedEvent): Feed {
    match e
    case Mount => Connect(s.(mounted := true))
    case Teardown =>
      var s1 := s.(timerPending := false, timerRef := false, mounted := false);
      if s1.socket == Some(Connecting) || s1.socket == Some(Open) then s1.(socket := Some(Closing)) else s1
    case ReconnectTimerFired =>
      if !s.mounted || !s.timerPending then s else Connect(s.(timerPending := false, timerRef := false))
    case _ => if !s.mounted then s else Step(s, e)
  }

  function CorrectedRun(s: Feed, events: seq<FeedEvent>): Feed
    decreases |events|
  {
    if events == [] then s else CorrectedRun(CorrectedStep(s, events[0]), events[1..])
  }

  /** In the corrected hook the reference is held exactly while a timer is scheduled. */
  predicate CorrectedInvariant(s: Feed) {
    s.timerPending == s.timerRef && (!s.mounted ==> !s.timerPending)
  }

  /** Corrected: every close of a live socket while mounted leaves exactly one
      reconnect scheduled, however many attempts failed before. */
  lemma CorrectedCloseAlwaysSchedules(s: Feed, e: FeedEvent)
    requires CorrectedInvariant(s)
    ensures CorrectedInvariant(CorrectedStep(s, e))
    ensures e == SocketClosed && s.mounted && s.socket.Some? && Live(s.socket.value) ==>
      CorrectedStep(s, e).timerPending && CorrectedStep(s, e).socket == Some(Closed)
  {
  }

  /** Corrected: after teardown and until the next mount, no timer is
      scheduled and no socket is created. */
  lemma {:induction false} CorrectedNothingAfterTeardown(s: Feed, events: seq<FeedEvent>)
    requires !s.mounted && !s.timerPending
    requires forall i :: 0 <= i < |events| ==> events[i] != Mount
    ensures !CorrectedRun(s, events).timerPending
    ensures CorrectedRun(s, events).socketsCreated == s.socketsCreated
    decreases |events|
  {
    if events != [] {
      assert events[0] != Mount;
      assert forall i :: 0 <= i < |events[1..]| ==> events[1..][i] == events[i + 1];
      CorrectedNothingAfterTeardown(CorrectedStep(s, events[0]), events[1..]);
    }
  }

  /** Corrected: the failing sequence that strands the hook as written leaves
      a reconnect scheduled. */
  lemma CorrectedRecoversFromFailedReconnect()
    ensures CorrectedRun(Initial, [Mount, SocketOpened, SocketClosed, ReconnectTimerFired, SocketClosed]).timerPending
  {
    var events := [Mount, SocketOpened, SocketClosed, ReconnectTimerFired, SocketClosed];
    assert events[1..][1..] == events[2..];
    assert events[2..][1..] == events[3..];
    assert events[3..][1..] == events[4..];
    assert events[4..][1..] == [];
  }
}
