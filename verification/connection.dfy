/**
 * The reconnecting WebSocket client that each telemetry view builds inside a
 * React effect: `connectWebSocket`, the socket handlers, `handleReconnect`
 * and the effect's cleanup, as a pure transition function over events.
 *
 * Timers, sockets and exceptions become data:
 * - `timerRef` is whether `reconnectTimerRef.current` holds a timer id;
 * - `liveTimers` counts `setTimeout` callbacks scheduled and neither fired
 *   nor cleared;
 * - `delay` is the timeout most recently passed to `setTimeout`;
 * - `socket` is the `readyState` of the socket `socketRef.current` refers to.
 * The ref and the live timers usually agree, but the cleanup clears the
 * timeout without nulling the ref, so they are kept apart.
 */
module Connection {
  import Backoff
  import opened Readings

  datatype Ready = NoSocket | Connecting | Open | Closing | Closed

  datatype Conn = Conn(retry: nat, timerRef: bool, liveTimers: nat, delay: nat, socket: Ready)

  /** State before the effect runs: no socket, no timer, retry counter 0. */
  const Initial: Conn := Conn(0, false, 0, 0, NoSocket)

  /**
   * Inputs of the state machine. `Connect` is the effect's first call of
   * `connectWebSocket`; `constructs` says whether `new WebSocket(...)`
   * returned (false: it threw, e.g. a SecurityError). `TimerFire` is the
   * reconnect timeout running, which calls `connectWebSocket` again.
   * `Open`, `Message`, `Error` and `Close` are the socket's handlers.
   * `Cleanup` is the effect's teardown on unmount.
   */
  datatype Event =
    | Connect(constructs: bool)
    | Open
    | Message(msg: Inbound)
    | Error
    | Close
    | TimerFire(constructs: bool)
    | Cleanup

  /** The state after a handler, and whether an exception escaped from it. */
  datatype Outcome = Outcome(conn: Conn, escaped: bool)

  /** At most one reconnect timer is live, and a live timer is always recorded in the ref. */
  predicate Valid(c: Conn) {
    c.liveTimers <= 1 && (c.liveTimers == 1 ==> c.timerRef)
  }

  /** `socket.close()`: a connecting or open socket starts closing; otherwise nothing happens. */
  function RequestClose(s: Ready): (r: Ready)
    ensures s == Connecting || s == Ready.Open ==> r == Closing
    ensures s != Connecting && s != Ready.Open ==> r == s
  {
    match s
    case Connecting => Closing
    case Open => Closing
    case _ => s
  }

  /** `handleReconnect`: schedules one timeout unless the ref already holds a timer. */
  function HandleReconnect(c: Conn): (r: Conn)
    ensures c.timerRef ==> r == c
    ensures !c.timerRef ==>
      r == c.(timerRef := true, liveTimers := c.liveTimers + 1, delay := Backoff.Delay(c.retry))
    ensures r.retry == c.retry && r.socket == c.socket
  {
    if c.timerRef then c
    else c.(timerRef := true, liveTimers := c.liveTimers + 1, delay := Backoff.Delay(c.retry))
  }

  /**
   * `connectWebSocket`. A successful construction installs a new connecting
   * socket. A failed one is routed to `handleReconnect` when the view wraps
   * the construction in try/catch (`catches`); otherwise the exception
   * escapes and the state is left as it was.
   */
  function ConnectAttempt(c: Conn, constructs: bool, catches: bool): (o: Outcome)
    ensures constructs ==> o == Outcome(c.(socket := Connecting), false)
    ensures !constructs && catches ==> o == Outcome(HandleReconnect(c), false)
    ensures !constructs && !catches ==> o == Outcome(c, true)
  {
    if constructs then Outcome(c.(socket := Connecting), false)
    else if catches then Outcome(HandleReconnect(c), false)
    else Outcome(c, true)
  }

  /** One event handled by a client whose construction failures are caught iff `catches`. */
  function Step(c: Conn, e: Event, catches: bool): (o: Outcome)
    ensures catches ==> !o.escaped
    ensures o.escaped ==> !catches && (e.Connect? || e.TimerFire?)
  {
    match e
    case Connect(constructs) =>
      ConnectAttempt(c, constructs, catches)
    case Open =>
      Outcome(c.(socket := Ready.Open, retry := 0, timerRef := false,
                 liveTimers := if c.timerRef then 0 else c.liveTimers), false)
    case Message(_) =>
      Outcome(c, false)
    case Error =>
      Outcome(HandleReconnect(c.(socket := RequestClose(c.socket))), false)
    case Close =>
      Outcome(HandleReconnect(c.(socket := Closed)), false)
    case TimerFire(constructs) =>
      if c.liveTimers == 0 then Outcome(c, false)
      else ConnectAttempt(c.(retry := c.retry + 1, timerRef := false, liveTimers := c.liveTimers - 1),
                          constructs, catches)
    case Cleanup =>
      Outcome(c.(socket := RequestClose(c.socket),
                 liveTimers := if c.timerRef then 0 else c.liveTimers), false)
  }

  /** The state after a sequence of events. */
  function Run(c: Conn, es: seq<Event>, catches: bool): Conn
    decreases |es|
  {
    if es == [] then c else Run(Step(c, es[0], catches).conn, es[1..], catches)
  }

  /** Every event keeps the single-timer invariant. */
  lemma StepPreservesValid(c: Conn, e: Event, catches: bool)
    requires Valid(c)
    ensures Valid(Step(c, e, catches).conn)
  {
  }

  /** Any interleaving of events, from any valid state, keeps at most one timer live. */
  lemma {:induction false} RunPreservesValid(c: Conn, es: seq<Event>, catches: bool)
    requires Valid(c)
    ensures Valid(Run(c, es, catches))
    ensures Run(c, es, catches).liveTimers <= 1
    decreases |es|
  {
    if es != [] {
      StepPreservesValid(c, es[0], catches);
      RunPreservesValid(Step(c, es[0], catches).conn, es[1..], catches);
    }
  }

  /** From the initial state no sequence of events ever has two reconnect timers pending. */
  lemma AtMostOneTimer(es: seq<Event>, catches: bool)
    ensures Run(Initial, es, catches).liveTimers <= 1
  {
    RunPreservesValid(Initial, es, catches);
  }

  /** Error or Close events only. */
  predicate OnlyDrops(es: seq<Event>) {
    forall i :: 0 <= i < |es| ==> es[i].Error? || es[i].Close?
  }

  /**
   * While a timer is pending, further Error/Close events schedule nothing:
   * the retry counter, the live timers and the scheduled delay are unchanged.
   */
  lemma {:induction false} DropsWhilePendingAreIgnored(c: Conn, es: seq<Event>, catches: bool)
    requires c.timerRef && OnlyDrops(es)
    ensures var r := Run(c, es, catches);
      r.timerRef && r.retry == c.retry && r.liveTimers == c.liveTimers && r.delay == c.delay
    decreases |es|
  {
    if es != [] {
      var c' := Step(c, es[0], catches).conn;
      assert es[0].Error? || es[0].Close?;
      assert OnlyDrops(es[1..]) by {
        forall i | 0 <= i < |es[1..]| ensures es[1..][i].Error? || es[1..][i].Close? {
          assert es[1..][i] == es[i + 1];
        }
      }
      DropsWhilePendingAreIgnored(c', es[1..], catches);
    }
  }

  /**
   * A drop with no timer pending schedules exactly one timer, with the
   * backoff delay of the current retry counter.
   */
  lemma DropSchedulesBackoff(c: Conn, e: Event, catches: bool)
    requires Valid(c) && !c.timerRef && (e.Error? || e.Close?)
    ensures var r := Step(c, e, catches).conn;
      r.timerRef && r.liveTimers == 1 && r.delay == Backoff.Delay(c.retry) && r.retry == c.retry
  {
  }

  /** Opening resets the retry counter and leaves no timer pending, whatever came before. */
  lemma OpenResets(c: Conn, catches: bool)
    requires Valid(c)
    ensures var r := Step(c, Event.Open, catches).conn;
      r.retry == 0 && r.liveTimers == 0 && !r.timerRef && r.socket == Ready.Open
  {
  }

  /**
   * A firing timer increments the retry counter by one and clears the marker
   * before reconnecting; a successful construction then leaves a connecting
   * socket and no timer.
   */
  lemma TimerFireIncrements(c: Conn, constructs: bool, catches: bool)
    requires Valid(c) && c.liveTimers == 1
    ensures var o := Step(c, TimerFire(constructs), catches);
      o.conn.retry == c.retry + 1 &&
      (constructs ==> !o.conn.timerRef && o.conn.liveTimers == 0 && o.conn.socket == Connecting)
  {
  }

  /**
   * With try/catch around the construction, a failed attempt after a timer
   * never escapes and schedules the next attempt with the doubled delay.
   */
  lemma CaughtFailureSchedulesRetry(c: Conn)
    requires Valid(c) && c.liveTimers == 1
    ensures var o := Step(c, TimerFire(false), true);
      !o.escaped && o.conn.retry == c.retry + 1 &&
      o.conn.timerRef && o.conn.liveTimers == 1 && o.conn.delay == Backoff.Delay(c.retry + 1)
  {
  }

  /**
   * Without try/catch, a failed construction inside the timer callback
   * escapes and leaves no timer at all: nothing will reconnect the client
   * unless some other socket event arrives.
   */
  lemma UncaughtFailureStalls(c: Conn)
    requires Valid(c) && c.liveTimers == 1
    ensures var o := Step(c, TimerFire(false), false);
      o.escaped && o.conn.retry == c.retry + 1 &&
      !o.conn.timerRef && o.conn.liveTimers == 0 && o.conn.socket == c.socket
  {
  }

  /** A timer that is no longer live cannot fire: the event changes nothing. */
  lemma StaleTimerFireIgnored(c: Conn, constructs: bool, catches: bool)
    requires c.liveTimers == 0
    ensures Step(c, TimerFire(constructs), catches) == Outcome(c, false)
  {
  }

  /** The cleanup cancels any live timer, and a second cleanup changes nothing more. */
  lemma CleanupCancelsTimers(c: Conn, catches: bool)
    requires Valid(c)
    ensures var r := Step(c, Cleanup, catches).conn;
      r.liveTimers == 0 && r.retry == c.retry &&
      Step(r, Cleanup, catches).conn == r
  {
  }

  /**
   * The cleanup is not terminal: it sets no stop flag, so when the socket it
   * closes reports `onclose` and the timer ref was empty, a new reconnect is
   * scheduled after unmount.
   */
  lemma CleanupDoesNotStop(c: Conn, catches: bool)
    requires Valid(c) && !c.timerRef
    ensures Run(c, [Cleanup, Close], catches).liveTimers == 1
  {
    var afterCleanup := Step(c, Cleanup, catches).conn;
    assert afterCleanup.liveTimers == 0 && !afterCleanup.timerRef;
    assert Run(c, [Cleanup, Close], catches) == Run(afterCleanup, [Close], catches);
  }

  /**
   * The other side of the same cleanup: it clears a pending timeout but
   * does not empty the ref, so after it has run with a timer pending, a
   * later successful connect whose socket drops before opening schedules
   * nothing.
   */
  lemma CleanupWithPendingTimerBlocksReconnect(c: Conn, catches: bool)
    requires Valid(c) && c.timerRef
    ensures Run(c, [Cleanup, Connect(true), Close], catches).liveTimers == 0
    ensures Run(c, [Cleanup, Connect(true), Close], catches).timerRef
  {
    var c1 := Step(c, Cleanup, catches).conn;
    assert c1.liveTimers == 0 && c1.timerRef;
    var c2 := Step(c1, Connect(true), catches).conn;
    assert c2.liveTimers == 0 && c2.timerRef;
    assert Run(c, [Cleanup, Connect(true), Close], catches) == Run(c1, [Connect(true), Close], catches);
    assert Run(c1, [Connect(true), Close], catches) == Run(c2, [Close], catches);
  }

  /**
   * The ref left set by such a cleanup lasts only until a later socket's
   * `onopen`, which empties it; a drop after that schedules a reconnect.
   */
  lemma OpenAfterCleanupRestoresReconnect(c: Conn, catches: bool)
    requires Valid(c) && c.timerRef
    ensures !Run(c, [Cleanup, Connect(true), Event.Open], catches).timerRef
    ensures Run(c, [Cleanup, Connect(true), Event.Open, Close], catches).liveTimers == 1
  {
  }

  /** Messages never touch the connection state. */
  lemma MessageKeepsConnection(c: Conn, msg: Inbound, catches: bool)
    ensures Step(c, Message(msg), catches) == Outcome(c, false)
  {
  }
}
