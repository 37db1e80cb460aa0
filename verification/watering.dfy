/**
 * The watering view: the reconnecting client of the watering feed (no
 * try/catch around the construction), the four-field message decoder, the
 * auto-watering time window, the START/STOP toggle and the simulated fill
 * of the water-amount bar.
 */
module Watering {
  import opened Wrappers
  import opened Readings
  import Backoff
  import Connection
  import TimeOfDay

  /** The watering view does not wrap `new WebSocket` in try/catch. */
  const CatchesConstruct: bool := false

  /** Added per simulated fill tick, in percent. */
  const FillStepPercent: real := 2.0

  datatype Verb = Start | Stop

  /** The outbound payload `{command, amount}`. */
  datatype Command = Command(verb: Verb, amount: int)

  /**
   * State of the view. `filling` says whether the simulated fill interval
   * is running; `fillTarget` is the target that interval captured when it
   * was started (later slider moves do not reach it).
   */
  datatype Garden = Garden(
    conn: Connection.Conn,
    moisture: real,
    temperature: real,
    watering: bool,
    waterAmount: real,
    autoStart: string,
    autoEnd: string,
    target: int,
    filling: bool,
    fillTarget: int)

  const Init: Garden :=
    Garden(Connection.Initial, 0.0, 0.0, false, 0.0, "06:00", "06:15", 30, false, 30)

  /** The watering feed's `onmessage`: each present field replaces its value; `waterAmount` is clamped. */
  function ApplyMessage(g: Garden, msg: Inbound): (r: Garden)
    ensures r.conn == g.conn && r.autoStart == g.autoStart && r.autoEnd == g.autoEnd
    ensures r.target == g.target && r.filling == g.filling && r.fillTarget == g.fillTarget
    ensures msg.Malformed? ==> r == g
    ensures msg.Decoded? ==>
      && r.moisture == msg.fields.moisture.GetOr(g.moisture)
      && r.temperature == msg.fields.temperature.GetOr(g.temperature)
      && r.watering == msg.fields.watering.GetOr(g.watering)
      && r.waterAmount == (if msg.fields.waterAmount.Some? then Clamp(msg.fields.waterAmount.value) else g.waterAmount)
  {
    match msg
    case Malformed => g
    case Decoded(f) =>
      var g1 := if f.moisture.Some? then g.(moisture := f.moisture.value) else g;
      var g2 := if f.temperature.Some? then g1.(temperature := f.temperature.value) else g1;
      var g3 := if f.watering.Some? then g2.(watering := f.watering.value) else g2;
      if f.waterAmount.Some? then g3.(waterAmount := Clamp(f.waterAmount.value)) else g3
  }

  /** The periodic auto-watering check: watering is set to whether `now` lies in the window. */
  function AutoCheck(g: Garden, now: string): (r: Garden)
    ensures r.watering <==> TimeOfDay.LexLe(g.autoStart, now) && TimeOfDay.LexLe(now, g.autoEnd)
    ensures r.(watering := g.watering) == g
  {
    g.(watering := TimeOfDay.InWindow(now, g.autoStart, g.autoEnd))
  }

  /** With the start after the end there is no wrap past midnight: the check never turns watering on. */
  lemma AutoCheckReversedWindow(g: Garden, now: string)
    requires TimeOfDay.LexLess(g.autoEnd, g.autoStart)
    ensures !AutoCheck(g, now).watering
  {
    TimeOfDay.ReversedWindowNeverOn(now, g.autoStart, g.autoEnd);
  }

  /** For clock times the check is the inclusive window on times of day. */
  lemma AutoCheckByClock(g: Garden, now: string)
    requires TimeOfDay.WellFormed(now) && TimeOfDay.WellFormed(g.autoStart) && TimeOfDay.WellFormed(g.autoEnd)
    ensures AutoCheck(g, now).watering <==>
      TimeOfDay.Minutes(g.autoStart) <= TimeOfDay.Minutes(now) <= TimeOfDay.Minutes(g.autoEnd)
  {
    TimeOfDay.WindowByMinutes(now, g.autoStart, g.autoEnd);
  }

  /** The default window 06:00-06:15 is on at 06:00, 06:07 and 06:15 and off at 05:59 and 06:16. */
  lemma DefaultWindow()
    ensures AutoCheck(Init, "06:00").watering && AutoCheck(Init, "06:07").watering
    ensures AutoCheck(Init, "06:15").watering
    ensures !AutoCheck(Init, "05:59").watering && !AutoCheck(Init, "06:16").watering
  {
    AutoCheckByClock(Init, "06:00");
    AutoCheckByClock(Init, "06:07");
    AutoCheckByClock(Init, "06:15");
    AutoCheckByClock(Init, "05:59");
    AutoCheckByClock(Init, "06:16");
  }

  /** The result of pressing the start/stop button. */
  datatype Toggled = Toggled(garden: Garden, sent: Option<Command>)

  /**
   * `toggleWatering`: flips `watering`; sends START with the target or STOP
   * with 0 when the socket is open; starting resets the bar to 0 and
   * (re)starts the fill interval with the current target, stopping ends it.
   */
  function Toggle(g: Garden): (t: Toggled)
    ensures t.garden.watering == !g.watering
    ensures t.sent.Some? <==> g.conn.socket == Connection.Ready.Open
    ensures t.sent.Some? && !g.watering ==> t.sent.value == Command(Start, g.target)
    ensures t.sent.Some? && g.watering ==> t.sent.value == Command(Stop, 0)
    ensures !g.watering ==> t.garden.waterAmount == 0.0 && t.garden.filling && t.garden.fillTarget == g.target
    ensures g.watering ==> !t.garden.filling && t.garden.waterAmount == g.waterAmount
    ensures t.garden.conn == g.conn && t.garden.target == g.target
    ensures t.garden.(watering := g.watering, waterAmount := g.waterAmount,
                      filling := g.filling, fillTarget := g.fillTarget) == g
  {
    var on := !g.watering;
    var sent :=
      if g.conn.socket == Connection.Ready.Open then
        Some(if on then Command(Start, g.target) else Command(Stop, 0))
      else None;
    var g' := g.(watering := on);
    Toggled(if on then g'.(waterAmount := 0.0, filling := true, fillTarget := g.target)
            else g'.(filling := false),
            sent)
  }

  /** Pressing the button twice restores the watering flag; the fill then runs exactly when watering is on. */
  lemma ToggleTwice(g: Garden)
    ensures var t2 := Toggle(Toggle(g).garden).garden;
      t2.watering == g.watering && (g.watering ==> t2.filling) && (!g.watering ==> !t2.filling)
  {
  }

  /** One tick of the fill simulation: two percent more, capped at the target. */
  function FillStep(prev: real, target: int): (r: real)
    ensures r <= target as real
    ensures r == target as real <==> prev + FillStepPercent >= target as real
    ensures r != target as real ==> r == prev + FillStepPercent
  {
    var next := prev + FillStepPercent;
    if next >= target as real then target as real else next
  }

  /** The fill interval's tick: advances the bar and stops the interval once the target is reached. */
  function Tick(g: Garden): (r: Garden)
    ensures !g.filling ==> r == g
    ensures g.filling ==> r.waterAmount == FillStep(g.waterAmount, g.fillTarget)
    ensures g.filling ==> (r.filling <==> r.waterAmount < g.fillTarget as real)
    ensures r.(waterAmount := g.waterAmount, filling := g.filling) == g
  {
    if !g.filling then g
    else
      var next := FillStep(g.waterAmount, g.fillTarget);
      g.(waterAmount := next, filling := next != g.fillTarget as real)
  }

  function Ticks(g: Garden, n: nat): Garden
    decreases n
  {
    if n == 0 then g else Ticks(Tick(g), n - 1)
  }

  lemma {:induction false} TicksWhenStopped(g: Garden, n: nat)
    requires !g.filling
    ensures Ticks(g, n) == g
    decreases n
  {
    if n > 0 {
      TicksWhenStopped(g, n - 1);
    }
  }

  /**
   * A fill that stands at 2m percent below its target reads min(2(m+n), target)
   * after n more ticks, and the interval is running exactly while that is
   * below the target.
   */
  lemma {:induction false} TicksProgress(g: Garden, m: nat, n: nat)
    requires g.filling && g.waterAmount == (2 * m) as real && 2 * m < g.fillTarget
    ensures Ticks(g, n).waterAmount == Backoff.Min(2 * (m + n), g.fillTarget) as real
    ensures Ticks(g, n).filling <==> 2 * (m + n) < g.fillTarget
    decreases n
  {
    if n > 0 {
      var g' := Tick(g);
      if 2 * (m + 1) < g.fillTarget {
        TicksProgress(g', m + 1, n - 1);
      } else {
        TicksWhenStopped(g', n - 1);
      }
    }
  }

  /** After starting a fill with target t, n ticks show min(2n, t) percent. */
  lemma FillFromStart(g: Garden, n: nat)
    requires !g.watering && g.target >= 1
    ensures Ticks(Toggle(g).garden, n).waterAmount == Backoff.Min(2 * n, g.target) as real
    ensures Ticks(Toggle(g).garden, n).filling <==> 2 * n < g.target
  {
    TicksProgress(Toggle(g).garden, 0, n);
  }

  /** User and timer inputs of the view besides the socket. */
  datatype Input =
    | Socket(e: Connection.Event)
    | AutoTimer(now: string)
    | SetWindow(start: string, end: string, now: string)
    | SetTarget(percent: int)
    | Press
    | FillTimer

  /** The slider only produces targets from 1 to 100. */
  predicate ValidInput(i: Input) {
    i.SetTarget? ==> 1 <= i.percent <= 100
  }

  predicate Valid(g: Garden) {
    && Connection.Valid(g.conn)
    && 0.0 <= g.waterAmount <= 100.0
    && 1 <= g.target <= 100
    && 1 <= g.fillTarget <= 100
  }

  /** The view after an input, and whether an exception escaped from the handler. */
  datatype Reaction = Reaction(garden: Garden, escaped: bool)

  /**
   * One input. Changing the window re-runs the auto-watering effect, which
   * checks the window at once. Only a socket construction can throw, and
   * this view does not catch it.
   */
  function Step(g: Garden, i: Input): (r: Reaction)
    ensures r.escaped <==> i.Socket? && Connection.Step(g.conn, i.e, CatchesConstruct).escaped
    ensures r.escaped ==> i.e.Connect? || i.e.TimerFire?
    ensures i.Socket? && !i.e.Message? ==>
      r.garden == g.(conn := Connection.Step(g.conn, i.e, CatchesConstruct).conn)
    ensures !i.Socket? ==> r.garden.conn == g.conn
    ensures i.Socket? && i.e.Message? ==> r.garden == ApplyMessage(g, i.e.msg)
    ensures i.AutoTimer? ==> r.garden == AutoCheck(g, i.now)
    ensures i.SetWindow? ==> r.garden == AutoCheck(g.(autoStart := i.start, autoEnd := i.end), i.now)
    ensures i.SetTarget? ==> r.garden == g.(target := i.percent)
    ensures i.Press? ==> r.garden == Toggle(g).garden
    ensures i.FillTimer? ==> r.garden == Tick(g)
  {
    match i
    case Socket(e) =>
      var o := Connection.Step(g.conn, e, CatchesConstruct);
      var g' := g.(conn := o.conn);
      Reaction(if e.Message? then ApplyMessage(g', e.msg) else g', o.escaped)
    case AutoTimer(now) => Reaction(AutoCheck(g, now), false)
    case SetWindow(start, end, now) => Reaction(AutoCheck(g.(autoStart := start, autoEnd := end), now), false)
    case SetTarget(percent) => Reaction(g.(target := percent), false)
    case Press => Reaction(Toggle(g).garden, false)
    case FillTimer => Reaction(Tick(g), false)
  }

  /**
   * The effect's first `connectWebSocket` is not wrapped in try/catch: a
   * construction error on mount escapes into React.
   */
  lemma MountFailureEscapes()
    ensures Step(Init, Socket(Connection.Connect(false))).escaped
  {
  }

  function Run(g: Garden, ins: seq<Input>): Garden
    decreases |ins|
  {
    if ins == [] then g else Run(Step(g, ins[0]).garden, ins[1..])
  }

  lemma StepPreservesValid(g: Garden, i: Input)
    requires Valid(g) && ValidInput(i)
    ensures Valid(Step(g, i).garden)
  {
    if i.Socket? {
      Connection.StepPreservesValid(g.conn, i.e, CatchesConstruct);
    }
  }

  /**
   * Under any sequence of inputs the view keeps at most one reconnect timer,
   * a bar in [0, 100] and targets in [1, 100].
   */
  lemma {:induction false} RunPreservesValid(g: Garden, ins: seq<Input>)
    requires Valid(g)
    requires forall k :: 0 <= k < |ins| ==> ValidInput(ins[k])
    ensures Valid(Run(g, ins))
    decreases |ins|
  {
    if ins != [] {
      StepPreservesValid(g, ins[0]);
      RunPreservesValid(Step(g, ins[0]).garden, ins[1..]);
    }
  }

  lemma InitValid()
    ensures Valid(Init)
  {
  }
}
