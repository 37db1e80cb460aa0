/**
 * The two tank gauges: the tank view (construction wrapped in try/catch,
 * 7000 ml, starts empty) and the prototype tank (no try/catch, 5000 ml,
 * starts full). Each is the reconnecting client plus a cached level.
 */
module TankView {
  import opened Readings
  import Connection
  import Backoff
  import Wrappers

  /** What differs between the two copies of the gauge. */
  datatype Profile = Profile(catchesConstruct: bool, capacityMl: real, initialLevel: real)

  const WaterTank: Profile := Profile(true, 7000.0, 0.0)
  const PrototypeTank: Profile := Profile(false, 5000.0, 100.0)

  datatype Tank = Tank(conn: Connection.Conn, level: real)

  function Init(p: Profile): Tank {
    Tank(Connection.Initial, p.initialLevel)
  }

  /** The invariant of a running gauge: the client's timer invariant and a level in [0, 100]. */
  predicate Valid(t: Tank) {
    Connection.Valid(t.conn) && 0.0 <= t.level <= 100.0
  }

  /** The gauge after an event, and whether an exception escaped from the handler. */
  datatype Stepped = Stepped(tank: Tank, escaped: bool)

  /**
   * One event: connection events drive the client, messages update the
   * cached level. A construction error escapes only from a gauge that does
   * not catch it.
   */
  function Step(p: Profile, t: Tank, e: Connection.Event): (r: Stepped)
    ensures r.tank.conn == Connection.Step(t.conn, e, p.catchesConstruct).conn
    ensures r.escaped == Connection.Step(t.conn, e, p.catchesConstruct).escaped
    ensures p.catchesConstruct ==> !r.escaped
    ensures r.escaped ==> e.Connect? || e.TimerFire?
    ensures !e.Message? ==> r.tank.level == t.level
    ensures e.Message? ==> r.tank.level == ApplyAmount(t.level, e.msg)
  {
    var o := Connection.Step(t.conn, e, p.catchesConstruct);
    Stepped(Tank(o.conn, if e.Message? then ApplyAmount(t.level, e.msg) else t.level), o.escaped)
  }

  /** The gauge after a sequence of events; after an escaped error the state is as the handler left it. */
  function Run(p: Profile, t: Tank, es: seq<Connection.Event>): Tank
    decreases |es|
  {
    if es == [] then t else Run(p, Step(p, t, es[0]).tank, es[1..])
  }

  /** Whether some handler in the sequence let an exception escape. */
  predicate RunEscapes(p: Profile, t: Tank, es: seq<Connection.Event>)
    decreases |es|
  {
    es != [] && (Step(p, t, es[0]).escaped || RunEscapes(p, Step(p, t, es[0]).tank, es[1..]))
  }

  /** The tank view never lets an exception out, whatever events arrive. */
  lemma {:induction false} WaterTankNeverEscapes(t: Tank, es: seq<Connection.Event>)
    ensures !RunEscapes(WaterTank, t, es)
    decreases |es|
  {
    if es != [] {
      WaterTankNeverEscapes(Step(WaterTank, t, es[0]).tank, es[1..]);
    }
  }

  /**
   * The prototype's first `connectWebSocket`, run by the effect on mount,
   * lets a construction error escape into React.
   */
  lemma PrototypeMountFailureEscapes()
    ensures RunEscapes(PrototypeTank, Init(PrototypeTank), [Connection.Connect(false)])
  {
  }

  /**
   * The status badge, as the level classifies it. The views store the badge
   * in state that an effect sets after each level change; here it is
   * derived from the level directly.
   */
  function Status(t: Tank): TankStatus {
    ClassifyLevel(t.level)
  }

  /** Both gauges start in a valid state. */
  lemma InitValid(p: Profile)
    requires p == WaterTank || p == PrototypeTank
    ensures Valid(Init(p))
  {
  }

  /**
   * The prototype's initial 100 percent classifies as full and the tank
   * view's initial 0 percent as low: the values the mount effect sets.
   */
  lemma InitialStatus()
    ensures Status(Init(PrototypeTank)) == Full
    ensures Status(Init(WaterTank)) == Low
  {
  }

  /** Every event keeps the gauge valid. */
  lemma StepPreservesValid(p: Profile, t: Tank, e: Connection.Event)
    requires Valid(t)
    ensures Valid(Step(p, t, e).tank)
  {
    Connection.StepPreservesValid(t.conn, e, p.catchesConstruct);
  }

  /** Any sequence of events keeps the gauge valid: one timer at most and a level in range. */
  lemma {:induction false} RunPreservesValid(p: Profile, t: Tank, es: seq<Connection.Event>)
    requires Valid(t)
    ensures Valid(Run(p, t, es))
    decreases |es|
  {
    if es != [] {
      StepPreservesValid(p, t, es[0]);
      RunPreservesValid(p, Step(p, t, es[0]).tank, es[1..]);
    }
  }

  /** The full-tank volumes: 7 litres for the tank view and 5000 ml for the prototype. */
  lemma FullTankVolumes()
    ensures Litres(100.0, WaterTank.capacityMl) == 7.0
    ensures Millilitres(100.0, PrototypeTank.capacityMl) == 5000.0
    ensures Litres(0.0, WaterTank.capacityMl) == 0.0
  {
  }

  /**
   * Construction fails twice, succeeds on the third attempt, the socket
   * opens and a reading of 73.2 arrives: the retry counter goes 0, 1, 2,
   * resets to 0 on open, and the level becomes 73.2, shown as normal.
   */
  lemma RecoveryScenario()
    ensures var t0 := Init(WaterTank);
      var t1 := Step(WaterTank, t0, Connection.Connect(false)).tank;
      var t2 := Step(WaterTank, t1, Connection.TimerFire(false)).tank;
      var t3 := Step(WaterTank, t2, Connection.TimerFire(true)).tank;
      var t4 := Step(WaterTank, t3, Connection.Event.Open).tank;
      var msg := Decoded(Fields(Wrappers.Some(73.2), Wrappers.None, Wrappers.None, Wrappers.None, Wrappers.None));
      var t5 := Step(WaterTank, t4, Connection.Message(msg)).tank;
      t1.conn.retry == 0 && t1.conn.liveTimers == 1 && t1.conn.delay == 1000 &&
      t2.conn.retry == 1 && t2.conn.liveTimers == 1 && t2.conn.delay == 2000 &&
      t3.conn.retry == 2 && t3.conn.liveTimers == 0 && t3.conn.socket == Connection.Connecting &&
      t4.conn.retry == 0 && t4.conn.socket == Connection.Ready.Open &&
      t5.level == 73.2 && Status(t5) == Normal
  {
    Backoff.DelaySchedule();
  }
}
