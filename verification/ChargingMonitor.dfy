/** Charging episodes of one car, driven by MQTT receipts and database snapshots in
    database-managed mode. Times are nanoseconds; an absent time is None. */
module ChargingMonitor {
  import opened Wrappers

  type Id = nat

  const SECOND := 1_000_000_000
  const UPDATE_INTERVAL := 45 * SECOND
  const FAST_UPDATE_INTERVAL := 15 * SECOND
  const SAMPLE_MAX_AGE := 180 * SECOND
  const CHECK_MAX_AGE := 60 * SECOND

  /** A primary state as received: charging, another known value, or nothing known. */
  datatype Primary = Charging | Other | Unrecognised

  datatype Kind = Started | Updated | Ended

  /** An event as it is queued. `process` is the database process whose sample it carries. */
  datatype Event = Event(kind: Kind, session: Id, sequence: int, observedAt: int, sampleAt: Option<int>, process: nat)

  datatype Car = Car(
    vehicle: Primary, charge: Primary, battery: bool, range: bool, fast: bool,
    active: bool, session: Id, startDelivered: bool, sequence: int, lastQueued: Option<int>,
    process: nat, processStarted: Option<int>,
    terminalProcess: nat, terminalConfirmedAt: Option<int>,
    mqttTerminalProcess: nat, mqttTerminalAt: Option<int>,
    lastEventSampleAt: Option<int>)

  datatype Baseline = Baseline(
    stateReceived: bool, stateLive: bool, stateLiveAt: Option<int>,
    chargeReceived: bool, chargeLive: bool, chargeLiveAt: Option<int>,
    batteryReceived: bool, rangeReceived: bool,
    liveState: bool, healthy: bool, unhealthy: bool, seenNotCharging: bool)

  datatype Snapshot = Snapshot(process: nat, startedAt: Option<int>, checkedAt: Option<int>, endedAt: Option<int>,
                               lastSampleAt: Option<int>, battery: bool, terminalConfirmedAt: Option<int>)

  datatype Monitor = Monitor(car: Car, baseline: Baseline, observation: Snapshot, pending: bool, databaseError: bool, mqttManaged: bool)

  const NO_CAR := Car(Unrecognised, Unrecognised, false, false, false, false, 0, false, 0, None, 0, None, 0, None, 0, None, None)
  const NO_BASELINE := Baseline(false, false, None, false, false, None, false, false, false, false, false, false)
  const NO_SNAPSHOT := Snapshot(0, None, None, None, None, false, None)

  /** What a step depends on besides the monitor: whether the car is still in the fleet, whether
      the outbox holds a fresh start, and the identifier a new episode would get. */
  datatype Env = Env(eligible: bool, outboxOwnsStart: bool, session: Id)

  // ---------- Reading the evidence ----------

  predicate NotAfter(t: Option<int>, now: int) { t.Some? && t.value <= now }

  predicate Fresh(s: Snapshot, now: int) {
    && s.process > 0 && s.startedAt.Some? && s.endedAt.None?
    && NotAfter(s.lastSampleAt, now) && now - s.lastSampleAt.value <= SAMPLE_MAX_AGE
    && NotAfter(s.checkedAt, now) && now - s.checkedAt.value <= CHECK_MAX_AGE
  }

  predicate After(t: Option<int>, than: int) { t.Some? && t.value > than }

  /** After an MQTT end, the same process needs a later sample and both later live receipts. */
  predicate Resumes(m: Monitor, terminal: Option<int>) {
    && terminal.Some? && After(m.observation.lastSampleAt, terminal.value)
    && m.baseline.stateLive && m.baseline.chargeLive
    && After(m.baseline.stateLiveAt, terminal.value) && After(m.baseline.chargeLiveAt, terminal.value)
    && m.car.vehicle == Charging && m.car.charge == Charging
  }

  /** `car` is the state asked about; the receipts are always the monitor's current ones. */
  predicate Publishable(m: Monitor, car: Car, now: int, requireAdvance: bool) {
    var s := m.observation;
    && (car.active ==> car.process != 0 && car.processStarted.Some? && car.processStarted == s.startedAt)
    && !m.databaseError && Fresh(s, now) && s.battery
    && (car.process != 0 ==> car.process == s.process)
    && (car.terminalProcess != 0 ==> car.terminalProcess != s.process)
    && (car.mqttTerminalProcess == s.process ==> Resumes(m, car.mqttTerminalAt))
    && (requireAdvance && car.lastEventSampleAt.Some? ==> After(s.lastSampleAt, car.lastEventSampleAt.value))
  }

  predicate Ready(m: Monitor) {
    var b := m.baseline;
    && b.stateReceived && b.chargeReceived && b.batteryReceived && b.rangeReceived
    && (m.car.vehicle == Charging <==> m.car.charge == Charging)
    && !b.unhealthy && (b.liveState || b.healthy)
  }

  // ---------- Events ----------

  function WholeSecond(t: int): int { t / SECOND * SECOND }

  /** The next event of the car's episode, and the car with its sequence and stamps advanced. */
  function Made(sample: Snapshot, car: Car, kind: Kind, at: int): (Car, Event) {
    var numbered := car.(sequence := car.sequence + 1, lastQueued := Some(WholeSecond(at)));
    if kind != Ended && sample.lastSampleAt.Some? then
      (numbered.(lastEventSampleAt := sample.lastSampleAt),
       Event(kind, car.session, car.sequence + 1, sample.lastSampleAt.value, sample.lastSampleAt, sample.process))
    else (numbered, Event(kind, car.session, car.sequence + 1, at, None, sample.process))
  }

  /** A new episode bound to the observed process. */
  function Begun(m: Monitor, at: int, session: Id): (Car, Event) {
    var car := m.car.(process := m.observation.process, processStarted := m.observation.startedAt, terminalConfirmedAt := None,
                      lastEventSampleAt := None, mqttTerminalProcess := 0, mqttTerminalAt := None, active := true,
                      session := session, sequence := 0, startDelivered := false, lastQueued := None);
    Made(m.observation, car, Started, at)
  }

  function Interval(car: Car): int { if car.fast then FAST_UPDATE_INTERVAL else UPDATE_INTERVAL }

  /** An update at once when one is due, otherwise a timer. */
  function Scheduled(m: Monitor, at: int): (Monitor, seq<Event>) {
    var car := m.car;
    if (m.mqttManaged && !Ready(m)) || !car.startDelivered || car.session == 0 || !car.battery || !Publishable(m, car, at, true) then (m, [])
    else if car.lastQueued.None? || at - car.lastQueued.value >= Interval(car) then
      var (car', event) := Made(m.observation, car, Updated, at);
      (m.(car := car'), [event])
    else (m.(pending := true), [])
  }

  /** The retried start, while the outbox holds none. */
  function Restarted(m: Monitor, at: int, env: Env): (Monitor, seq<Event>) {
    var car := m.car;
    if !Publishable(m, car, at, false) || env.outboxOwnsStart then (m, [])
    else if car.lastQueued.None? || at - car.lastQueued.value >= UPDATE_INTERVAL then
      var (car', event) := Made(m.observation, car, Started, at);
      (m.(car := car'), [event])
    else (m, [])
  }

  predicate IsCharging(car: Car) { car.vehicle == Charging || car.charge == Charging }

  /** A start needs evidence as if no process were bound yet. */
  predicate Startable(m: Monitor, at: int) {
    var car := m.car;
    Publishable(m, NO_CAR.(terminalProcess := car.terminalProcess, mqttTerminalProcess := car.mqttTerminalProcess,
                           mqttTerminalAt := car.mqttTerminalAt), at, false)
  }

  function Reconciled(m: Monitor, at: int, allowTerminal: bool, env: Env): (Monitor, seq<Event>) {
    var car := m.car;
    if !env.eligible then (m, [])
    else if IsCharging(car) && !car.active && car.battery && car.range then
      if !Startable(m, at) then (m, [])
      else
        var (car', event) := Begun(m, at, env.session);
        (m.(car := car'), [event])
    else if !IsCharging(car) && car.active then
      if !allowTerminal || (m.mqttManaged && (!m.baseline.stateLive || !m.baseline.chargeLive)) then (m, [])
      else
        var over := car.(active := false, mqttTerminalProcess := car.process, mqttTerminalAt := Some(at));
        var (car', event) := Made(m.observation, over, Ended, at);
        (m.(car := car', pending := false), [event])
    else if car.active then
      if car.startDelivered then Scheduled(m, at) else Restarted(m, at, env)
    else (m, [])
  }

  // ---------- MQTT ----------

  datatype Field =
    | DisplayName
    | VehicleState(vehicle: Primary)
    | ChargingState(charge: Primary)
    | BatteryLevel(known: bool)
    | RatedRange(known: bool)
    | ChargerPower(fast: bool)
    | OtherReading
    | Healthy(ok: bool)
    | NotSubscribed

  function ReadCar(car: Car, field: Field): Car {
    match field
    case VehicleState(v) => car.(vehicle := v)
    case ChargingState(c) => car.(charge := c)
    case BatteryLevel(known) => car.(battery := known)
    case RatedRange(known) => car.(range := known)
    case ChargerPower(fast) => car.(fast := fast)
    case _ => car
  }

  function ReadBaseline(b: Baseline, field: Field, at: int, retained: bool): Baseline {
    match field
    case VehicleState(v) =>
      var known := v != Unrecognised;
      b.(stateReceived := known, liveState := !retained && known, stateLive := !retained && known,
         stateLiveAt := if !retained && known then Some(at) else b.stateLiveAt)
    case ChargingState(c) =>
      var known := c != Unrecognised;
      b.(chargeReceived := known, chargeLive := !retained && known,
         chargeLiveAt := if !retained && known then Some(at) else b.chargeLiveAt,
         liveState := if !retained then known else b.liveState)
    case BatteryLevel(known) => b.(batteryReceived := known)
    case RatedRange(known) => b.(rangeReceived := known)
    case Healthy(ok) => b.(healthy := !retained && ok, unhealthy := !ok)
    case _ => b
  }

  /** The receipt as such, before anything is concluded from it. */
  function Received(m: Monitor, field: Field, at: int, retained: bool): Monitor {
    m.(car := ReadCar(m.car, field), baseline := ReadBaseline(m.baseline, field, at, retained))
  }

  function SeenIdle(m: Monitor): Monitor {
    if m.baseline.stateReceived && m.baseline.chargeReceived && !IsCharging(m.car)
    then m.(baseline := m.baseline.(seenNotCharging := true)) else m
  }

  predicate IsPrimary(field: Field) { field.VehicleState? || field.ChargingState? }

  function Messaged(m: Monitor, field: Field, at: int, retained: bool, env: Env): (Monitor, seq<Event>) {
    var managed := m.(mqttManaged := true);
    if field.NotSubscribed? then (managed, [])
    else
      var noted := SeenIdle(Received(managed, field, at, retained));
      var terminal := !retained && m.car.active && IsPrimary(field) && noted.baseline.stateReceived && noted.baseline.chargeReceived
                      && !IsCharging(noted.car);
      if (retained || !Ready(noted)) && !terminal then (noted, [])
      else Reconciled(noted, at, !retained && IsPrimary(field), env)
  }

  /** Connection lost, replaced or stopped. */
  function BaselineReset(m: Monitor): Monitor { m.(mqttManaged := true, baseline := NO_BASELINE, pending := false) }

  // ---------- Database ----------

  predicate SameProcess(a: Snapshot, b: Snapshot) { a.process == b.process && a.startedAt == b.startedAt }

  predicate BoundTo(car: Car, s: Snapshot) {
    s.process > 0 && car.process == s.process && car.processStarted.Some? && car.processStarted == s.startedAt
  }

  /** A delayed open snapshot does not undo a known end; an end keeps its first confirmation. */
  function Settled(m: Monitor, s: Snapshot): Snapshot {
    var before := m.observation;
    var kept := if SameProcess(before, s) && before.endedAt.Some? && s.endedAt.None? then before.(checkedAt := s.checkedAt) else s;
    if kept.endedAt.None? then kept
    else if SameProcess(before, kept) && before.terminalConfirmedAt.Some? then kept.(terminalConfirmedAt := before.terminalConfirmedAt)
    else if m.car.process == kept.process && m.car.processStarted == kept.startedAt && m.car.terminalConfirmedAt.Some?
            && kept.checkedAt.Some? && m.car.terminalConfirmedAt.value <= kept.checkedAt.value
    then kept.(terminalConfirmedAt := m.car.terminalConfirmedAt)
    else kept.(terminalConfirmedAt := kept.checkedAt)
  }

  predicate Outdated(m: Monitor, s: Snapshot) {
    m.observation.checkedAt.Some? && (s.checkedAt.None? || s.checkedAt.value < m.observation.checkedAt.value)
  }

  /** The end of the bound process. */
  function ProcessEnded(m: Monitor, s: Snapshot, at: int): (Monitor, seq<Event>) {
    var car := m.car.(terminalProcess := s.process, terminalConfirmedAt := s.terminalConfirmedAt);
    if !car.active then (m.(car := car), [])
    else
      var (car', event) := Made(m.observation, car.(active := false), Ended, at);
      (m.(car := car', pending := false), [event.(observedAt := if s.endedAt.Some? then s.endedAt.value else at)])
  }

  /** A snapshot that was read without error; `s.checkedAt` is when the read was completed. */
  function Snapped(m: Monitor, s: Snapshot, env: Env): (Monitor, seq<Event>) {
    if Outdated(m, s) || s.checkedAt.None? then (m, [])
    else
      var at := s.checkedAt.value;
      var kept := Settled(m, s);
      var m1 := m.(observation := kept);
      var (m2, events) := if BoundTo(m.car, kept) && kept.endedAt.Some? then ProcessEnded(m1, kept, at) else (m1, []);
      if events == [] && kept.endedAt.None? && Fresh(kept, at) && m.mqttManaged && Ready(m2) then Reconciled(m2, at, false, env)
      else (m2, events)
  }

  // ---------- Timers, deliveries, replay and fleet ----------

  /** A timer may still fire after it has been stopped. */
  function Flushed(m: Monitor, check: int, at: int): (Monitor, seq<Event>) {
    var m1 := m.(pending := false);
    if !m.car.active || !m.car.startDelivered || !m.car.battery || !Publishable(m1, m.car, check, true) || (m.mqttManaged && !Ready(m1))
    then (m1, [])
    else
      var (car', event) := Made(m1.observation, m.car, Updated, at);
      (m1.(car := car'), [event])
  }

  /** The start of this episode has been delivered, by the worker or, where the start was not
      yet known to be delivered, by the outbox. */
  function StartAcknowledged(m: Monitor, session: Id, byOutbox: bool, at: int): (Monitor, seq<Event>) {
    if !m.car.active || m.car.session != session || session == 0 || (byOutbox && m.car.startDelivered) then (m, [])
    else Scheduled(m.(car := m.car.(startDelivered := true, lastQueued := None)), at)
  }

  /** An installation that has just enabled the cards is sent the running start again. */
  function Replayed(m: Monitor, at: int): (Monitor, seq<Event>) {
    if (m.mqttManaged && !Ready(m)) || !m.car.active || m.car.session == 0 || !m.car.battery || !Publishable(m, m.car, at, false) then (m, [])
    else
      var (car', event) := Made(m.observation, m.car, Started, at);
      (m.(car := car'), [event])
  }

  /** The end of whatever episode is running when the car goes. */
  function Farewell(car: Car, at: int): seq<Event> {
    if car.active && car.session != 0 then [Made(NO_SNAPSHOT, car, Ended, at).1] else []
  }

  /** The car has left the fleet. */
  function Removed(m: Monitor, at: int): (Monitor, seq<Event>) {
    (m.(car := NO_CAR, baseline := NO_BASELINE, observation := NO_SNAPSHOT, pending := false), Farewell(m.car, at))
  }

  /** Cars going one after another, each at its own time. */
  function Farewells(cars: map<Id, Car>, order: seq<Id>, at: Id -> int): seq<Event> {
    if order == [] then []
    else
      var last := order[|order| - 1];
      Farewells(cars, order[..|order| - 1], at) + if last in cars then Farewell(cars[last], at(last)) else []
  }

  // ---------- Steps ----------

  datatype Step =
    | Message(field: Field, at: int, retained: bool, env: Env)
    | Reset
    | Read(ok: bool)
    | Snap(snapshot: Snapshot, env: Env)
    | Flush(check: int, at: int)
    | Acknowledge(session: Id, byOutbox: bool, at: int)
    | Replay(at: int)
    | Remove(at: int)

  function Stepped(m: Monitor, step: Step): (Monitor, seq<Event>) {
    match step
    case Message(field, at, retained, env) => Messaged(m, field, at, retained, env)
    case Reset => (BaselineReset(m), [])
    case Read(ok) => (m.(databaseError := !ok), [])
    case Snap(snapshot, env) => Snapped(m, snapshot, env)
    case Flush(check, at) => Flushed(m, check, at)
    case Acknowledge(session, byOutbox, at) => StartAcknowledged(m, session, byOutbox, at)
    case Replay(at) => Replayed(m, at)
    case Remove(at) => Removed(m, at)
  }
}
