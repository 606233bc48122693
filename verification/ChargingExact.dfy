/** When the charging monitor creates a start, an update or an end, when it sets a timer, and what
    evidence it takes, in numbers. Times are nanoseconds. */
module ChargingExact {
  import opened Wrappers
  import opened ChargingMonitor
  import D = ChargingDelivery

  // ---------- Evidence ----------

  /** Between `t` and now lie no more than so many seconds. */
  predicate Within(t: Option<int>, now: int, seconds: int) { t.Some? && t.value <= now <= t.value + seconds * 1_000_000_000 }

  /** A running process of a known start, sampled in the last three minutes and checked in the last one. */
  predicate Seen(s: Snapshot, now: int) {
    s.process > 0 && s.startedAt.Some? && s.endedAt.None? && Within(s.lastSampleAt, now, 180) && Within(s.checkedAt, now, 60)
  }

  predicate Later(t: Option<int>, than: Option<int>) { t.Some? && than.Some? && t.value > than.value }

  /** Evidence that charging went on after an end that MQTT reported: a later sample, and both
      primary topics live, later, and charging. */
  predicate GoesOn(m: Monitor, ended: Option<int>) {
    && Later(m.observation.lastSampleAt, ended)
    && m.baseline.stateLive && Later(m.baseline.stateLiveAt, ended) && m.car.vehicle == Charging
    && m.baseline.chargeLive && Later(m.baseline.chargeLiveAt, ended) && m.car.charge == Charging
  }

  /** What may be shown of a car: a process seen now, with its battery, that is the one bound, if one
      is, and has not ended. */
  predicate Shown(m: Monitor, car: Car, now: int) {
    var s := m.observation;
    && !m.databaseError && Seen(s, now) && s.battery
    && (car.process == 0 || car.process == s.process) && (car.active ==> car.process == s.process && car.processStarted == s.startedAt)
    && car.terminalProcess != s.process && (car.mqttTerminalProcess == s.process ==> GoesOn(m, car.mqttTerminalAt))
  }

  lemma PublishableExactly(m: Monitor, car: Car, now: int, requireAdvance: bool)
    ensures Publishable(m, car, now, requireAdvance)
            <==> Shown(m, car, now)
                 && (requireAdvance && car.lastEventSampleAt.Some? ==> Later(m.observation.lastSampleAt, car.lastEventSampleAt))
  {
  }

  /** All four baselines received, the two primary states not contradicting each other, and the
      companion alive. */
  predicate Awake(m: Monitor) {
    var b := m.baseline;
    && b.stateReceived && b.chargeReceived && b.batteryReceived && b.rangeReceived && !b.unhealthy && (b.liveState || b.healthy)
    && !(m.car.vehicle == Charging && m.car.charge != Charging) && !(m.car.vehicle != Charging && m.car.charge == Charging)
  }

  lemma ReadyExactly(m: Monitor)
    ensures Ready(m) <==> Awake(m)
  {
  }

  // ---------- Events ----------

  /** The seconds of a time, without their fraction, for times since the epoch. */
  predicate Second(stored: Option<int>, at: int) { stored.Some? && stored.value % 1_000_000_000 == 0 && stored.value <= at < stored.value + 1_000_000_000 }

  /** The next event of the episode, stamped with the sample it shows; an end with the time it is
      noticed. */
  predicate IsEvent(e: Event, kind: Kind, m: Monitor, before: Car, at: int) {
    && e.kind == kind && e.session == before.session && e.sequence == before.sequence + 1 && e.process == m.observation.process
    && (if kind != Ended && m.observation.lastSampleAt.Some?
        then e.sampleAt == m.observation.lastSampleAt && e.observedAt == m.observation.lastSampleAt.value
        else e.sampleAt.None? && e.observedAt == at)
  }

  /** The car has counted the event and remembers when it was queued and what it showed. */
  predicate HasCounted(before: Car, after: Car, kind: Kind, m: Monitor, at: int) {
    && after.sequence == before.sequence + 1 && Second(after.lastQueued, at)
    && after == before.(sequence := after.sequence, lastQueued := after.lastQueued, lastEventSampleAt := after.lastEventSampleAt)
    && after.lastEventSampleAt == (if kind != Ended && m.observation.lastSampleAt.Some? then m.observation.lastSampleAt else before.lastEventSampleAt)
  }

  lemma MadeExactly(m: Monitor, car: Car, kind: Kind, at: int)
    ensures var (car', e) := Made(m.observation, car, kind, at); IsEvent(e, kind, m, car, at) && HasCounted(car, car', kind, m, at)
  {
    assert at / SECOND * SECOND == at - at % SECOND;
  }

  /** One event, and nothing changed but the car that counts it. */
  predicate Emits(m: Monitor, m': Monitor, events: seq<Event>, kind: Kind, before: Car, at: int) {
    |events| == 1 && IsEvent(events[0], kind, m, before, at) && HasCounted(before, m'.car, kind, m, at)
  }

  // ---------- Updates ----------

  /** An update may be shown: the start has been delivered, and there is a sample later than the
      last one shown. */
  predicate HasNews(m: Monitor, now: int) {
    && m.car.startDelivered && m.car.battery && Shown(m, m.car, now) && (m.mqttManaged ==> Awake(m))
    && (m.car.lastEventSampleAt.Some? ==> Later(m.observation.lastSampleAt, m.car.lastEventSampleAt))
  }

  /** Nothing was queued yet, or forty-five seconds ago, or fifteen when charging fast. */
  predicate Due(car: Car, at: int) {
    car.lastQueued.None? || at >= car.lastQueued.value + (if car.fast then 15_000_000_000 else 45_000_000_000)
  }

  /** Main result on updates: with news, one update is queued at once if it is due, else a timer is
      left; without news, nothing happens. */
  lemma SchedulingExactly(m: Monitor, at: int)
    ensures var (m', events) := Scheduled(m, at);
            && (HasNews(m, at) && m.car.session != 0 && Due(m.car, at) ==>
                  Emits(m, m', events, Updated, m.car, at) && m' == m.(car := m'.car))
            && (HasNews(m, at) && m.car.session != 0 && !Due(m.car, at) ==> events == [] && m' == m.(pending := true))
            && (!HasNews(m, at) || m.car.session == 0 ==> events == [] && m' == m)
  {
    PublishableExactly(m, m.car, at, true);
    ReadyExactly(m);
    MadeExactly(m, m.car, Updated, at);
    hide Publishable, Shown, Ready, Awake, Made, IsEvent, HasCounted;
  }

  /** A timer that fires under the same evidence queues one update, due or not. */
  lemma FlushingExactly(m: Monitor, check: int, at: int)
    ensures var (m', events) := Flushed(m, check, at);
            && (m.car.active && HasNews(m, check) ==> Emits(m, m', events, Updated, m.car, at))
            && (!(m.car.active && HasNews(m, check)) ==> events == [] && m'.car == m.car)
            && m' == m.(pending := false, car := m'.car)
  {
    var m1 := m.(pending := false);
    PublishableExactly(m1, m.car, check, true);
    ReadyExactly(m1);
    ShownAlike(m, check);
    MadeExactly(m1, m.car, Updated, at);
    hide Publishable, Shown, Ready, Awake, Made;
  }

  lemma ShownAlike(m: Monitor, now: int)
    ensures var m1 := m.(pending := false); (Shown(m1, m.car, now) <==> Shown(m, m.car, now)) && (Awake(m1) <==> Awake(m))
  {
  }

  // ---------- Starts and ends ----------

  predicate Charges(car: Car) { car.vehicle == Charging || car.charge == Charging }

  /** A new episode may begin: either primary topic says so, battery and range are known, and the
      process may be shown although none is bound. */
  predicate MayBegin(m: Monitor, at: int) {
    && Charges(m.car) && !m.car.active && m.car.battery && m.car.range
    && !m.databaseError && Seen(m.observation, at) && m.observation.battery && m.car.terminalProcess != m.observation.process
    && (m.car.mqttTerminalProcess == m.observation.process ==> GoesOn(m, m.car.mqttTerminalAt))
  }

  /** The running episode ends by MQTT: neither topic says charging any more, both live. */
  predicate MayEnd(m: Monitor, allowTerminal: bool) {
    !Charges(m.car) && m.car.active && allowTerminal && (m.mqttManaged ==> m.baseline.stateLive && m.baseline.chargeLive)
  }

  /** The start is tried again: not delivered, not in the outbox, and not queued for forty-five seconds. */
  predicate MayRetry(m: Monitor, at: int, env: Env) {
    && Charges(m.car) && m.car.active && !m.car.startDelivered && Shown(m, m.car, at) && !env.outboxOwnsStart
    && (m.car.lastQueued.None? || at >= m.car.lastQueued.value + 45_000_000_000)
  }

  /** Bound to the observed process, under a new identifier, with nothing shown yet. */
  predicate IsBegun(m: Monitor, car: Car, session: Id) {
    car == m.car.(process := m.observation.process, processStarted := m.observation.startedAt, terminalConfirmedAt := None,
                  lastEventSampleAt := None, mqttTerminalProcess := 0, mqttTerminalAt := None, active := true, session := session,
                  sequence := 0, startDelivered := false, lastQueued := None)
  }

  lemma BeginningExactly(m: Monitor, at: int, session: Id)
    ensures exists car :: IsBegun(m, car, session) && IsEvent(Begun(m, at, session).1, Started, m, car, at)
                          && HasCounted(car, Begun(m, at, session).0, Started, m, at)
  {
    var car := m.car.(process := m.observation.process, processStarted := m.observation.startedAt, terminalConfirmedAt := None,
                      lastEventSampleAt := None, mqttTerminalProcess := 0, mqttTerminalAt := None, active := true, session := session,
                      sequence := 0, startDelivered := false, lastQueued := None);
    MadeExactly(m, car, Started, at);
    hide Made, IsEvent, HasCounted;
    assert IsBegun(m, car, session);
  }

  lemma StartableExactly(m: Monitor, at: int)
    ensures Charges(m.car) && !m.car.active && m.car.battery && m.car.range ==> (Startable(m, at) <==> MayBegin(m, at))
  {
    PublishableExactly(m, NO_CAR.(terminalProcess := m.car.terminalProcess, mqttTerminalProcess := m.car.mqttTerminalProcess,
                                  mqttTerminalAt := m.car.mqttTerminalAt), at, false);
    hide Publishable, Seen, GoesOn;
    assert Seen(m.observation, at) ==> m.observation.process > 0 by { SeenIsKnown(m.observation, at); }
  }

  lemma SeenIsKnown(s: Snapshot, now: int)
    ensures Seen(s, now) ==> s.process > 0
  {
  }

  /** Main result on the common rules: of a car in the fleet, exactly one of a start, an end, a
      retried start or an update follows, when its evidence is there, and else nothing. */
  lemma ReconcilingExactly(m: Monitor, at: int, allowTerminal: bool, env: Env)
    ensures var (m', events) := Reconciled(m, at, allowTerminal, env);
            && (env.eligible && MayBegin(m, at) ==>
                  && (m', events) == (m.(car := Begun(m, at, env.session).0), [Begun(m, at, env.session).1]))
            && (env.eligible && MayEnd(m, allowTerminal) ==>
                  && Emits(m, m', events, Ended, m.car.(active := false, mqttTerminalProcess := m.car.process, mqttTerminalAt := Some(at)), at)
                  && m' == m.(car := m'.car, pending := false))
            && (env.eligible && MayRetry(m, at, env) ==> Emits(m, m', events, Started, m.car, at) && m' == m.(car := m'.car))
            && (env.eligible && Charges(m.car) && m.car.active && m.car.startDelivered ==> (m', events) == Scheduled(m, at))
            && (!env.eligible
                || !(MayBegin(m, at) || MayEnd(m, allowTerminal) || MayRetry(m, at, env) || (Charges(m.car) && m.car.active && m.car.startDelivered)) ==>
                  m' == m && events == [])
  {
    StartableExactly(m, at);
    PublishableExactly(m, m.car, at, false);
    MadeExactly(m, m.car, Started, at);
    MadeExactly(m, m.car.(active := false, mqttTerminalProcess := m.car.process, mqttTerminalAt := Some(at)), Ended, at);
    hide Publishable, Shown, Startable, Begun, Made, IsEvent, HasCounted, Scheduled, Seen, GoesOn;
  }

  // ---------- Receipts ----------

  /** What each topic says of the car. */
  predicate Reads(before: Car, field: Field, after: Car) {
    after == before.(vehicle := if field.VehicleState? then field.vehicle else before.vehicle,
                     charge := if field.ChargingState? then field.charge else before.charge,
                     battery := if field.BatteryLevel? then field.known else before.battery,
                     range := if field.RatedRange? then field.known else before.range,
                     fast := if field.ChargerPower? then field.fast else before.fast)
  }

  /** What a receipt says about the connection: a primary topic counts when its value is known, as
      live when it is not retained, and keeps the time of its last live receipt. */
  predicate Counts(before: Baseline, field: Field, at: int, retained: bool, after: Baseline) {
    CountsState(before, field, at, retained, after) && CountsCharge(before, field, at, retained, after) && CountsRest(before, field, retained, after)
  }

  predicate CountsState(before: Baseline, field: Field, at: int, retained: bool, after: Baseline) {
    if field.VehicleState? then
      var known := field.vehicle != Unrecognised;
      && after.stateReceived == known && after.stateLive == (known && !retained)
      && after.stateLiveAt == (if known && !retained then Some(at) else before.stateLiveAt)
    else
      after.stateReceived == before.stateReceived && after.stateLive == before.stateLive && after.stateLiveAt == before.stateLiveAt
  }

  predicate CountsCharge(before: Baseline, field: Field, at: int, retained: bool, after: Baseline) {
    if field.ChargingState? then
      var known := field.charge != Unrecognised;
      && after.chargeReceived == known && after.chargeLive == (known && !retained)
      && after.chargeLiveAt == (if known && !retained then Some(at) else before.chargeLiveAt)
    else
      after.chargeReceived == before.chargeReceived && after.chargeLive == before.chargeLive && after.chargeLiveAt == before.chargeLiveAt
  }

  predicate CountsRest(before: Baseline, field: Field, retained: bool, after: Baseline) {
    && after.liveState == (match field
                           case VehicleState(v) => v != Unrecognised && !retained
                           case ChargingState(c) => if retained then before.liveState else c != Unrecognised
                           case _ => before.liveState)
    && after.batteryReceived == (if field.BatteryLevel? then field.known else before.batteryReceived)
    && after.rangeReceived == (if field.RatedRange? then field.known else before.rangeReceived)
    && after.healthy == (if field.Healthy? then field.ok && !retained else before.healthy)
    && after.unhealthy == (if field.Healthy? then !field.ok else before.unhealthy)
  }

  /** A receipt is read, and then the common rules follow if the car is ready or, live, if it tells
      the end of a running episode; only a live primary topic may tell an end. */
  lemma MessagingExactly(m: Monitor, field: Field, at: int, retained: bool, env: Env) returns (noted: Monitor)
    ensures Reads(m.car, field, noted.car) && noted == m.(mqttManaged := true, car := noted.car, baseline := noted.baseline)
    ensures Counts(m.baseline, field, at, retained, noted.baseline) && Notices(m, field, noted)
    ensures Messaged(m, field, at, retained, env)
            == if !field.NotSubscribed? && !retained && (Awake(noted) || Tells(m, field, noted))
               then Reconciled(noted, at, field.VehicleState? || field.ChargingState?, env) else (noted, [])
  {
    hide Messaged, Received, Counts, Reads, Tells, Awake, Reconciled;
    noted := if field.NotSubscribed? then m.(mqttManaged := true) else SeenIdle(Received(m.(mqttManaged := true), field, at, retained));
    ReadingExactly(m, field, at, retained);
    CountingExactly(m, field, at, retained);
    AnsweringExactly(m, field, at, retained, env, noted);
  }

  /** Neither topic of a running episode says charging any more. */
  predicate Tells(m: Monitor, field: Field, noted: Monitor) {
    && m.car.active && (field.VehicleState? || field.ChargingState?)
    && noted.baseline.stateReceived && noted.baseline.chargeReceived && !Charges(noted.car)
  }

  /** That the car has been seen not charging, once both primary topics are known. */
  predicate Notices(m: Monitor, field: Field, noted: Monitor) {
    noted.baseline.seenNotCharging
    == (m.baseline.seenNotCharging
        || (!field.NotSubscribed? && noted.baseline.stateReceived && noted.baseline.chargeReceived && !Charges(noted.car)))
  }

  lemma ReadingExactly(m: Monitor, field: Field, at: int, retained: bool)
    ensures var read := Received(m.(mqttManaged := true), field, at, retained);
            && Reads(m.car, field, read.car) && read == m.(mqttManaged := true, car := read.car, baseline := read.baseline)
            && read.baseline.seenNotCharging == m.baseline.seenNotCharging
            && (field.NotSubscribed? ==> read == m.(mqttManaged := true))
  {
  }

  lemma CountingExactly(m: Monitor, field: Field, at: int, retained: bool)
    ensures var read := Received(m.(mqttManaged := true), field, at, retained);
            Counts(m.baseline, field, at, retained, read.baseline) && Counts(m.baseline, field, at, retained, SeenIdle(read).baseline)
  {
    hide Counts, ReadBaseline;
    var b := ReadBaseline(m.baseline, field, at, retained);
    CountedExactly(m.baseline, field, at, retained);
    CountsAlike(m.baseline, field, at, retained, b, b.(seenNotCharging := true));
  }

  lemma CountedExactly(b: Baseline, field: Field, at: int, retained: bool)
    ensures Counts(b, field, at, retained, ReadBaseline(b, field, at, retained))
  {
    StateCountedExactly(b, field, at, retained);
    ChargeCountedExactly(b, field, at, retained);
    RestCountedExactly(b, field, at, retained);
    hide CountsState, CountsCharge, CountsRest, ReadBaseline;
  }

  lemma StateCountedExactly(b: Baseline, field: Field, at: int, retained: bool)
    ensures CountsState(b, field, at, retained, ReadBaseline(b, field, at, retained))
  {
  }

  lemma ChargeCountedExactly(b: Baseline, field: Field, at: int, retained: bool)
    ensures CountsCharge(b, field, at, retained, ReadBaseline(b, field, at, retained))
  {
  }

  lemma RestCountedExactly(b: Baseline, field: Field, at: int, retained: bool)
    ensures CountsRest(b, field, retained, ReadBaseline(b, field, at, retained))
  {
  }

  lemma CountsAlike(b: Baseline, field: Field, at: int, retained: bool, after: Baseline, after': Baseline)
    requires Counts(b, field, at, retained, after) && after' == after.(seenNotCharging := after'.seenNotCharging)
    ensures Counts(b, field, at, retained, after')
  {
  }

  lemma AnsweringExactly(m: Monitor, field: Field, at: int, retained: bool, env: Env, noted: Monitor)
    requires !field.NotSubscribed? ==> noted == SeenIdle(Received(m.(mqttManaged := true), field, at, retained))
    requires field.NotSubscribed? ==> noted == m.(mqttManaged := true)
    ensures Messaged(m, field, at, retained, env)
            == if !field.NotSubscribed? && !retained && (Awake(noted) || Tells(m, field, noted))
               then Reconciled(noted, at, field.VehicleState? || field.ChargingState?, env) else (noted, [])
  {
    hide Reconciled, Received, Ready, Awake;
    ReadyExactly(noted);
  }

  // ---------- Snapshots ----------

  predicate Same(a: Snapshot, b: Snapshot) { a.process == b.process && a.startedAt == b.startedAt }

  /** The snapshot that holds: a known end is not undone by a later open snapshot of the process, and
      keeps the time at which it was first confirmed. */
  predicate Holds(m: Monitor, s: Snapshot, kept: Snapshot) {
    var known := Same(m.observation, s) && m.observation.endedAt.Some?;
    && (known && s.endedAt.None? ==>
          kept == m.observation.(checkedAt := s.checkedAt, terminalConfirmedAt := kept.terminalConfirmedAt))
    && (!(known && s.endedAt.None?) ==> kept == s.(terminalConfirmedAt := kept.terminalConfirmedAt))
    && (kept.endedAt.None? ==> kept.terminalConfirmedAt == s.terminalConfirmedAt)
    && (kept.endedAt.Some? ==>
          var bound := m.car.process == kept.process && m.car.processStarted == kept.startedAt;
          kept.terminalConfirmedAt ==
            if Same(m.observation, kept) && m.observation.terminalConfirmedAt.Some? then m.observation.terminalConfirmedAt
            else if bound && m.car.terminalConfirmedAt.Some? && !Later(m.car.terminalConfirmedAt, kept.checkedAt) && kept.checkedAt.Some?
            then m.car.terminalConfirmedAt else kept.checkedAt)
  }

  lemma SettlingExactly(m: Monitor, s: Snapshot)
    ensures Holds(m, s, Settled(m, s))
  {
  }

  /** A snapshot read later than the one that holds replaces it. The end of the bound process ends
      the episode, if one is running, at the time the database gives; an open one that is seen now
      lets the common rules follow, in a managed and ready car. */
  lemma SnappingExactly(m: Monitor, s: Snapshot, env: Env)
    ensures var (m', events) := Snapped(m, s, env);
            var kept := Settled(m, s);
            var newer := s.checkedAt.Some? && (m.observation.checkedAt.None? || m.observation.checkedAt.value <= s.checkedAt.value);
            var ends := kept.process > 0 && m.car.process == kept.process && m.car.processStarted.Some?
                        && m.car.processStarted == kept.startedAt && kept.endedAt.Some?;
            && (!newer ==> m' == m && events == [])
            && (newer && ends ==>
                  var told := m.car.(terminalProcess := kept.process, terminalConfirmedAt := kept.terminalConfirmedAt);
                  && (!m.car.active ==> events == [] && m' == m.(observation := kept, car := told))
                  && (m.car.active ==>
                        && |events| == 1 && events[0].observedAt == kept.endedAt.value
                        && Emits(m.(observation := kept), m', [events[0].(observedAt := s.checkedAt.value)], Ended, told.(active := false), s.checkedAt.value)
                        && m' == m.(observation := kept, car := m'.car, pending := false)))
            && (newer && !ends ==>
                  (m', events) == if kept.endedAt.None? && Seen(kept, s.checkedAt.value) && m.mqttManaged && Awake(m)
                                  then Reconciled(m.(observation := kept), s.checkedAt.value, false, env) else (m.(observation := kept), []))
  {
    hide Reconciled, Settled, Ready, Awake, Seen, Fresh, Emits, ProcessEnded;
    if s.checkedAt.Some? {
      var kept, at := Settled(m, s), s.checkedAt.value;
      ProcessEndingExactly(m.(observation := kept), kept, at);
      ReadyExactly(m.(observation := kept));
      AwakeAlike(m, kept);
      FreshExactly(kept, at);
    }
  }

  lemma FreshExactly(s: Snapshot, now: int)
    ensures Fresh(s, now) <==> Seen(s, now)
  {
  }

  lemma AwakeAlike(m: Monitor, s: Snapshot)
    ensures Awake(m.(observation := s)) <==> Awake(m)
  {
  }

  lemma ProcessEndingExactly(m: Monitor, s: Snapshot, at: int)
    requires s == m.observation
    ensures var (m', events) := ProcessEnded(m, s, at);
            var told := m.car.(terminalProcess := s.process, terminalConfirmedAt := s.terminalConfirmedAt);
            && (!m.car.active ==> events == [] && m' == m.(car := told))
            && (m.car.active ==>
                  && |events| == 1 && events[0].observedAt == (if s.endedAt.Some? then s.endedAt.value else at)
                  && Emits(m, m', [events[0].(observedAt := at)], Ended, told.(active := false), at)
                  && m' == m.(car := m'.car, pending := false))
  {
    MadeExactly(m, m.car.(terminalProcess := s.process, terminalConfirmedAt := s.terminalConfirmedAt, active := false), Ended, at);
  }

  // ---------- Deliveries and removal ----------

  /** A delivered start is noted once for its own episode, and an update may follow at once. */
  lemma AcknowledgingExactly(m: Monitor, session: Id, byOutbox: bool, at: int)
    ensures var delivered := m.(car := m.car.(startDelivered := true, lastQueued := None));
            StartAcknowledged(m, session, byOutbox, at)
            == if m.car.active && session != 0 && m.car.session == session && !(byOutbox && m.car.startDelivered)
               then Scheduled(delivered, at) else (m, [])
  {
    hide Scheduled;
  }

  /** A start is replayed exactly for a running episode that may be shown. */
  lemma ReplayingExactly(m: Monitor, at: int)
    ensures var (m', events) := Replayed(m, at);
            var may := m.car.active && m.car.session != 0 && m.car.battery && Shown(m, m.car, at) && (m.mqttManaged ==> Awake(m));
            && (may ==> Emits(m, m', events, Started, m.car, at) && m' == m.(car := m'.car))
            && (!may ==> events == [] && m' == m)
  {
    PublishableExactly(m, m.car, at, false);
    ReadyExactly(m);
    MadeExactly(m, m.car, Started, at);
    hide Publishable, Shown, Ready, Awake, Made;
  }

  /** A car that leaves takes leave of a running episode with one end, and nothing of it is kept. */
  lemma RemovingExactly(m: Monitor, at: int)
    ensures var (m', events) := Removed(m, at);
            && (if m.car.active && m.car.session != 0
                then events == [Event(Ended, m.car.session, m.car.sequence + 1, at, None, 0)] else events == [])
            && m'.car == NO_CAR && m'.baseline == NO_BASELINE && m'.observation == NO_SNAPSHOT && !m'.pending
            && m'.databaseError == m.databaseError && m'.mqttManaged == m.mqttManaged
  {
  }

  // ---------- Delivery ----------

  /** A start or update may still be shown: its episode is the running one, its sample no more than
      three minutes old, and the car may be shown now. */
  lemma CurrentExactly(m: Monitor, e: Event, now: int)
    ensures D.Current(m, e, now)
            <==> && m.car.active && e.session != 0 && m.car.session == e.session && e.observedAt <= now <= e.observedAt + 180_000_000_000
                 && m.mqttManaged && Awake(m) && Shown(m, m.car, now)
  {
    PublishableExactly(m, m.car, now, false);
    ReadyExactly(m);
    hide Publishable, Ready, Awake, Shown;
  }

  /** A payload passes a check if its subscriber allows it and, unless it is an end, it may still be
      shown. */
  lemma CheckingExactly(w: D.World, p: D.Payload, now: int, allowed: bool)
    ensures D.Eligible(w, p, now, allowed)
            <==> allowed && (p.event.kind == Ended || (p.car in w.cars && D.Current(w.cars[p.car].monitor, p.event, now)))
  {
    hide D.Current;
  }

  /** Every way an agent can go: it takes what a monitor has created, waits for the gate, holds it
      through two checks that its payload must pass, posts, and lets go; whoever fails a check lets
      go without posting. */
  predicate MayGo(w: D.World, step: D.Step, i: nat, from: D.Agent, to: D.Agent) {
    match from
    case Idle => to.Waiting? && step == D.Take(i, to.payload) && D.Created(w.cars, to.payload)
    case Waiting(p) => (step == D.GiveUp(i) && to == D.Idle) || (step == D.Acquire(i) && w.gate.None? && to == D.Holding(p))
    case Holding(p) =>
      step.Check? && step.agent == i && to == (if D.Eligible(w, p, step.now, step.allowed) then D.Recorded(p) else D.Idle)
    case Recorded(p) =>
      step.Check? && step.agent == i && to == (if D.Eligible(w, p, step.now, step.allowed) then D.Cleared(p) else D.Idle)
    case Cleared(p) => (step == D.Post(i) && to == D.Posting(p)) || (step == D.Release(i) && to == D.Idle)
    case Posting(p) => step == D.Release(i) && to == D.Idle
  }

  /** No agent moves in another way, whoever lets go frees the gate, and a payload is posted exactly
      when a cleared agent posts it. */
  lemma AgentsExactly(w: D.World, step: D.Step, i: nat)
    requires i < |w.agents|
    ensures var w' := D.Happens(w, step);
            && |w'.agents| == |w.agents|
            && (w'.agents[i] != w.agents[i] ==> MayGo(w, step, i, w.agents[i], w'.agents[i]))
            && (D.HoldsGate(w.agents[i]) && !D.HoldsGate(w'.agents[i]) ==> w'.gate.None?)
            && (!D.HoldsGate(w.agents[i]) && D.HoldsGate(w'.agents[i]) ==> w'.gate == Some(i))
            && (w'.posts != w.posts ==>
                  step.Post? && step.agent < |w.agents| && w.agents[step.agent].Cleared? && w'.posts == w.posts + [w.agents[step.agent].payload])
            && (step == D.Post(i) && w.agents[i].Cleared? ==> w'.posts == w.posts + [w.agents[i].payload] && w'.agents[i].Posting?)
            && (step.Check? && step.agent == i && (w.agents[i].Holding? || w.agents[i].Recorded?) ==> w'.agents[i] != w.agents[i])
  {
    hide D.Eligible, D.Created;
  }
}
