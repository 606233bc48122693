/** The charging monitor as it runs: maps per car that its methods rewrite under the mutex, and
    the queue it feeds, proved against the steps of ChargingMonitor. */
module ChargingMonitorClass {
  import opened Wrappers
  import opened ChargingMonitor

  class ChargingNotificationMonitor {
    var cars: map<Id, Car>
    var baselines: map<Id, Baseline>
    var observations: map<Id, Snapshot>
    var pending: set<Id>
    var databaseError: bool
    var mqttManaged: bool
    var queue: seq<Event>

    function CarOf(id: Id): Car
      reads this`cars
    {
      if id in cars then cars[id] else NO_CAR
    }

    function BaselineOf(id: Id): Baseline
      reads this`baselines
    {
      if id in baselines then baselines[id] else NO_BASELINE
    }

    function ObservationOf(id: Id): Snapshot
      reads this`observations
    {
      if id in observations then observations[id] else NO_SNAPSHOT
    }

    /** What the monitor knows about one car. */
    function Of(id: Id): Monitor
      reads this`cars, this`baselines, this`observations, this`pending, this`databaseError, this`mqttManaged
    {
      Monitor(CarOf(id), BaselineOf(id), ObservationOf(id), id in pending, databaseError, mqttManaged)
    }

    constructor ()
      ensures forall id :: Of(id) == Monitor(NO_CAR, NO_BASELINE, NO_SNAPSHOT, false, false, false)
      ensures queue == []
    {
      cars, baselines, observations, pending := map[], map[], map[], {};
      databaseError, mqttManaged, queue := false, false, [];
    }

    /** Numbers and stamps the car's next event; the caller stores the car. */
    method MakeEvent(id: Id, state: Car, kind: Kind, at: int) returns (car: Car, event: Event)
      ensures (car, event) == Made(ObservationOf(id), state, kind, at)
    {
      car := state.(sequence := state.sequence + 1, lastQueued := Some(WholeSecond(at)));
      var sample := ObservationOf(id);
      event := Event(kind, car.session, car.sequence, at, None, sample.process);
      if kind != Ended && sample.lastSampleAt.Some? {
        car := car.(lastEventSampleAt := sample.lastSampleAt);
        event := event.(observedAt := sample.lastSampleAt.value, sampleAt := sample.lastSampleAt);
      }
    }

    method ScheduleUpdate(id: Id, at: int)
      modifies this`cars, this`pending, this`queue
      ensures Of(id) == Scheduled(old(Of(id)), at).0 && queue == old(queue) + Scheduled(old(Of(id)), at).1
      ensures forall other :: other != id ==> Of(other) == old(Of(other))
    {
      hide Ready, Publishable, Made;
      if mqttManaged && !Ready(Of(id)) {
        return;
      }
      var car := CarOf(id);
      if !car.startDelivered || car.session == 0 || !car.battery || !Publishable(Of(id), car, at, true) {
        return;
      }
      if car.lastQueued.None? || at - car.lastQueued.value >= Interval(car) {
        var event;
        car, event := MakeEvent(id, car, Updated, at);
        cars := cars[id := car];
        queue := queue + [event];
        return;
      }
      pending := pending + {id};
    }

    /** The start of a new episode. */
    method BeginEpisode(id: Id, at: int, session: Id)
      modifies this`cars, this`queue
      ensures Of(id) == old(Of(id)).(car := Begun(old(Of(id)), at, session).0)
      ensures queue == old(queue) + [Begun(old(Of(id)), at, session).1]
      ensures forall other :: other != id ==> Of(other) == old(Of(other))
    {
      hide Made;
      var sample := ObservationOf(id);
      var car := CarOf(id).(process := sample.process, processStarted := sample.startedAt, terminalConfirmedAt := None,
                            lastEventSampleAt := None, mqttTerminalProcess := 0, mqttTerminalAt := None, active := true,
                            session := session, sequence := 0, startDelivered := false, lastQueued := None);
      var event;
      car, event := MakeEvent(id, car, Started, at);
      cars := cars[id := car];
      queue := queue + [event];
    }

    /** A primary-state receipt ends the episode. */
    method EndEpisode(id: Id, at: int)
      modifies this`cars, this`pending, this`queue
      ensures var m := old(Of(id));
              var over := Made(m.observation, m.car.(active := false, mqttTerminalProcess := m.car.process, mqttTerminalAt := Some(at)), Ended, at);
              Of(id) == m.(car := over.0, pending := false) && queue == old(queue) + [over.1]
      ensures forall other :: other != id ==> Of(other) == old(Of(other))
    {
      hide Made;
      var car := CarOf(id);
      car := car.(active := false, mqttTerminalProcess := car.process, mqttTerminalAt := Some(at));
      pending := pending - {id};
      var event;
      car, event := MakeEvent(id, car, Ended, at);
      cars := cars[id := car];
      queue := queue + [event];
    }

    method RetryStart(id: Id, at: int, env: Env)
      modifies this`cars, this`queue
      ensures Of(id) == Restarted(old(Of(id)), at, env).0 && queue == old(queue) + Restarted(old(Of(id)), at, env).1
      ensures forall other :: other != id ==> Of(other) == old(Of(other))
    {
      hide Publishable, Made;
      var car := CarOf(id);
      if !Publishable(Of(id), car, at, false) || env.outboxOwnsStart {
        return;
      }
      if car.lastQueued.None? || at - car.lastQueued.value >= UPDATE_INTERVAL {
        var event;
        car, event := MakeEvent(id, car, Started, at);
        cars := cars[id := car];
        queue := queue + [event];
      }
    }

    method ReconcileChargingActivity(id: Id, at: int, allowTerminal: bool, env: Env)
      modifies this`cars, this`pending, this`queue
      ensures Of(id) == Reconciled(old(Of(id)), at, allowTerminal, env).0
      ensures queue == old(queue) + Reconciled(old(Of(id)), at, allowTerminal, env).1
      ensures forall other :: other != id ==> Of(other) == old(Of(other))
    {
      hide Publishable, Made, Begun, Scheduled, Restarted, Startable;
      if !env.eligible {
        return;
      }
      var car := CarOf(id);
      if IsCharging(car) && !car.active && car.battery && car.range {
        if !Startable(Of(id), at) {
          return;
        }
        BeginEpisode(id, at, env.session);
        return;
      }
      if !IsCharging(car) && car.active {
        if !allowTerminal || (mqttManaged && (!BaselineOf(id).stateLive || !BaselineOf(id).chargeLive)) {
          return;
        }
        EndEpisode(id, at);
        return;
      }
      if car.active {
        if !car.startDelivered {
          RetryStart(id, at, env);
        } else {
          ScheduleUpdate(id, at);
        }
      }
    }

    // ---------- MQTT ----------

    method Note(id: Id, field: Field, at: int, retained: bool)
      modifies this`cars, this`baselines
      ensures Of(id) == SeenIdle(Received(old(Of(id)), field, at, retained))
      ensures forall other :: other != id ==> Of(other) == old(Of(other))
    {
      hide ReadBaseline, ReadCar;
      var b := ReadBaseline(BaselineOf(id), field, at, retained);
      var car := ReadCar(CarOf(id), field);
      if b.stateReceived && b.chargeReceived && car.vehicle != Charging && car.charge != Charging {
        b := b.(seenNotCharging := true);
      }
      baselines, cars := baselines[id := b], cars[id := car];
    }

    method ObserveMessage(id: Id, field: Field, at: int, retained: bool, env: Env)
      modifies this
      ensures Of(id) == Messaged(old(Of(id)), field, at, retained, env).0
      ensures queue == old(queue) + Messaged(old(Of(id)), field, at, retained, env).1
      ensures forall other :: other != id ==> Of(other) == old(Of(other)).(mqttManaged := true)
    {
      hide Ready, Received, SeenIdle, Reconciled;
      mqttManaged := true;
      var wasActive := CarOf(id).active;
      if field.NotSubscribed? {
        return;
      }
      Note(id, field, at, retained);
      if retained || !Ready(Of(id)) {
        var terminal := !retained && wasActive && IsPrimary(field) && BaselineOf(id).stateReceived && BaselineOf(id).chargeReceived
                        && !IsCharging(CarOf(id));
        if !terminal {
          return;
        }
      }
      ReconcileChargingActivity(id, at, !retained && IsPrimary(field), env);
    }

    method ResetMQTTBaseline()
      modifies this`mqttManaged, this`baselines, this`pending
      ensures forall id :: Of(id) == BaselineReset(old(Of(id)))
    {
      mqttManaged := true;
      baselines := map[];
      pending := {};
    }

    // ---------- Database ----------

    method ApplyDatabaseSnapshot(id: Id, snapshot: Snapshot, env: Env)
      requires snapshot.checkedAt.Some?
      modifies this`cars, this`observations, this`pending, this`queue
      ensures Of(id) == Snapped(old(Of(id)), snapshot, env).0
      ensures queue == old(queue) + Snapped(old(Of(id)), snapshot, env).1
      ensures forall other :: other != id ==> Of(other) == old(Of(other))
    {
      hide Ready, Reconciled, Fresh, ProcessEnded, Settled;
      var before := ObservationOf(id);
      var at := snapshot.checkedAt.value;
      if before.checkedAt.Some? && at < before.checkedAt.value {
        return;
      }
      var s := Settle(id, snapshot);
      observations := observations[id := s];
      var ended := false;
      if BoundTo(CarOf(id), s) && s.endedAt.Some? {
        ended := EndBoundProcess(id, s, at);
      }
      if !ended && s.endedAt.None? && Fresh(s, at) && mqttManaged && Ready(Of(id)) {
        ReconcileChargingActivity(id, at, false, env);
      }
    }

    method Settle(id: Id, snapshot: Snapshot) returns (s: Snapshot)
      requires snapshot.checkedAt.Some?
      ensures s == Settled(Of(id), snapshot)
    {
      var before, car := ObservationOf(id), CarOf(id);
      s := snapshot;
      if SameProcess(before, s) && before.endedAt.Some? && s.endedAt.None? {
        s := before.(checkedAt := s.checkedAt);
      }
      if s.endedAt.Some? {
        if SameProcess(before, s) && before.terminalConfirmedAt.Some? {
          s := s.(terminalConfirmedAt := before.terminalConfirmedAt);
        } else if car.process == s.process && car.processStarted == s.startedAt && car.terminalConfirmedAt.Some?
                  && car.terminalConfirmedAt.value <= s.checkedAt.value {
          s := s.(terminalConfirmedAt := car.terminalConfirmedAt);
        } else {
          s := s.(terminalConfirmedAt := s.checkedAt);
        }
      }
    }

    method EndBoundProcess(id: Id, s: Snapshot, at: int) returns (ended: bool)
      requires s.endedAt.Some?
      modifies this`cars, this`pending, this`queue
      ensures Of(id) == ProcessEnded(old(Of(id)), s, at).0 && queue == old(queue) + ProcessEnded(old(Of(id)), s, at).1
      ensures ended <==> ProcessEnded(old(Of(id)), s, at).1 != []
      ensures forall other :: other != id ==> Of(other) == old(Of(other))
    {
      hide Made;
      var car := CarOf(id).(terminalProcess := s.process, terminalConfirmedAt := s.terminalConfirmedAt);
      ended := car.active;
      if car.active {
        pending := pending - {id};
        var event;
        car, event := MakeEvent(id, car.(active := false), Ended, at);
        queue := queue + [event.(observedAt := s.endedAt.value)];
      }
      cars := cars[id := car];
    }

    // ---------- Timers, deliveries and replay ----------

    method FlushUpdate(id: Id, check: int, at: int)
      modifies this`cars, this`pending, this`queue
      ensures Of(id) == Flushed(old(Of(id)), check, at).0 && queue == old(queue) + Flushed(old(Of(id)), check, at).1
      ensures forall other :: other != id ==> Of(other) == old(Of(other))
    {
      hide Ready, Publishable, Made;
      pending := pending - {id};
      var car := CarOf(id);
      if !car.active || !car.startDelivered || !car.battery || !Publishable(Of(id), car, check, true) || (mqttManaged && !Ready(Of(id))) {
        return;
      }
      var event;
      car, event := MakeEvent(id, car, Updated, at);
      cars := cars[id := car];
      queue := queue + [event];
    }

    method AcknowledgeStart(id: Id, session: Id, byOutbox: bool, at: int)
      modifies this`cars, this`pending, this`queue
      ensures Of(id) == StartAcknowledged(old(Of(id)), session, byOutbox, at).0
      ensures queue == old(queue) + StartAcknowledged(old(Of(id)), session, byOutbox, at).1
      ensures forall other :: other != id ==> Of(other) == old(Of(other))
    {
      hide Scheduled;
      var car := CarOf(id);
      if !car.active || car.session != session || session == 0 || (byOutbox && car.startDelivered) {
        return;
      }
      cars := cars[id := car.(startDelivered := true, lastQueued := None)];
      ScheduleUpdate(id, at);
    }

    method ReplayActiveStart(id: Id, at: int)
      modifies this`cars, this`queue
      ensures Of(id) == Replayed(old(Of(id)), at).0 && queue == old(queue) + Replayed(old(Of(id)), at).1
      ensures forall other :: other != id ==> Of(other) == old(Of(other))
    {
      hide Ready, Publishable, Made;
      if mqttManaged && !Ready(Of(id)) {
        return;
      }
      var car := CarOf(id);
      if !car.active || car.session == 0 || !car.battery || !Publishable(Of(id), car, at, false) {
        return;
      }
      var event;
      car, event := MakeEvent(id, car, Started, at);
      cars := cars[id := car];
      queue := queue + [event];
    }

    // ---------- Fleet ----------

    method RemoveCar(id: Id, at: int)
      modifies this`cars, this`baselines, this`observations, this`pending, this`queue
      ensures Of(id) == Removed(old(Of(id)), at).0 && queue == old(queue) + Farewell(old(CarOf(id)), at)
      ensures cars == old(cars) - {id}
      ensures forall other :: other != id ==> Of(other) == old(Of(other))
    {
      hide Made;
      pending := pending - {id};
      baselines := baselines - {id};
      observations := observations - {id};
      var car := CarOf(id);
      if car.active && car.session != 0 {
        var _, event := MakeEvent(id, car, Ended, at);
        queue := queue + [event];
      }
      cars := cars - {id};
    }

    method ForgetObservations(fleet: set<Id>)
      modifies this`observations
      ensures forall id :: Of(id) == if id in fleet then old(Of(id)) else old(Of(id)).(observation := NO_SNAPSHOT)
    {
      var ids := observations.Keys;
      while ids != {}
        invariant ids <= observations.Keys <= old(observations.Keys)
        invariant forall id :: id in observations ==> observations[id] == old(observations)[id] && (id in ids || id in fleet)
        invariant forall id :: id in old(observations) && id in fleet ==> id in observations
        decreases |ids|
      {
        var id :| id in ids;
        ids := ids - {id};
        if id !in fleet {
          observations := observations - {id};
        }
      }
    }

    static ghost predicate NoRepeats(order: seq<Id>) { forall i, j :: 0 <= i < j < |order| ==> order[i] != order[j] }

    static lemma OneMore(order: seq<Id>, id: Id)
      requires NoRepeats(order) && id !in order
      ensures NoRepeats(order + [id])
    {
    }

    static lemma NothingRepeats()
      ensures NoRepeats([])
    {
    }

    /** The cars in `order` have said goodbye. */
    static ghost predicate Said(before: seq<Event>, after: seq<Event>, cars: map<Id, Car>, order: seq<Id>, at: Id -> int) {
      after == before + Farewells(cars, order, at)
    }

    static lemma SaidOneMore(before: seq<Event>, after: seq<Event>, cars: map<Id, Car>, order: seq<Id>, id: Id, at: Id -> int)
      requires id in cars && Said(before, after, cars, order, at)
      ensures Said(before, after + Farewell(cars[id], at(id)), cars, order + [id], at)
    {
    }

    static lemma NothingSaid(queue: seq<Event>, cars: map<Id, Car>, at: Id -> int)
      ensures Said(queue, queue, cars, [], at)
    {
    }

    /** Cars with a state that are outside the fleet go one by one, each with the clock reading of
        its turn. `order` is the order in which they went. */
    method RemoveOutside(fleet: set<Id>, at: Id -> int) returns (ghost order: seq<Id>)
      modifies this`cars, this`baselines, this`observations, this`pending, this`queue
      ensures forall id :: id in order <==> id in old(cars) && id !in fleet
      ensures NoRepeats(order)
      ensures Said(old(queue), queue, old(cars), order, at)
      ensures forall id :: Of(id) == if id in order then Removed(old(Of(id)), at(id)).0 else old(Of(id))
    {
      hide Farewell, Farewells, Removed, Of, NoRepeats, Said;
      order := [];
      NothingRepeats();
      NothingSaid(queue, cars, at);
      var ids := cars.Keys;
      while ids != {}
        invariant forall id :: id in ids ==> id in cars && id in old(cars) && cars[id] == old(cars)[id]
        invariant forall id :: id in order <==> id in old(cars) && id !in fleet && id !in ids
        invariant NoRepeats(order)
        invariant Said(old(queue), queue, old(cars), order, at)
        invariant forall id :: Of(id) == if id in order then Removed(old(Of(id)), at(id)).0 else old(Of(id))
        decreases |ids|
      {
        var id :| id in ids;
        ids := ids - {id};
        if id !in fleet {
          SaidOneMore(old(queue), queue, old(cars), order, id, at);
          OneMore(order, id);
          RemoveCar(id, at(id));
          order := order + [id];
        }
      }
    }

    /** Observations of cars outside the fleet go first. */
    method ReconcileFleet(fleet: set<Id>, at: Id -> int) returns (ghost order: seq<Id>)
      modifies this`cars, this`baselines, this`observations, this`pending, this`queue
      ensures forall id :: id in order <==> id in old(cars) && id !in fleet
      ensures NoRepeats(order)
      ensures queue == old(queue) + Farewells(old(cars), order, at)
      ensures forall id :: Of(id) == if id in fleet then old(Of(id))
                                     else if id in order then Removed(old(Of(id)), at(id)).0
                                     else old(Of(id)).(observation := NO_SNAPSHOT)
    {
      hide Farewell, Farewells, NoRepeats;
      ForgetObservations(fleet);
      order := RemoveOutside(fleet, at);
    }
  }
}
