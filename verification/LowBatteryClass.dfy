/** The low-battery monitor as it runs: car states rewritten in a map under the mutex, proved
    against the steps of LowBattery. */
module LowBatteryClass {
  import opened Wrappers
  import opened LowBattery

  class LowBatteryNotificationMonitor {
    var cars: map<Id, Car>
    var timers: set<Id>

    constructor ()
      ensures cars == map[] && timers == {}
    {
      cars, timers := map[], {};
    }

    function Of(id: Id): Car
      reads this`cars
    {
      if id in cars then cars[id] else NO_CAR
    }

    /** An evaluation settles some seconds after the last message that says something. */
    method ObserveMessage(id: Id, reading: Reading, retained: bool)
      modifies this
      ensures Of(id) == Messaged(old(Of(id)), reading, retained)
      ensures forall other :: other != id ==> Of(other) == old(Of(other)) && (other in timers <==> other in old(timers))
      ensures id in timers <==> id in old(timers) || !(reading.Nothing? || (reading.Level? && !ValidLevel(reading.percent)))
    {
      hide ValidLevel;
      if reading.Nothing? {
        return;
      }
      var car := Of(id);
      if reading.Level? && !ValidLevel(reading.percent) {
        cars := cars[id := car.(level := None, initialized := false)];
        return;
      }
      car := Received(car, reading);
      if retained {
        car := car.(initialized := false);
      }
      if car.calm.None? || car.charging.None? {
        car := car.(initialized := false);
      }
      cars := cars[id := car];
      timers := timers + {id};
    }

    method Unsnooze(actions: map<Id, Action>, to: Action) returns (result: map<Id, Action>)
      ensures result == Unsnoozed(actions, to)
    {
      result := actions;
      var ids := actions.Keys;
      while ids != {}
        invariant ids <= actions.Keys == result.Keys
        invariant forall i :: i in result ==> result[i] == if i in ids then actions[i] else Unsnoozed(actions, to)[i]
        decreases |ids|
      {
        var i :| i in ids;
        ids := ids - {i};
        if result[i].Snoozed? {
          result := result[i := to];
        }
      }
    }

    /** The silent evaluation that sets a baseline. */
    method SetBaseline(car: Car, episode: Id) returns (result: Car)
      requires Complete(car)
      ensures result == Baselined(car, episode)
    {
      hide Eligible;
      result := car.(initialized := true);
      if car.level.value >= REARM_PERCENT {
        result := result.(latched := false, severe := false, episode := 0, actions := map[]);
      }
      if Eligible(car) {
        result := result.(latched := true, severe := car.level.value < SEVERE_PERCENT);
        if result.episode == 0 {
          result := result.(episode := episode, actions := map[]);
        }
      }
    }

    method Evaluate(id: Id, episode: Id) returns (notes: seq<Note>)
      modifies this
      ensures (Of(id), notes) == Evaluated(old(Of(id)), episode)
      ensures forall other :: other != id ==> Of(other) == old(Of(other))
      ensures timers == old(timers) - {id}
    {
      hide Eligible, Unsnoozed, Baselined;
      timers := timers - {id};
      var car := Of(id);
      if !Complete(car) {
        return [];
      }
      var level, eligible := car.level.value, Eligible(car);
      if !car.initialized {
        car := SetBaseline(car, episode);
        cars := cars[id := car];
        return [Saw(level), Rebased(eligible, level)];
      }
      notes := [Saw(level)];
      if level >= REARM_PERCENT {
        car := car.(latched := false, severe := false, episode := 0, actions := map[]);
      }
      if car.charging.value {
        var actions := Unsnooze(car.actions, Cancelled);
        car := car.(actions := actions);
      }
      if eligible && !car.latched {
        car := car.(latched := true, severe := level < SEVERE_PERCENT, episode := episode, actions := map[]);
        notes := [Saw(level), Entered(episode, car.severe)];
      } else if eligible && car.latched && level < SEVERE_PERCENT && !car.severe {
        var actions := Unsnooze(car.actions, Superseded);
        car := car.(severe := true, actions := actions);
        notes := [Saw(level), Escalated(car.episode)];
      }
      cars := cars[id := car];
    }

    method ApplyAction(id: Id, installation: Id, episode: Id, snooze: bool, now: int) returns (notes: seq<Note>)
      modifies this`cars
      ensures (Of(id), notes) == Acted(old(Of(id)), installation, episode, snooze, now)
      ensures forall other :: other != id ==> Of(other) == old(Of(other))
    {
      var car := Of(id);
      if episode == 0 || id !in cars || car.episode != episode || !car.latched {
        return [];
      }
      var action := if snooze then Snoozed(now + SNOOZE_DELAY) else Acknowledged;
      cars := cars[id := car.(actions := car.actions[installation := action])];
      return [Took(installation, snooze)];
    }

    /** `order` is the order in which the car's actions happen to be visited. */
    method ProcessDueReminders(id: Id, order: seq<Id>, inFleet: bool, now: int) returns (notes: seq<Note>)
      modifies this`cars
      ensures (Of(id), notes) == Stepped(old(Of(id)), Remind(order, inFleet, now))
      ensures forall other :: other != id ==> Of(other) == old(Of(other))
    {
      hide Eligible, ReminderTurn;
      var car := Of(id);
      if !CanRemind(car, inFleet) {
        return [];
      }
      notes := [];
      for i := 0 to |order|
        invariant cars == old(cars)
        invariant (car, notes) == RemindersDone(Of(id), order[..i], now)
      {
        assert order[..i + 1][..i] == order[..i];
        var more;
        car, more := TakeReminderTurn(car, order[i], now);
        notes := notes + more;
      }
      assert order[..|order|] == order;
      cars := cars[id := car];
    }

    method TakeReminderTurn(car: Car, installation: Id, now: int) returns (result: Car, notes: seq<Note>)
      ensures (result, notes) == ReminderTurn(car, installation, now)
    {
      hide Eligible;
      if installation !in car.actions || !car.actions[installation].Snoozed? || now < car.actions[installation].until {
        return car, [];
      }
      result := car.(actions := car.actions[installation := Completed]);
      notes := if result.latched && Eligible(result) then [Note.Reminded(installation)] else [];
      SameEligibility(car, installation);
    }

    static lemma SameEligibility(car: Car, installation: Id)
      ensures Eligible(car.(actions := car.actions[installation := Completed])) == Eligible(car)
    {
    }

    method ResetObservationBaseline()
      modifies this
      ensures timers == {} && cars.Keys == old(cars).Keys
      ensures forall id :: id in cars ==> Of(id) == BaselineReset(old(Of(id)))
    {
      timers := {};
      var ids := cars.Keys;
      while ids != {}
        invariant ids <= cars.Keys == old(cars).Keys && timers == {}
        invariant forall id :: id in cars ==> cars[id] == if id in ids then old(cars)[id] else BaselineReset(old(cars)[id])
        decreases |ids|
      {
        var id :| id in ids;
        ids := ids - {id};
        cars := cars[id := cars[id].(initialized := false, calm := None, moving := false, charging := None, level := None)];
      }
    }

    method ReconcileFleet(fleet: set<Id>)
      modifies this
      ensures forall id :: Of(id) == if id in fleet then old(Of(id)) else NO_CAR
      ensures timers == old(timers) - (old(cars).Keys - fleet)
    {
      var ids := cars.Keys;
      while ids != {}
        invariant ids <= cars.Keys <= old(cars).Keys
        invariant forall id :: id in cars ==> cars[id] == old(cars)[id] && (id in ids || id in fleet)
        invariant forall id :: id in old(cars) && id in fleet ==> id in cars
        invariant timers == old(timers) - (old(cars).Keys - fleet - ids)
        decreases |ids|
      {
        var id :| id in ids;
        ids := ids - {id};
        if id !in fleet {
          cars := cars - {id};
          timers := timers - {id};
        }
      }
    }
  }
}
