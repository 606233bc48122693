/** When the low-battery monitor alerts and reminds, and what its messages and actions change, in
    numbers. */
module LowBatteryExact {
  import opened Wrappers
  import opened LowBattery

  // ---------- Messages ----------

  /** The level is a percentage. */
  predicate IsPercent(level: Option<int>) { level.Some? && 0 <= level.value <= 100 }

  /** What a message says is taken over; a retained one, or one that leaves vehicle or charging
      unknown, ends the baseline, and so does an invalid level, which is not taken over. */
  lemma MessagingExactly(car: Car, reading: Reading, retained: bool)
    ensures var after := Messaged(car, reading, retained);
            var invalid := reading.Level? && !IsPercent(reading.percent);
            && (reading.Nothing? ==> after == car)
            && (invalid ==> after == car.(level := None, initialized := false))
            && (!reading.Nothing? && !invalid ==>
                  && after.calm == (if reading.Vehicle? then reading.calm else car.calm)
                  && after.moving == (if reading.Shift? then reading.moving else car.moving)
                  && after.charging == (if reading.Charge? then reading.charging else car.charging)
                  && after.level == (if reading.Level? then reading.percent else car.level)
                  && after.initialized == (car.initialized && !retained && after.calm.Some? && after.charging.Some?)
                  && after.latched == car.latched && after.severe == car.severe && after.episode == car.episode && after.actions == car.actions)
  {
  }

  /** A lost connection forgets everything read, and nothing of the episode. */
  lemma ResettingExactly(car: Car)
    ensures BaselineReset(car) == Car(None, false, None, None, false, car.latched, car.severe, car.episode, car.actions)
  {
  }

  // ---------- Alerts ----------

  predicate IsComplete(car: Car) { car.level.Some? && car.calm.Some? && car.charging.Some? }

  /** Under twenty percent, standing still, calm and not charging. */
  predicate IsLow(car: Car) {
    IsComplete(car) && car.level.value < 20 && !car.moving && car.calm == Some(true) && car.charging == Some(false)
  }

  /** An evaluation of a running baseline: the entry alert if the car is low and no alert stands, or
      one stood but the level is not below twenty-five any more; the severe alert if it is below ten
      and none of this episode stands. */
  predicate Enters(car: Car) { car.initialized && IsLow(car) && !car.latched }

  predicate Escalates(car: Car) { car.initialized && IsLow(car) && car.latched && !car.severe && car.level.value < 10 }

  /** Main result on alerts: which evaluation alerts, and with what. */
  lemma EvaluatingExactly(car: Car, episode: Id)
    ensures var (after, notes) := Evaluated(car, episode);
            && (!IsComplete(car) ==> after == car && notes == [])
            && (IsComplete(car) ==> |notes| > 0 && notes[0] == Saw(car.level.value))
            && (Enters(car) ==>
                  && notes[1..] == [Entered(episode, car.level.value < 10)]
                  && after == car.(latched := true, severe := car.level.value < 10, episode := episode, actions := map[]))
            && (Escalates(car) ==>
                  && notes[1..] == [Escalated(car.episode)]
                  && after == car.(severe := true, actions := after.actions) && Settles(car.actions, after.actions, Superseded))
            && (IsComplete(car) && !car.initialized ==> notes[1..] == [Rebased(IsLow(car), car.level.value)])
            && (IsComplete(car) && car.initialized && !Enters(car) && !Escalates(car) ==> notes[1..] == [])
  {
  }

  /** Every snooze is settled, and only they. */
  predicate Settles(before: map<Id, Action>, after: map<Id, Action>, to: Action) {
    && after.Keys == before.Keys
    && forall i :: i in before ==> after[i] == if before[i].Snoozed? then to else before[i]
  }

  /** At twenty-five percent an episode is over; charging cancels its snoozes; nothing else changes a
      car that does not alert. */
  lemma QuietlyExactly(car: Car, episode: Id)
    requires IsComplete(car) && car.initialized && !Enters(car) && !Escalates(car)
    ensures var after := Evaluated(car, episode).0;
            && (car.level.value >= 25 ==> after == car.(latched := false, severe := false, episode := 0, actions := map[]))
            && (car.level.value < 25 && car.charging == Some(true) ==>
                  after == car.(actions := after.actions) && Settles(car.actions, after.actions, Cancelled))
            && (car.level.value < 25 && car.charging == Some(false) ==> after == car)
  {
    if car.level.value >= 25 {
      assert Unsnoozed(map[], Cancelled) == map[];
    }
  }

  /** The first complete evaluation of a baseline begins it, and an episode with it if the car is low
      and has none, without an alert. */
  lemma RebasingExactly(car: Car, episode: Id)
    requires IsComplete(car) && !car.initialized
    ensures var after := Evaluated(car, episode).0;
            && after.initialized
            && (car.level.value >= 25 ==> after == car.(initialized := true, latched := false, severe := false, episode := 0, actions := map[]))
            && (car.level.value < 25 && !IsLow(car) ==> after == car.(initialized := true))
            && (IsLow(car) && car.episode != 0 ==> after == car.(initialized := true, latched := true, severe := car.level.value < 10))
            && (IsLow(car) && car.episode == 0 ==>
                  after == car.(initialized := true, latched := true, severe := car.level.value < 10, episode := episode, actions := map[]))
  {
  }

  // ---------- Actions and reminders ----------

  /** An action counts for the running episode only; a snooze lasts four hours. */
  lemma ActingExactly(car: Car, installation: Id, episode: Id, snooze: bool, now: int)
    ensures var (after, notes) := Acted(car, installation, episode, snooze, now);
            var counts := car.latched && episode != 0 && car.episode == episode;
            && (!counts ==> after == car && notes == [])
            && (counts ==>
                  && notes == [Took(installation, snooze)] && after == car.(actions := after.actions)
                  && after.actions == car.actions[installation := if snooze then Snoozed(now + 14_400_000) else Acknowledged])
  {
  }

  /** The installation's snooze is over. */
  predicate IsDue(car: Car, installation: Id, now: int) {
    installation in car.actions && car.actions[installation].Snoozed? && car.actions[installation].until <= now
  }

  /** Main result on reminders: an installation that is visited is reminded if and only if its snooze
      is over and the car is still low in a standing episode, once however often it is visited; every
      snooze that was over is completed, and nothing else changes. */
  lemma {:induction false} RemindingExactly(car: Car, order: seq<Id>, now: int, installation: Id)
    ensures var (after, notes) := RemindersDone(car, order, now);
            && (Note.Reminded(installation) in notes <==> installation in order && IsDue(car, installation, now) && car.latched && IsLow(car))
            && after == car.(actions := after.actions) && after.actions.Keys == car.actions.Keys
            && (installation in car.actions ==>
                  after.actions[installation] == if installation in order && IsDue(car, installation, now) then Completed else car.actions[installation])
  {
    if order != [] {
      var before, last := order[..|order| - 1], order[|order| - 1];
      RemindingExactly(car, before, now, installation);
      RemindingExactly(car, before, now, last);
      assert order == before + [last];
    }
  }

  lemma {:induction false} RemindsOnce(car: Car, order: seq<Id>, now: int)
    ensures var notes := RemindersDone(car, order, now).1;
            && (forall i :: 0 <= i < |notes| ==> notes[i].Reminded?)
            && (forall i, j :: 0 <= i < j < |notes| ==> notes[i] != notes[j])
  {
    if order != [] {
      var before, last := order[..|order| - 1], order[|order| - 1];
      RemindsOnce(car, before, now);
      RemindingExactly(car, before, now, last);
    }
  }

  /** Reminders are sent for a car of the fleet whose baseline is running and complete, and for no other. */
  lemma RemindsExactly(car: Car, order: seq<Id>, inFleet: bool, now: int)
    ensures Stepped(car, Remind(order, inFleet, now))
            == if car.initialized && IsComplete(car) && inFleet then RemindersDone(car, order, now) else (car, [])
  {
  }
}
