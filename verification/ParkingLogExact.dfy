/** Which two messages make which parking event. */
module ParkingLogExact {
  import opened Wrappers
  import opened ParkingLog

  /** The values that mean something, by topic. */
  predicate Says(field: Field, value: string, parses: bool) {
    match field
    case State =>
      || value == "online" || value == "suspended" || value == "asleep" || value == "offline" || value == "driving"
      || value == "charging" || value == "updating"
    case ScheduledStart => parses
    case ChargingState =>
      || value == "disconnected" || value == "starting" || value == "charging" || value == "stopped" || value == "complete"
      || value == "nopower"
    case SunRoofState => value == "open" || value == "vent" || value == "moving" || value == "closed"
    case Flag(_, _) => value == "true" || value == "false"
  }

  /** The event that a change from one value to another is: turned on or off, opened or closed,
      charging started, completed, without power, or stopped while it was charging. */
  predicate Makes(field: Field, previous: string, value: string, kind: EventType) {
    && previous != value
    && match field
       case Flag(name, silent) =>
         !silent && ((value == "true" && kind == Turned(name, true)) || (value == "false" && kind == Turned(name, false)))
       case SunRoofState =>
         || ((value == "open" || value == "vent" || value == "moving") && kind == SunRoof(true))
         || (value == "closed" && kind == SunRoof(false))
       case ChargingState =>
         || (value == "charging" && kind == ChargingStarted)
         || (value == "complete" && kind == ChargingCompleted)
         || (value == "nopower" && kind == ChargingNoPower)
         || (value == "stopped" && previous == "charging" && kind == ChargingStopped)
       case _ => false
  }

  /** Two messages make an event if and only if the second is live, both say something, and the
      change between them is an event; it carries car, topic, value and time of the second. */
  lemma EventExactly(previous: Message, m: Message, e: Event)
    ensures EventBetween(previous, m) == Some(e)
            <==> && !m.retained && Says(m.field, m.value, m.parses) && Says(previous.field, previous.value, previous.parses)
                 && Makes(m.field, previous.value, m.value, e.kind)
                 && e.car == m.car && e.field == m.field && e.value == m.value && e.at == m.at
  {
    KnownExactly(previous);
    KnownExactly(m);
    TypeExactly(m.field, previous.value, m.value, e.kind);
    hide Known, Says, TypeOf, Makes;
    assert Makes(m.field, previous.value, m.value, e.kind) ==> previous.value != m.value by { ChangeIsOne(m.field, previous.value, m.value, e.kind); }
  }

  lemma KnownExactly(m: Message)
    ensures Known(m) <==> Says(m.field, m.value, m.parses)
  {
  }

  lemma TypeExactly(field: Field, previous: string, value: string, kind: EventType)
    ensures previous != value ==> (TypeOf(field, previous, value) == Some(kind) <==> Makes(field, previous, value, kind))
  {
  }

  lemma ChangeIsOne(field: Field, previous: string, value: string, kind: EventType)
    ensures Makes(field, previous, value, kind) ==> previous != value
  {
  }

  /** Retention keeps exactly the events not older than the horizon, and of those the last so many. */
  lemma {:induction false} RetentionExactly(events: seq<Event>, horizon: Option<int>, e: Event)
    ensures e in Retained(events, horizon) <==> e in events && (horizon.None? || horizon.value <= e.at)
    ensures |Retained(events, horizon)| <= |events|
  {
    if events != [] {
      RetentionExactly(events[..|events| - 1], horizon, e);
      assert events == events[..|events| - 1] + [events[|events| - 1]];
    }
  }

  /** Half a hundred thousand when nothing else is configured. */
  lemma LimitExactly(configured: int)
    ensures Maximum(configured) == if configured >= 1 then configured else 50000
  {
  }

  /** Too many events lose their oldest. */
  lemma LastExactly(events: seq<Event>, n: nat)
    ensures |events| <= n ==> Last(events, n) == events
    ensures |events| > n ==> |Last(events, n)| == n && forall i :: 0 <= i < n ==> Last(events, n)[i] == events[|events| - n + i]
  {
  }

  /** Pruning keeps what retention keeps, and of that the last so many; with retention off, only
      the number counts. */
  lemma PrunedExactly(events: seq<Event>, horizon: Option<int>, n: nat, e: Event)
    ensures |Pruned(events, horizon, n)| <= n
    ensures e in Pruned(events, horizon, n) ==> e in events && (horizon.None? || horizon.value <= e.at)
    ensures |events| <= n && e in events && (horizon.None? || horizon.value <= e.at) ==> e in Pruned(events, horizon, n)
  {
    RetentionExactly(events, horizon, e);
    LastExactly(Retained(events, horizon), n);
  }
}
