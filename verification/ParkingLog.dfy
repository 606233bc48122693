/** The parking event log as a function of what has been received. */
module ParkingLog {
  import opened Wrappers

  type Id = nat

  const DEFAULT_MAXIMUM := 50000
  const MAX_CURRENT_CARS := 256

  /** A scalar topic. A flag is true or false; some flags are stored without making events. */
  datatype Field = State | ScheduledStart | ChargingState | SunRoofState | Flag(name: string, silent: bool)

  datatype EventType = Turned(name: string, on: bool) | SunRoof(open: bool) | ChargingStarted | ChargingCompleted | ChargingStopped
                     | ChargingNoPower

  datatype Event = Event(car: Id, kind: EventType, field: Field, value: string, at: int)

  /** `parses` says whether the value is a timestamp; it matters for the scheduled start only. */
  datatype Message = Message(car: Id, field: Field, value: string, parses: bool, at: int, retained: bool)

  /** What has happened to the monitor: scalar messages, lost connections, and cars forgotten by
      the fleet or by the bound on current cars. */
  datatype Entry = Got(message: Message) | Reset | Forgot(cars: set<Id>)

  // ---------- One pair of messages ----------

  predicate Known(m: Message) {
    match m.field
    case State => m.value in {"online", "suspended", "asleep", "offline", "driving", "charging", "updating"}
    case ScheduledStart => m.parses
    case ChargingState => m.value in {"disconnected", "starting", "charging", "stopped", "complete", "nopower"}
    case SunRoofState => m.value in {"open", "vent", "moving", "closed"}
    case Flag(_, _) => m.value == "true" || m.value == "false"
  }

  /** Plugged in and waiting is not a stop: only charging can stop. */
  function ChargingType(previous: string, current: string): Option<EventType> {
    if current == "charging" && previous != "charging" then Some(ChargingStarted)
    else if current == "complete" && previous != "complete" then Some(ChargingCompleted)
    else if current == "stopped" && previous == "charging" then Some(ChargingStopped)
    else if current == "nopower" && previous != "nopower" then Some(ChargingNoPower)
    else None
  }

  function TypeOf(field: Field, previous: string, value: string): Option<EventType> {
    match field
    case ChargingState => ChargingType(previous, value)
    case SunRoofState =>
      if value == "open" || value == "vent" || value == "moving" then Some(SunRoof(true))
      else if value == "closed" then Some(SunRoof(false))
      else None
    case Flag(name, silent) =>
      if silent then None
      else if value == "true" then Some(Turned(name, true))
      else if value == "false" then Some(Turned(name, false))
      else None
    case _ => None
  }

  /** The event between two messages of one car and field, the second one live. */
  function EventBetween(previous: Message, m: Message): Option<Event> {
    if m.retained || !Known(m) || !Known(previous) || previous.value == m.value then None
    else
      match TypeOf(m.field, previous.value, m.value)
      case None => None
      case Some(kind) => Some(Event(m.car, kind, m.field, m.value, m.at))
  }

  // ---------- The history ----------

  predicate Same(a: Message, car: Id, field: Field) { a.car == car && a.field == field }

  /** The last message of a car and field in the uninterrupted baseline. */
  function Previous(history: seq<Entry>, car: Id, field: Field): Option<Message> {
    if history == [] then None
    else
      match history[|history| - 1]
      case Reset => None
      case Forgot(cars) => if car in cars then None else Previous(history[..|history| - 1], car, field)
      case Got(m) => if Same(m, car, field) then Some(m) else Previous(history[..|history| - 1], car, field)
  }

  function EventOf(history: seq<Entry>, m: Message): Option<Event> {
    match Previous(history, m.car, m.field)
    case None => None
    case Some(previous) => EventBetween(previous, m)
  }

  /** Every event there ever was. */
  function AllEvents(history: seq<Entry>): seq<Event> {
    if history == [] then []
    else
      var before := history[..|history| - 1];
      match history[|history| - 1]
      case Got(m) => AllEvents(before) + (match EventOf(before, m) case None => [] case Some(e) => [e])
      case _ => AllEvents(before)
  }

  // ---------- Pruning ----------

  function Maximum(configured: int): int { if configured <= 0 then DEFAULT_MAXIMUM else configured }

  /** `horizon` is the oldest time kept, or nothing when retention is off. */
  function Retained(events: seq<Event>, horizon: Option<int>): seq<Event> {
    if events == [] then []
    else
      var kept := Retained(events[..|events| - 1], horizon);
      var last := events[|events| - 1];
      if horizon.Some? && last.at < horizon.value then kept else kept + [last]
  }

  function Last<T>(s: seq<T>, n: int): seq<T> { if n < 0 then [] else if |s| > n then s[|s| - n..] else s }

  function Pruned(events: seq<Event>, horizon: Option<int>, maximum: int): seq<Event> {
    Last(Retained(events, horizon), maximum)
  }

  lemma {:induction false} NoHorizonRetainsAll(events: seq<Event>)
    ensures Retained(events, None) == events
  {
    if events != [] {
      NoHorizonRetainsAll(events[..|events| - 1]);
    }
  }

  /** With retention off, pruning after every event keeps exactly the last `maximum` of all. */
  lemma PruningKeepsLast(stored: seq<Event>, all: seq<Event>, e: Event, maximum: int)
    requires maximum > 0 && stored == Last(all, maximum)
    ensures Pruned(stored + [e], None, maximum) == Last(all + [e], maximum)
  {
    NoHorizonRetainsAll(stored + [e]);
  }

  /** With retention off, a restart from the stored events continues the log as if there had been
      no restart: what is kept is the last `maximum` of all events before and after it. */
  lemma RestartContinuesLog(before: seq<Event>, later: seq<Event>, maximum: int)
    requires maximum > 0
    ensures Last(Pruned(Last(before, maximum), None, maximum) + later, maximum) == Last(before + later, maximum)
  {
    NoHorizonRetainsAll(Last(before, maximum));
    assert Pruned(Last(before, maximum), None, maximum) == Last(before, maximum);
    LastOfMore(before, later, maximum);
  }

  lemma LastOfMore<T>(s: seq<T>, more: seq<T>, n: int)
    requires n > 0
    ensures Last(Last(s, n) + more, n) == Last(s + more, n)
  {
    if |s| > n {
      assert s + more == s[..|s| - n] + (Last(s, n) + more);
    }
  }

  // ---------- What an event means ----------

  /** The message at `j` makes the event together with an earlier one at `i`: same car and
      field, both known, the later one live, different values, and in between no message of that
      car and field, no reset and no forgetting of the car. */
  ghost predicate Adjacent(history: seq<Entry>, i: nat, j: nat) {
    && i < j < |history| && history[i].Got? && history[j].Got?
    && var m := history[j].message;
       && Same(history[i].message, m.car, m.field)
       && forall k :: i < k < j ==>
                        && history[k] != Reset
                        && (history[k].Forgot? ==> m.car !in history[k].cars)
                        && (history[k].Got? ==> !Same(history[k].message, m.car, m.field))
  }

  lemma {:induction false} PreviousIsAdjacent(history: seq<Entry>, car: Id, field: Field) returns (i: nat)
    requires Previous(history, car, field).Some?
    ensures i < |history| && history[i] == Got(Previous(history, car, field).value) && Same(history[i].message, car, field)
    ensures forall k :: i < k < |history| ==>
                          && history[k] != Reset
                          && (history[k].Forgot? ==> car !in history[k].cars)
                          && (history[k].Got? ==> !Same(history[k].message, car, field))
  {
    var last := history[|history| - 1];
    if last.Got? && Same(last.message, car, field) {
      return |history| - 1;
    }
    i := PreviousIsAdjacent(history[..|history| - 1], car, field);
  }

  lemma {:induction false} AdjacentIsPrevious(history: seq<Entry>, i: nat, car: Id, field: Field)
    requires i < |history| && history[i].Got? && Same(history[i].message, car, field)
    requires forall k :: i < k < |history| ==>
                           && history[k] != Reset
                           && (history[k].Forgot? ==> car !in history[k].cars)
                           && (history[k].Got? ==> !Same(history[k].message, car, field))
    ensures Previous(history, car, field) == Some(history[i].message)
    decreases |history|
  {
    if i < |history| - 1 {
      AdjacentIsPrevious(history[..|history| - 1], i, car, field);
    }
  }

  /** Main result on the log's meaning: message `j` adds an event if and only if some earlier
      message is adjacent to it and the two make one. */
  lemma EventsAreTransitions(history: seq<Entry>, j: nat, e: Event)
    requires j < |history| && history[j].Got?
    ensures EventOf(history[..j], history[j].message) == Some(e)
            <==> exists i: nat :: Adjacent(history, i, j) && EventBetween(history[i].message, history[j].message) == Some(e)
  {
    var m := history[j].message;
    hide EventBetween, Known, TypeOf;
    if EventOf(history[..j], m).Some? {
      var i := PreviousIsAdjacent(history[..j], m.car, m.field);
      assert Adjacent(history, i, j);
    }
    forall i: nat | Adjacent(history, i, j)
      ensures Previous(history[..j], m.car, m.field) == Some(history[i].message)
    {
      AdjacentIsPrevious(history[..j], i, m.car, m.field);
    }
  }
}
