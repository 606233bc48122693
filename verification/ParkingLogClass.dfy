/** The parking event monitor as it runs: caches per car, an event slice pruned in place, and
    the history they stand for. */
module ParkingLogClass {
  import opened Wrappers
  import opened ParkingLog

  const DAY := 24 * 60 * 60 * 1_000_000_000

  function HorizonOf(retention: Option<int>, now: int): Option<int> {
    if retention.None? then None else Some(now - retention.value * DAY)
  }

  type Values = map<Id, map<Field, string>>
  type Marks = map<Id, map<Field, bool>>

  predicate Marked(baselines: Marks, car: Id, field: Field) {
    car in baselines && field in baselines[car] && baselines[car][field]
  }

  /** The caches say exactly what the history's uninterrupted baseline says. */
  ghost predicate Follows(cars: Values, baselines: Marks, history: seq<Entry>, car: Id, field: Field) {
    var previous := Previous(history, car, field);
    && (Marked(baselines, car, field) <==> previous.Some? && Known(previous.value))
    && (previous.Some? ==> car in cars && field in cars[car] && cars[car][field] == previous.value.value)
  }

  lemma Snoc(h: seq<Entry>, e: Entry)
    ensures (h + [e])[..|h|] == h
  {
  }

  function WithValue(cars: Values, m: Message): Values {
    cars[m.car := (if m.car in cars then cars[m.car] else map[])[m.field := m.value]]
  }

  function WithMark(baselines: Marks, m: Message): Marks {
    baselines[m.car := (if m.car in baselines then baselines[m.car] else map[])[m.field := Known(m)]]
  }

  /** Nothing is remembered of a car that is not current. */
  predicate Current(cars: Values, baselines: Marks, lastReceipt: map<Id, int>) {
    (forall id :: id in baselines ==> id in cars) && (forall id :: id in lastReceipt ==> id in cars)
  }

  lemma CachingKeys(cars: Values, baselines: Marks, lastReceipt: map<Id, int>, m: Message)
    requires |cars| < MAX_CURRENT_CARS || (|cars| == MAX_CURRENT_CARS && m.car in cars)
    requires Current(cars, baselines, lastReceipt)
    ensures Current(WithValue(cars, m), WithMark(baselines, m), lastReceipt[m.car := m.at])
    ensures |WithValue(cars, m)| <= MAX_CURRENT_CARS
  {
    hide Known;
  }

  lemma AdmittingKeys(cars: Values, baselines: Marks, lastReceipt: map<Id, int>, newcomer: Id, at: int, cars': Values)
    requires |cars| < MAX_CURRENT_CARS || (|cars| == MAX_CURRENT_CARS && newcomer in cars)
    requires Current(cars, baselines, lastReceipt) && cars' == if newcomer in cars then cars else cars[newcomer := map[]]
    ensures Current(cars', baselines, lastReceipt[newcomer := at]) && |cars'| <= MAX_CURRENT_CARS
  {
  }

  ghost predicate FollowAll(cars: Values, baselines: Marks, history: seq<Entry>) {
    forall car, field :: Follows(cars, baselines, history, car, field)
  }

  lemma CachingFollows(cars: Values, baselines: Marks, history: seq<Entry>, m: Message, cars': Values, baselines': Marks, history': seq<Entry>)
    requires FollowAll(cars, baselines, history)
    requires cars' == WithValue(cars, m) && baselines' == WithMark(baselines, m) && history' == history + [Got(m)]
    ensures FollowAll(cars', baselines', history')
  {
    hide Known;
    Snoc(history, Got(m));
    forall car, field
      ensures Follows(cars', baselines', history', car, field)
    {
      assert Follows(cars, baselines, history, car, field);
    }
  }

  lemma ForgettingFollows(cars: Values, baselines: Marks, history: seq<Entry>, gone: set<Id>, history': seq<Entry>)
    requires FollowAll(cars, baselines, history) && history' == history + [Forgot(gone)]
    ensures FollowAll(cars - gone, baselines - gone, history')
  {
    hide Known;
    Snoc(history, Forgot(gone));
    forall car, field
      ensures Follows(cars - gone, baselines - gone, history', car, field)
    {
      assert Follows(cars, baselines, history, car, field);
    }
  }

  lemma ResettingFollows(cars: Values, history: seq<Entry>, baselines': Marks, history': seq<Entry>)
    requires baselines' == map[] && history' == history + [Reset]
    ensures FollowAll(cars, baselines', history')
  {
    Snoc(history, Reset);
  }

  lemma AdmittingFollows(cars: Values, baselines: Marks, history: seq<Entry>, newcomer: Id, cars': Values)
    requires FollowAll(cars, baselines, history) && newcomer !in cars && cars' == cars[newcomer := map[]]
    ensures FollowAll(cars', baselines, history)
  {
    hide Known;
    forall car, field
      ensures Follows(cars', baselines, history, car, field)
    {
      assert Follows(cars, baselines, history, car, field);
    }
  }

  class ParkingEventMonitor {
    var cars: Values
    var baselines: Marks
    var lastReceipt: map<Id, int>
    var events: seq<Event>
    const maximum: int
    const retention: Option<int>
    ghost const loaded: seq<Event>
    ghost var history: seq<Entry>

    predicate Initialized(car: Id, field: Field)
      reads this`baselines
    {
      Marked(baselines, car, field)
    }

    ghost predicate Valid()
      reads this`cars, this`baselines, this`history, this`lastReceipt
    {
      FollowAll(cars, baselines, history) && Current(cars, baselines, lastReceipt)
    }

    /** With retention off, the stored events are the last of all there ever were, those loaded
        included. */
    ghost predicate LogValid()
      reads this`events, this`history
    {
      retention.None? ==> events == Last(loaded + AllEvents(history), Maximum(maximum))
    }

    /** What is on file is taken over: the events are pruned, the cached values make no event by
        themselves. Without a file both are empty. */
    constructor (configured: int, retentionDays: Option<int>, storedCars: Values, storedEvents: seq<Event>, now: int)
      ensures Valid() && LogValid() && history == [] && cars == storedCars
      ensures maximum == configured && retention == retentionDays
      ensures events == loaded == Pruned(storedEvents, Horizon(now), Maximum(configured))
    {
      cars, baselines, lastReceipt, events, history := storedCars, map[], map[], storedEvents, [];
      maximum, retention := configured, retentionDays;
      loaded := Pruned(storedEvents, HorizonOf(retentionDays, now), Maximum(configured));
      new;
      hide Retained;
      Prune(now);
      assert loaded + AllEvents([]) == loaded;
    }

    /** The current car heard from least recently; equal times by number. */
    method FindOldest() returns (oldest: Id)
      requires cars != map[]
      ensures oldest in cars
      ensures forall id :: id in cars ==>
                             ReceiptOf(oldest) < ReceiptOf(id) || (ReceiptOf(oldest) == ReceiptOf(id) && oldest <= id)
    {
      var ids := cars.Keys;
      oldest :| oldest in ids;
      ids := ids - {oldest};
      while ids != {}
        invariant ids <= cars.Keys && oldest in cars
        invariant forall id :: id in cars && id !in ids ==>
                                 ReceiptOf(oldest) < ReceiptOf(id) || (ReceiptOf(oldest) == ReceiptOf(id) && oldest <= id)
        decreases |ids|
      {
        var id :| id in ids;
        ids := ids - {id};
        if ReceiptOf(id) < ReceiptOf(oldest) || (ReceiptOf(id) == ReceiptOf(oldest) && id < oldest) {
          oldest := id;
        }
      }
    }

    function ReceiptOf(id: Id): int
      reads this`lastReceipt
    {
      if id in lastReceipt then lastReceipt[id] else 0
    }

    /** Everything current about some cars is dropped; past events are not. */
    method Forget(gone: set<Id>)
      requires Valid() && LogValid()
      modifies this`cars, this`baselines, this`lastReceipt, this`history
      ensures Valid() && LogValid() && history == old(history) + [Forgot(gone)]
      ensures cars == old(cars) - gone && lastReceipt == old(lastReceipt) - gone
    {
      hide FollowAll;
      ForgettingFollows(cars, baselines, history, gone, history + [Forgot(gone)]);
      Snoc(history, Forgot(gone));
      cars, baselines, lastReceipt := cars - gone, baselines - gone, lastReceipt - gone;
      history := history + [Forgot(gone)];
    }

    predicate Sooner(a: Id, b: Id)
      reads this`lastReceipt
    {
      ReceiptOf(a) < ReceiptOf(b) || (ReceiptOf(a) == ReceiptOf(b) && a < b)
    }

    /** Makes room for a car: as long as there is none, the car heard from least recently goes.
        Nothing goes when there is room. */
    method BoundCurrentCars(car: Id)
      requires Valid() && LogValid()
      modifies this`cars, this`baselines, this`lastReceipt, this`history
      ensures Valid() && LogValid()
      ensures |cars| < MAX_CURRENT_CARS || (|cars| == MAX_CURRENT_CARS && car in cars)
      ensures |old(history)| <= |history| && history[..|old(history)|] == old(history)
      ensures forall k :: |old(history)| <= k < |history| ==> history[k].Forgot?
      ensures cars.Keys <= old(cars).Keys
      ensures forall gone, kept :: gone in old(cars) && gone !in cars && kept in cars ==> old(Sooner(gone, kept))
      ensures old(|cars| < MAX_CURRENT_CARS || (|cars| == MAX_CURRENT_CARS && car in cars)) ==>
                cars == old(cars) && history == old(history)
    {
      hide FollowAll, AllEvents;
      while |cars| > MAX_CURRENT_CARS || (|cars| == MAX_CURRENT_CARS && car !in cars)
        invariant Valid() && LogValid()
        invariant |old(history)| <= |history| && history[..|old(history)|] == old(history)
        invariant forall k :: |old(history)| <= k < |history| ==> history[k].Forgot?
        invariant cars.Keys <= old(cars).Keys
        invariant forall id :: id in cars ==> ReceiptOf(id) == old(ReceiptOf(id))
        invariant forall gone, kept :: gone in old(cars) && gone !in cars && kept in cars ==> old(Sooner(gone, kept))
        invariant old(|cars| < MAX_CURRENT_CARS || (|cars| == MAX_CURRENT_CARS && car in cars)) ==>
                    cars == old(cars) && history == old(history)
        decreases |cars|
      {
        var oldest := FindOldest();
        assert forall kept :: kept in cars && kept != oldest ==> old(Sooner(oldest, kept));
        Evict(oldest);
      }
    }

    method Evict(id: Id)
      requires Valid() && LogValid() && id in cars
      modifies this`cars, this`baselines, this`lastReceipt, this`history
      ensures Valid() && LogValid() && history == old(history) + [Forgot({id})]
      ensures cars == old(cars) - {id} && |cars| == |old(cars)| - 1
      ensures forall other :: other != id ==> ReceiptOf(other) == old(ReceiptOf(other))
    {
      hide FollowAll, AllEvents;
      Forget({id});
      assert cars.Keys == old(cars).Keys - {id};
    }

    function Horizon(now: int): Option<int> { HorizonOf(retention, now) }

    /** Drops what is too old and then, from the front, what is too much. */
    method Prune(now: int)
      modifies this`events
      ensures events == Pruned(old(events), Horizon(now), Maximum(maximum))
    {
      var horizon := Horizon(now);
      var kept: seq<Event> := [];
      for i := 0 to |events|
        invariant kept == Retained(events[..i], horizon)
      {
        assert events[..i + 1][..i] == events[..i];
        if horizon.None? || events[i].at >= horizon.value {
          kept := kept + [events[i]];
        }
      }
      assert events[..|events|] == events;
      if |kept| > Maximum(maximum) {
        kept := kept[|kept| - Maximum(maximum)..];
      }
      events := kept;
    }

    /** The caches after a message of a car there is room for. */
    method Cache(m: Message)
      requires Valid() && (|cars| < MAX_CURRENT_CARS || (|cars| == MAX_CURRENT_CARS && m.car in cars))
      modifies this`cars, this`baselines, this`lastReceipt, this`history
      ensures Valid() && history == old(history) + [Got(m)] && |cars| <= MAX_CURRENT_CARS
    {
      hide FollowAll, WithValue, WithMark, Current;
      CachingFollows(cars, baselines, history, m, WithValue(cars, m), WithMark(baselines, m), history + [Got(m)]);
      CachingKeys(cars, baselines, lastReceipt, m);
      lastReceipt := lastReceipt[m.car := m.at];
      cars := WithValue(cars, m);
      baselines := WithMark(baselines, m);
      history := history + [Got(m)];
    }

    function CachedValue(car: Id, field: Field): string
      reads this`cars
    {
      if car in cars && field in cars[car] then cars[car][field] else ""
    }

    /** What the caches, before they take the message, say about the event it makes. */
    lemma CachedEvent(m: Message)
      requires Valid()
      ensures EventOf(history, m) ==
              if m.retained || !Known(m) || !Initialized(m.car, m.field) || CachedValue(m.car, m.field) == m.value then None
              else match TypeOf(m.field, CachedValue(m.car, m.field), m.value)
                   case None => None
                   case Some(kind) => Some(Event(m.car, kind, m.field, m.value, m.at))
    {
      hide Known, TypeOf;
      assert Follows(cars, baselines, history, m.car, m.field);
    }

    static lemma LogAdvances(loaded: seq<Event>, h: seq<Entry>, m: Message, stored: seq<Event>, maximum: int)
      requires maximum > 0 && stored == Last(loaded + AllEvents(h), maximum)
      ensures match EventOf(h, m)
              case None => stored == Last(loaded + AllEvents(h + [Got(m)]), maximum)
              case Some(e) => Pruned(stored + [e], None, maximum) == Last(loaded + AllEvents(h + [Got(m)]), maximum)
    {
      hide EventOf, Pruned, Last;
      Snoc(h, Got(m));
      if EventOf(h, m).Some? {
        PruningKeepsLast(stored, loaded + AllEvents(h), EventOf(h, m).value, maximum);
        assert AllEvents(h + [Got(m)]) == AllEvents(h) + [EventOf(h, m).value];
        assert loaded + AllEvents(h + [Got(m)]) == loaded + AllEvents(h) + [EventOf(h, m).value];
      } else {
        assert AllEvents(h + [Got(m)]) == AllEvents(h) + [] == AllEvents(h);
      }
    }

    /** The event, if the message makes one, and the caches. */
    method Record(m: Message)
      requires Valid() && LogValid() && (|cars| < MAX_CURRENT_CARS || (|cars| == MAX_CURRENT_CARS && m.car in cars))
      modifies this`cars, this`baselines, this`lastReceipt, this`history, this`events
      ensures Valid() && LogValid() && |cars| <= MAX_CURRENT_CARS && history == old(history) + [Got(m)]
      ensures events == match EventOf(old(history), m)
                        case None => old(events)
                        case Some(e) => Pruned(old(events) + [e], Horizon(m.at), Maximum(maximum))
    {
      hide Known, TypeOf, Pruned, FollowAll, AllEvents, EventOf, Last;
      var initialized, previous := Initialized(m.car, m.field), CachedValue(m.car, m.field);
      CachedEvent(m);
      if retention.None? {
        LogAdvances(loaded, history, m, events, Maximum(maximum));
      }
      Cache(m);
      if m.retained || !Known(m) || !initialized || previous == m.value {
        return;
      }
      var kind := TypeOf(m.field, previous, m.value);
      if kind.None? {
        return;
      }
      events := events + [Event(m.car, kind.value, m.field, m.value, m.at)];
      Prune(m.at);
    }

    method ObserveMessage(m: Message)
      requires Valid() && LogValid()
      modifies this`cars, this`baselines, this`lastReceipt, this`history, this`events
      ensures Valid() && LogValid() && |cars| <= MAX_CURRENT_CARS
      ensures |history| > |old(history)| && history[..|old(history)|] == old(history) && history[|history| - 1] == Got(m)
      ensures forall k :: |old(history)| <= k < |history| - 1 ==> history[k].Forgot?
      ensures events == match EventOf(history[..|history| - 1], m)
                        case None => old(events)
                        case Some(e) => Pruned(old(events) + [e], Horizon(m.at), Maximum(maximum))
    {
      hide Pruned, FollowAll, AllEvents, EventOf, Last;
      BoundCurrentCars(m.car);
      Snoc(history, Got(m));
      Record(m);
    }

    /** A battery or range reading: it holds a place among the current cars and makes no event. */
    method ObserveReading(car: Id, at: int)
      requires Valid() && LogValid()
      modifies this`cars, this`baselines, this`lastReceipt, this`history
      ensures Valid() && LogValid() && |cars| <= MAX_CURRENT_CARS && car in cars
      ensures |old(history)| <= |history| && history[..|old(history)|] == old(history)
      ensures forall k :: |old(history)| <= k < |history| ==> history[k].Forgot?
    {
      hide AllEvents, FollowAll, Current;
      BoundCurrentCars(car);
      AdmittingKeys(cars, baselines, lastReceipt, car, at, if car in cars then cars else cars[car := map[]]);
      if car !in cars {
        AdmittingFollows(cars, baselines, history, car, cars[car := map[]]);
        cars := cars[car := map[]];
      }
      lastReceipt := lastReceipt[car := at];
    }

    /** The connection is lost or replaced: nothing received before counts as a first value. */
    method ResetMQTTBaseline()
      requires Valid() && LogValid()
      modifies this`baselines, this`history
      ensures Valid() && LogValid() && history == old(history) + [Reset]
    {
      hide FollowAll;
      ResettingFollows(cars, history, map[], history + [Reset]);
      Snoc(history, Reset);
      baselines := map[];
      history := history + [Reset];
    }

    /** Cars outside the fleet are forgotten; what they did stays in the log. */
    method ReconcileFleet(fleet: set<Id>)
      requires Valid() && LogValid()
      modifies this`cars, this`baselines, this`lastReceipt, this`history
      ensures Valid() && LogValid() && cars.Keys == old(cars).Keys * fleet
    {
      hide AllEvents, FollowAll, LogValid;
      var ids := cars.Keys;
      while ids != {}
        invariant Valid() && LogValid()
        invariant ids <= cars.Keys <= old(cars).Keys
        invariant forall id :: id in old(cars) && (id in ids || id in fleet) ==> id in cars
        invariant forall id :: id in cars ==> id in ids || id in fleet
        decreases |ids|
      {
        var id :| id in ids;
        ids := ids - {id};
        if id !in fleet {
          Forget({id});
        }
      }
    }
  }
}
