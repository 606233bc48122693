/** The navigation half of the vehicle source: MQTT connection generations and the numbering
    of active routes per car. */
module NavigationSource {
  import opened Wrappers
  import opened FriendTypes

  const MAX_CARS := 256
  const KM_PER_MILE := 1.609344

  /** An active-route message: unusable, or a complete route. */
  datatype Payload = TooLarge | Incomplete | Route(latitude: real, longitude: real, miles: real, minutes: real)

  datatype Sample = Sample(revision: int, observation: Option<Navigation>, active: bool, lastObserved: int)

  /** The source's registration at the shared MQTT runtime. */
  datatype Connection = Connection(connected: bool, epoch: nat)

  datatype Source = Source(
    navigation: map<Id, Sample>,
    managed: bool,
    accepting: bool,
    generation: nat,
    stopped: bool,
    connection: Connection)

  const NO_SAMPLE := Sample(0, None, false, 0)
  const INITIAL := Source(map[], false, false, 0, false, Connection(false, 0))

  function SampleOf(navigation: map<Id, Sample>, car: Id): Sample {
    if car in navigation then navigation[car] else NO_SAMPLE
  }

  predicate InRange(v: real, low: real, high: real) { low <= v <= high }

  predicate Usable(p: Payload) {
    p.Route? && InRange(p.latitude, -90.0, 90.0) && InRange(p.longitude, -180.0, 180.0)
    && InRange(p.miles, 0.0, 100000.0) && InRange(p.minutes, 0.0, 100000.0)
  }

  predicate SameDestination(observation: Option<Navigation>, p: Payload)
    requires p.Route?
  {
    observation.Some? && observation.value.latitude == Some(p.latitude) && observation.value.longitude == Some(p.longitude)
  }

  // ---------- Steps ----------

  function Withdrawn(s: Sample): Sample { s.(active := false, observation := None) }

  function Cleared(navigation: map<Id, Sample>): map<Id, Sample> {
    map car | car in navigation :: Withdrawn(navigation[car])
  }

  function Recorded(c: Connection, connected: bool, expected: Option<nat>): (Connection, bool) {
    if connected && expected.Some? && c.epoch != expected.value then (c, false)
    else (Connection(connected, if connected then c.epoch else c.epoch + 1), true)
  }

  function Started(s: Source): Source { s.(managed := true, accepting := false, stopped := false) }

  /** A connection begins: on a broker connect, which also opens a new epoch, or when a failed
      subscription is tried again. */
  function Begun(s: Source, onConnect: bool): Source {
    if s.stopped then s
    else s.(managed := true, accepting := true, generation := s.generation + 1, navigation := Cleared(s.navigation),
            connection := if onConnect then Recorded(s.connection, false, None).0 else s.connection)
  }

  function Invalidated(s: Source): Source {
    s.(managed := true, accepting := false, generation := s.generation + 1, navigation := Cleared(s.navigation),
       connection := Recorded(s.connection, false, None).0)
  }

  function Finished(s: Source, generation: nat, success: bool, epoch: nat): Source {
    if s.stopped || generation != s.generation then s
    else if success then s.(connection := Recorded(s.connection, true, Some(epoch)).0)
    else if s.connection.epoch != epoch then s
    else s.(accepting := false, generation := s.generation + 1, navigation := Cleared(s.navigation),
            connection := Recorded(s.connection, false, None).0)
  }

  /** A route for the car observed at `at`: new numbers for new or returning destinations. */
  function Routed(before: Sample, p: Payload, at: int): Sample
    requires p.Route?
  {
    var bumped := if !before.active || !SameDestination(before.observation, p) then before.revision + 1 else before.revision;
    var revision := if bumped < 1 then 1 else bumped;
    Sample(revision,
           Some(Navigation(revision, None, Some(p.latitude), Some(p.longitude), Some(p.miles * KM_PER_MILE), Some(p.minutes), at)),
           true, at)
  }

  predicate Stale(s: Source, generation: Option<nat>) {
    generation.Some? && s.managed && (!s.accepting || generation.value != s.generation)
  }

  function Observed(s: Source, car: Id, p: Payload, at: int, generation: Option<nat>): Source {
    if p.TooLarge? || Stale(s, generation) then s
    else
      var before := SampleOf(s.navigation, car);
      if at < 0 || at < before.lastObserved then s
      else if car !in s.navigation && |s.navigation| >= MAX_CARS then s
      else s.(navigation := s.navigation[car := if Usable(p) then Routed(before, p, at) else Withdrawn(before.(lastObserved := at))])
  }

  function Reconciled(s: Source, fleet: set<Id>): Source {
    s.(navigation := map car | car in s.navigation && car in fleet :: s.navigation[car])
  }

  function Stopped(s: Source): Source { Invalidated(s.(stopped := true)) }

  /** What a read of the car reports. */
  function Read(s: Source, car: Id): Option<Navigation> {
    var n := SampleOf(s.navigation, car);
    if n.active then n.observation else None
  }

  // ---------- Connections ----------

  /** A message handler made for an older connection can no longer change anything, for as long
      as the source runs. */
  lemma StaleHandlersAreInert(s: Source, car: Id, p: Payload, at: int, generation: nat)
    requires s.managed && generation < s.generation
    ensures Observed(s, car, p, at, Some(generation)) == s
  {
  }

  datatype Step =
    | Start
    | Begin(onConnect: bool)
    | Finish(generation: nat, success: bool, epoch: nat)
    | Lose
    | Stop
    | Observe(car: Id, payload: Payload, at: int, handler: Option<nat>)
    | Reconcile(fleet: set<Id>)

  function Apply(s: Source, step: Step): Source {
    match step
    case Start => Started(s)
    case Begin(onConnect) => Begun(s, onConnect)
    case Finish(generation, success, epoch) => Finished(s, generation, success, epoch)
    case Lose => Invalidated(s)
    case Stop => Stopped(s)
    case Observe(car, payload, at, handler) => Observed(s, car, payload, at, handler)
    case Reconcile(fleet) => Reconciled(s, fleet)
  }

  function After(s: Source, steps: seq<Step>): Source {
    if steps == [] then s else Apply(After(s, steps[..|steps| - 1]), steps[|steps| - 1])
  }

  /** Generations never come back: once a connection is lost, ended or replaced, no later message
      of its handlers is observed, whatever happens in between. */
  lemma {:induction false} LostGenerationStaysLost(s: Source, steps: seq<Step>, car: Id, p: Payload, at: int, generation: nat)
    requires s.managed && (generation < s.generation || (generation == s.generation && !s.accepting))
    ensures var later := After(s, steps);
            && later.managed && (generation < later.generation || (generation == later.generation && !later.accepting))
            && Observed(later, car, p, at, Some(generation)) == later
  {
    if steps != [] {
      LostGenerationStaysLost(s, steps[..|steps| - 1], car, p, at, generation);
    }
  }

  /** Nor does the result of a subscription that was requested in an earlier epoch, success or
      failure, ever reach the source: a lost connection is not shown as live again. */
  lemma {:induction false} LateSubscriptionIsInert(s: Source, steps: seq<Step>, generation: nat, success: bool, epoch: nat)
    requires epoch < s.connection.epoch
    ensures var later := After(s, steps);
            && epoch < later.connection.epoch
            && Finished(later, generation, success, epoch) == later
  {
    if steps != [] {
      LateSubscriptionIsInert(s, steps[..|steps| - 1], generation, success, epoch);
    }
  }
}
