/** The navigation source feeding one grant of the store: why its numbering satisfies the
    store's order check, and what breaks it. */
module NavigationComposition {
  import opened Collections
  import opened Wrappers
  import opened FriendTypes
  import opened FriendProjection
  import opened FriendStore
  import opened NavigationSource

  /** One grant for one car, the vehicle source, and a read that is under way: the captured
      navigation waits in `pending` until it is projected. */
  datatype Share = Share(source: Source, car: Id, grant: Grant, pending: Option<Option<Navigation>>, clock: int)

  datatype Event =
    | SourceStep(step: Step)
      /** A read starts; the car is eligible and has a position row. */
    | StartRead
      /** A read starts while the car is not eligible or has no row: no navigation is reported. */
    | StartBlindRead
      /** The read ends in a projection with whatever other data it brought. */
    | EndRead(reading: SourceSnapshot)
      /** The read is abandoned. */
    | AbandonRead
    | NarrowGrant(permissions: Permissions, expires: int)
    | RevokeGrant

  function EndReading(s: Share, reading: SourceSnapshot): SourceSnapshot
    requires s.pending.Some?
  {
    reading.(navigation := s.pending.value)
  }

  /** An event at a clock reading. The event is ignored where it makes no sense: reads of one
      grant are sequential, and the clock does not go back. */
  function Happens(s: Share, e: Event, now: int): Share {
    if now < s.clock then s
    else
      var t := s.(clock := now);
      match e
      case SourceStep(step) => if step.Observe? && step.at > now then t else t.(source := Apply(s.source, step))
      case StartRead => if s.pending.Some? then t else t.(pending := Some(Read(s.source, s.car)))
      case StartBlindRead => if s.pending.Some? then t else t.(pending := Some(None))
      case EndRead(reading) =>
        if s.pending.None? then t
        else t.(pending := None, grant := ProjectedOnto(s.grant, EndReading(s, reading), now).0)
      case AbandonRead => t.(pending := None)
      case NarrowGrant(permissions, expires) => t.(grant := RestrictedGrant(s.grant, permissions, expires, now).0)
      case RevokeGrant => t.(grant := RevokedGrant(s.grant))
  }

  function Unfolds(s: Share, events: seq<(Event, int)>): Share {
    if events == [] then s
    else
      var last := events[|events| - 1];
      Happens(Unfolds(s, events[..|events| - 1]), last.0, last.1)
  }

  /** A share with a new grant, before the source has received anything. */
  function First(car: Id, spec: GrantSpec, now: int): Share {
    Share(INITIAL, car, NewGrant(spec, now), None, now)
  }

  /** Every read finds the car, and the car stays in the fleet. */
  predicate Steady(car: Id, e: Event) {
    && !e.StartBlindRead?
    && (e.SourceStep? && e.step.Reconcile? ==> car in e.step.fleet)
  }

  predicate SteadyRun(car: Id, events: seq<(Event, int)>) {
    forall i :: 0 <= i < |events| ==> Steady(car, events[i].0)
  }

  /** A read that misses the car does no harm while no route is shown or the route held is newer
      than any the grant has been shown, and a removal none while the grant has been shown no
      route and no read holds one. Nothing does harm where navigation is not permitted, and every
      other event is harmless. */
  predicate Harmless(s: Share, e: Event, now: int) {
    s.clock <= now && s.grant.metadata.permissions.navigation ==>
      match e
      case StartBlindRead =>
        var held := SampleOf(s.source.navigation, s.car);
        s.pending.None? ==> !held.active || s.grant.lastNavigationRevision < held.revision
      case SourceStep(Reconcile(fleet)) =>
        s.car !in fleet ==> s.grant.lastNavigationRevision == 0 && (s.pending.Some? ==> s.pending.value.None?)
      case _ => true
  }

  ghost predicate HarmlessRun(s: Share, events: seq<(Event, int)>) {
    forall k :: 0 <= k < |events| ==> Harmless(Unfolds(s, events[..k]), events[k].0, events[k].1)
  }

  /** What the store would see of a captured navigation. */
  function Shown(g: Grant, n: Navigation): Navigation {
    n.(destination := if g.alias.Some? && g.alias.value.navigationRevision == n.revision then Some(g.alias.value.text) else None)
  }

  /** Projecting the pending read now would be refused because of its navigation: either the
      value itself or its place in the order. */
  predicate NavigationRefused(s: Share, now: int) {
    && s.pending.Some? && s.pending.value.Some? && s.grant.metadata.permissions.navigation
    && var out := ProjectNavigation(s.pending.value, true, s.grant.alias, s.grant.metadata.consentStarted, now);
       out.Err? || (out.value.Some? && NavigationOutOfOrder(s.grant, out.value.value))
  }

  // ---------- The invariant ----------

  predicate GoodObservation(n: Navigation, clock: int) {
    && n.revision >= 1 && n.destination.None? && ValidCoordinates(n.latitude, n.longitude)
    && NonNegative(n.remainingKm) && NonNegative(n.remainingMinutes) && 0 <= n.observedAt <= clock
  }

  predicate GoodSample(e: Sample, clock: int) {
    && e.revision >= 0 && 0 <= e.lastObserved <= clock
    && (e.active <==> e.observation.Some?)
    && (e.active ==>
          && GoodObservation(e.observation.value, clock)
          && e.observation.value.revision == e.revision && e.observation.value.observedAt == e.lastObserved)
  }

  predicate SamePlace(a: Navigation, b: Navigation) { a.latitude == b.latitude && a.longitude == b.longitude }

  /** The store's watermarks never run ahead of the source. */
  predicate GrantFollows(g: Grant, e: Sample) {
    && 0 <= g.lastNavigationRevision <= e.revision
    && (g.lastNavigationRevision == 0 ==> g.lastNavigation.None? && !g.navigationWithdrawn && g.lastDestination.None?)
    && (g.lastNavigationRevision > 0 ==>
          g.lastNavigation.Some? && g.metadata.consentStarted <= g.lastNavigation.value <= e.lastObserved
          && g.lastDestination.Some?)
    && (e.active && e.observation.Some? && e.revision == g.lastNavigationRevision ==>
          && !g.navigationWithdrawn
          && g.lastDestination == Some(DestinationOf(Shown(g, e.observation.value))))
  }

  predicate PendingFollows(g: Grant, e: Sample, pending: Option<Navigation>, clock: int) {
    match pending
    case None => e.active ==> g.lastNavigationRevision < e.revision
    case Some(n) =>
      && GoodObservation(n, clock)
      && n.revision <= e.revision && n.observedAt <= e.lastObserved
      && !NavigationOutOfOrder(g, Shown(g, n))
      && (e.active && e.observation.Some? && e.revision == n.revision ==> SamePlace(e.observation.value, n))
  }

  predicate InStepWith(g: Grant, e: Sample, pending: Option<Option<Navigation>>, clock: int) {
    && GoodSample(e, clock)
    && (g.metadata.permissions.navigation ==>
          && GrantFollows(g, e)
          && (pending.Some? ==> PendingFollows(g, e, pending.value, clock)))
  }

  predicate InStep(s: Share) {
    && InStepWith(s.grant, SampleOf(s.source.navigation, s.car), s.pending, s.clock)
    && |s.source.navigation| <= MAX_CARS
  }

  // ---------- One event ----------

  /** What a step of the source can do to the sample of one car. */
  datatype Move = Stay | Withdraw | Misread(at: int) | Reroute(payload: Payload, at: int)

  predicate Timely(e: Sample, m: Move, now: int) {
    match m
    case Misread(at) => 0 <= at && e.lastObserved <= at <= now
    case Reroute(p, at) => Usable(p) && 0 <= at && e.lastObserved <= at <= now
    case _ => true
  }

  function Moved(e: Sample, m: Move): Sample {
    match m
    case Stay => e
    case Withdraw => Withdrawn(e)
    case Misread(at) => Withdrawn(e.(lastObserved := at))
    case Reroute(p, at) => if p.Route? then Routed(e, p, at) else e
  }

  lemma SourceMoves(s: Source, step: Step, car: Id, now: int) returns (m: Move)
    requires step.Observe? ==> step.at <= now
    requires step.Reconcile? ==> car in step.fleet
    ensures var e := SampleOf(s.navigation, car);
            Timely(e, m, now) && SampleOf(Apply(s, step).navigation, car) == Moved(e, m)
  {
    hide Routed;
    match step
    case Begin(onConnect) => m := if s.stopped || car !in s.navigation then Stay else Withdraw;
    case Finish(generation, success, epoch) =>
      m := if Apply(s, step).navigation == s.navigation || car !in s.navigation then Stay else Withdraw;
    case Lose => m := if car in s.navigation then Withdraw else Stay;
    case Stop => m := if car in s.navigation then Withdraw else Stay;
    case Observe(c, p, at, handler) =>
      m := if c != car || Apply(s, step) == s then Stay else if Usable(p) then Reroute(p, at) else Misread(at);
    case _ => m := Stay;
  }

  lemma MovesKeepStep(g: Grant, e: Sample, m: Move, pending: Option<Option<Navigation>>, clock: int, now: int)
    requires InStepWith(g, e, pending, clock) && Timely(e, m, now) && clock <= now
    ensures InStepWith(g, Moved(e, m), pending, now)
  {
  }

  lemma SourceStaysBounded(s: Source, step: Step)
    requires |s.navigation| <= MAX_CARS
    ensures |Apply(s, step).navigation| <= MAX_CARS
  {
    hide Routed;
    var s' := Apply(s, step);
    if !step.Observe? {
      assert s'.navigation.Keys <= s.navigation.Keys;
      SubsetIsNotLarger(s'.navigation.Keys, s.navigation.Keys);
    }
  }

  lemma SourceKeepsStep(s: Share, step: Step, now: int)
    requires InStep(s) && s.clock <= now && (step.Observe? ==> step.at <= now) && (step.Reconcile? ==> s.car in step.fleet)
    ensures InStep(s.(clock := now, source := Apply(s.source, step)))
  {
    hide InStepWith, Apply, Moved;
    var m := SourceMoves(s.source, step, s.car, now);
    MovesKeepStep(s.grant, SampleOf(s.source.navigation, s.car), m, s.pending, s.clock, now);
    SourceStaysBounded(s.source, step);
  }

  /** Forgetting the car's numbering keeps step only where there is nothing to be behind of. */
  lemma DropKeepsStep(s: Share, fleet: set<Id>, now: int)
    requires InStep(s) && s.clock <= now && s.car !in fleet
    ensures InStep(Happens(s, SourceStep(Reconcile(fleet)), now)) <==> Harmless(s, SourceStep(Reconcile(fleet)), now)
  {
    SourceStaysBounded(s.source, Reconcile(fleet));
    assert SampleOf(Reconciled(s.source, fleet).navigation, s.car) == NO_SAMPLE;
  }

  lemma BlindKeepsStep(s: Share, now: int)
    requires InStep(s) && s.clock <= now
    ensures InStep(Happens(s, StartBlindRead, now)) <==> Harmless(s, StartBlindRead, now)
  {
    AbandonKeepsStep(s.grant, SampleOf(s.source.navigation, s.car), s.pending, s.clock, now);
  }

  lemma StartKeepsStep(g: Grant, e: Sample, clock: int)
    requires InStepWith(g, e, None, clock)
    ensures InStepWith(g, e, Some(if e.active then e.observation else None), clock)
  {
  }

  lemma AbandonKeepsStep(g: Grant, e: Sample, pending: Option<Option<Navigation>>, clock: int, now: int)
    requires InStepWith(g, e, pending, clock) && clock <= now
    ensures InStepWith(g, e, None, now) && InStepWith(g, e, pending, now)
  {
  }

  lemma NarrowKeepsStep(g: Grant, e: Sample, pending: Option<Option<Navigation>>, clock: int, permissions: Permissions, expires: int, now: int)
    requires InStepWith(g, e, pending, clock)
    ensures InStepWith(RestrictedGrant(g, permissions, expires, now).0, e, pending, clock)
    ensures InStepWith(RevokedGrant(g), e, pending, clock)
  {
  }

  /** What the projection shows of a navigation in step: all of it, or nothing when it was
      observed before consent. */
  lemma PendingIsShown(g: Grant, e: Sample, n: Navigation, clock: int, now: int)
    requires InStepWith(g, e, Some(Some(n)), clock) && clock <= now <= MAX_TIMESTAMP_MS && g.metadata.permissions.navigation
    ensures ProjectNavigation(Some(n), true, g.alias, g.metadata.consentStarted, now)
         == Ok(if n.observedAt >= g.metadata.consentStarted then Some(Shown(g, n)) else None)
    ensures n.observedAt < g.metadata.consentStarted ==> g.lastNavigationRevision == 0
  {
  }

  lemma ShownKeepsStep(g: Grant, e: Sample, n: Navigation, out: Snapshot, clock: int, now: int)
    requires InStepWith(g, e, Some(Some(n)), clock) && g.metadata.permissions.navigation
    requires out.navigation == if n.observedAt >= g.metadata.consentStarted then Some(Shown(g, n)) else None
    requires n.observedAt < g.metadata.consentStarted ==> g.lastNavigationRevision == 0
    ensures InStepWith(Watermarked(g, out, now), e, None, clock)
  {
  }

  lemma NothingShownKeepsStep(g: Grant, e: Sample, out: Snapshot, clock: int, now: int)
    requires InStepWith(g, e, Some(None), clock) && out.navigation.None?
    ensures InStepWith(Watermarked(g, out, now), e, None, clock)
  {
  }

  lemma EndKeepsStep(g: Grant, e: Sample, pending: Option<Navigation>, reading: SourceSnapshot, clock: int, now: int)
    requires InStepWith(g, e, Some(pending), clock) && clock <= now
    requires reading.navigation == pending
    ensures InStepWith(ProjectedOnto(g, reading, now).0, e, None, now)
  {
    hide PendingFollows, GrantFollows, GoodSample, Watermarked, OutOfOrderFor, ProjectNavigation, ProjectMotion, ProjectBattery,
      ProjectTrajectory;
    AbandonKeepsStep(g, e, Some(pending), clock, now);
    ExpiryKeepsStep(g, e, now);
    var (g', result) := ProjectedOnto(g, reading, now);
    if result.Ok? {
      var out := Projected(g.metadata, g.alias, reading, now).value;
      if !g.metadata.permissions.navigation {
        DeniedKeepsStep(g, e, Some(pending), out, now);
      } else if pending.Some? {
        PendingIsShown(g, e, pending.value, now, now);
        ShownKeepsStep(g, e, pending.value, out, now, now);
      } else {
        NothingPendingIsShown(g, now);
        NothingShownKeepsStep(g, e, out, now, now);
      }
    }
  }

  lemma ExpiryKeepsStep(g: Grant, e: Sample, clock: int)
    requires InStepWith(g, e, None, clock)
    ensures InStepWith(g.(expired := true), e, None, clock)
  {
  }

  lemma DeniedKeepsStep(g: Grant, e: Sample, pending: Option<Option<Navigation>>, out: Snapshot, clock: int)
    requires InStepWith(g, e, pending, clock) && !g.metadata.permissions.navigation
    ensures InStepWith(Watermarked(g, out, clock), e, None, clock)
  {
  }

  lemma NothingPendingIsShown(g: Grant, now: int)
    ensures ProjectNavigation(None, g.metadata.permissions.navigation, g.alias, g.metadata.consentStarted, now) == Ok(None)
  {
  }

  // ---------- Whole runs ----------

  /** The event that breaks step, exactly. */
  lemma EventKeepsStep(s: Share, e: Event, now: int)
    requires InStep(s)
    ensures InStep(Happens(s, e, now)) <==> Harmless(s, e, now)
    ensures Happens(s, e, now).car == s.car
  {
    hide InStepWith, ProjectedOnto, RestrictedGrant, RevokedGrant, Apply;
    var sample := SampleOf(s.source.navigation, s.car);
    if now >= s.clock {
      AbandonKeepsStep(s.grant, sample, s.pending, s.clock, now);
      match e
      case SourceStep(step) =>
        if step.Reconcile? && s.car !in step.fleet {
          DropKeepsStep(s, step.fleet, now);
        } else if !(step.Observe? && step.at > now) {
          SourceKeepsStep(s, step, now);
        }
      case StartRead =>
        if s.pending.None? {
          StartKeepsStep(s.grant, sample, now);
        }
      case StartBlindRead => BlindKeepsStep(s, now);
      case EndRead(reading) =>
        if s.pending.Some? {
          EndKeepsStep(s.grant, sample, s.pending.value, EndReading(s, reading), s.clock, now);
        }
      case AbandonRead =>
      case NarrowGrant(permissions, expires) => NarrowKeepsStep(s.grant, sample, s.pending, now, permissions, expires, now);
      case RevokeGrant => NarrowKeepsStep(s.grant, sample, s.pending, now, s.grant.metadata.permissions, now, now);
    }
  }

  ghost predicate InStepThroughout(s: Share, events: seq<(Event, int)>) {
    forall k :: 0 <= k <= |events| ==> InStep(Unfolds(s, events[..k]))
  }

  lemma ShorterRuns(s: Share, events: seq<(Event, int)>)
    requires events != []
    ensures var before, last := events[..|events| - 1], events[|events| - 1];
            && (InStepThroughout(s, events) <==> InStepThroughout(s, before) && InStep(Unfolds(s, events)))
            && (HarmlessRun(s, events) <==> HarmlessRun(s, before) && Harmless(Unfolds(s, before), last.0, last.1))
  {
    hide Unfolds, InStep, Harmless;
    var before := events[..|events| - 1];
    assert forall k :: 0 <= k <= |before| ==> before[..k] == events[..k];
    assert events[..|events|] == events;
  }

  /** Over a run, the grant stays in step with the source at every moment if and only if every
      event is harmless. */
  lemma {:induction false} HarmlessRunsStayInStep(s: Share, events: seq<(Event, int)>)
    requires InStep(s)
    ensures InStepThroughout(s, events) <==> HarmlessRun(s, events)
    ensures Unfolds(s, events).car == s.car
  {
    hide InStep, Happens, Harmless;
    if events == [] {
      assert events[..0] == events;
    } else {
      var before, last := events[..|events| - 1], events[|events| - 1];
      HarmlessRunsStayInStep(s, before);
      ShorterRuns(s, events);
      var mid := Unfolds(s, before);
      UnfoldsKeepsCar(mid, last.0, last.1);
      if InStepThroughout(s, before) {
        assert before[..|before|] == before && InStep(mid);
        EventKeepsStep(mid, last.0, last.1);
      }
    }
  }

  lemma UnfoldsKeepsCar(s: Share, e: Event, now: int)
    ensures Happens(s, e, now).car == s.car
  {
    hide ProjectedOnto, RestrictedGrant, RevokedGrant, Apply;
  }

  lemma {:induction false} SteadyIsHarmless(s: Share, events: seq<(Event, int)>)
    requires SteadyRun(s.car, events)
    ensures HarmlessRun(s, events) && Unfolds(s, events).car == s.car
  {
    hide Happens;
    if events != [] {
      var before, last := events[..|events| - 1], events[|events| - 1];
      SteadyIsHarmless(s, before);
      ShorterRuns(s, events);
      UnfoldsKeepsCar(Unfolds(s, before), last.0, last.1);
      assert Steady(s.car, last.0);
    }
  }

  lemma InStepIsNotRefused(s: Share, now: int)
    requires InStep(s) && s.clock <= now <= MAX_TIMESTAMP_MS
    ensures !NavigationRefused(s, now)
  {
    hide InStepWith;
    if s.pending.Some? && s.pending.value.Some? && s.grant.metadata.permissions.navigation {
      var e := SampleOf(s.source.navigation, s.car);
      PendingIsShown(s.grant, e, s.pending.value.value, s.clock, now);
      PendingIsOrdered(s.grant, e, s.pending.value.value, s.clock);
    }
  }

  lemma PendingIsOrdered(g: Grant, e: Sample, n: Navigation, clock: int)
    requires InStepWith(g, e, Some(Some(n)), clock) && g.metadata.permissions.navigation
    ensures !NavigationOutOfOrder(g, Shown(g, n))
  {
  }

  lemma NewShareInStep(car: Id, spec: GrantSpec, start: int)
    requires 0 <= start
    ensures InStep(First(car, spec, start))
  {
  }

  /** Main result: over any run of harmless events, the numbering of the source never makes the
      store refuse navigation. */
  lemma {:induction false} HarmlessNavigationIsNeverRefused(car: Id, spec: GrantSpec, start: int, events: seq<(Event, int)>, now: int)
    requires 0 <= start && HarmlessRun(First(car, spec, start), events)
    requires Unfolds(First(car, spec, start), events).clock <= now <= MAX_TIMESTAMP_MS
    ensures !NavigationRefused(Unfolds(First(car, spec, start), events), now)
  {
    hide Unfolds, InStep, HarmlessRun, NavigationRefused;
    NewShareInStep(car, spec, start);
    HarmlessRunsStayInStep(First(car, spec, start), events);
    assert events[..|events|] == events;
    InStepIsNotRefused(Unfolds(First(car, spec, start), events), now);
  }

  /** In particular, however connections come and go, routes change and are withdrawn and the
      grant is narrowed, it is never refused while every read finds the car and the car stays in
      the fleet. */
  lemma {:induction false} SteadyNavigationIsNeverRefused(car: Id, spec: GrantSpec, start: int, events: seq<(Event, int)>, now: int)
    requires 0 <= start && SteadyRun(car, events)
    requires Unfolds(First(car, spec, start), events).clock <= now <= MAX_TIMESTAMP_MS
    ensures !NavigationRefused(Unfolds(First(car, spec, start), events), now)
  {
    hide Unfolds, HarmlessRun, NavigationRefused;
    SteadyIsHarmless(First(car, spec, start), events);
    HarmlessNavigationIsNeverRefused(car, spec, start, events, now);
  }

  // ---------- What the harmful events do ----------

  /** The read that misses the car (`StartBlindRead`, then a successful projection) makes the
      very next read of the car refused exactly when the source still holds the route that the
      grant has been shown; the withdrawal it reported got no new number. */
  lemma BlindReadBreaksStep(s: Share, reading: SourceSnapshot, now: int)
    requires InStep(s) && s.pending.None? && s.grant.metadata.permissions.navigation
    requires s.clock <= now && ProjectedOnto(s.grant, reading.(navigation := None), now).1.Ok?
    ensures var e := SampleOf(s.source.navigation, s.car);
            var blind := Happens(Happens(s, StartBlindRead, now), EndRead(reading), now);
            NavigationRefused(Happens(blind, StartRead, now), now)
            <==> e.active && s.grant.lastNavigationRevision == e.revision
  {
    hide ProjectMotion, ProjectBattery, ProjectTrajectory, OutOfOrderFor;
  }

  /** The next read after the car has left the fleet and a new route for it has been observed. */
  function Rerouted(s: Share, fleet: set<Id>, p: Payload, now: int): Share {
    Happens(Happens(Happens(s, SourceStep(Reconcile(fleet)), now), SourceStep(Observe(s.car, p, now, None)), now), StartRead, now)
  }

  lemma NumberingStartsAgain(s: Share, fleet: set<Id>, p: Payload, now: int)
    requires |s.source.navigation| <= MAX_CARS && s.pending.None? && s.car !in fleet && 0 <= s.clock <= now && Usable(p)
    ensures var after := Rerouted(s, fleet, p, now);
            && after.grant == s.grant && after.pending.Some?
            && (after.pending.value == None || after.pending.value == Routed(NO_SAMPLE, p, now).observation)
            && (s.car in s.source.navigation ==> after.pending.value.Some?)
  {
    assert p.Route?;
    hide Usable;
    var navigation := s.source.navigation;
    var rest := Reconciled(s.source, fleet);
    if s.car in navigation {
      SubsetIsNotLarger(rest.navigation.Keys, navigation.Keys - {s.car});
    }
    assert s.car !in rest.navigation;
    var observed := Observed(rest, s.car, p, now, None);
    assert Happens(Happens(s, SourceStep(Reconcile(fleet)), now), SourceStep(Observe(s.car, p, now, None)), now)
        == s.(clock := now, source := observed);
  }

  /** Taking the car out of the fleet forgets its numbering. A route that is observed then is
      refused exactly when the grant has been shown one before, except for the very route shown
      last, if that was the first the grant was shown and has not been withdrawn. */
  lemma RemovalRestartsNumbering(s: Share, fleet: set<Id>, p: Payload, now: int)
    requires InStep(s) && s.pending.None? && s.grant.metadata.permissions.navigation
    requires s.car !in fleet && s.clock <= now <= MAX_TIMESTAMP_MS && Usable(p)
    ensures NavigationRefused(Rerouted(s, fleet, p, now), now)
            <==> && s.grant.lastNavigationRevision > 0
                 && !(s.grant.lastNavigationRevision == 1 && !s.grant.navigationWithdrawn
                      && s.grant.lastDestination == Some(DestinationOf(Shown(s.grant, Routed(NO_SAMPLE, p, now).observation.value))))
  {
    hide Rerouted;
    NumberingStartsAgain(s, fleet, p, now);
  }
}
