/** What follows when a grant has fallen out of step with the navigation source: how long the
    store refuses its navigation, and when it is in step again. */
module NavigationRecovery {
  import opened Wrappers
  import opened FriendTypes
  import opened FriendProjection
  import opened FriendStore
  import opened NavigationSource
  import opened NavigationComposition

  /** `g` has been shown all that `shown` had been shown. */
  predicate GoesOn(shown: Grant, g: Grant) {
    && shown.lastNavigationRevision <= g.lastNavigationRevision
    && (shown.lastNavigation.Some? ==> g.lastNavigation.Some? && shown.lastNavigation.value <= g.lastNavigation.value)
  }

  /** The pending navigation comes from the sample as it is numbered now. */
  predicate PendingIsHeld(e: Sample, pending: Option<Option<Navigation>>, clock: int) {
    pending.Some? && pending.value.Some? ==>
      var n := pending.value.value;
      && GoodObservation(n, clock) && n.revision <= e.revision && n.observedAt <= e.lastObserved
      && (e.active && e.observation.Some? && e.revision == n.revision ==> SamePlace(e.observation.value, n))
  }

  /** The grant has been shown a route, and nothing since. */
  predicate Lagging(shown: Grant, g: Grant, e: Sample, pending: Option<Option<Navigation>>, clock: int) {
    && 0 < g.lastNavigationRevision == shown.lastNavigationRevision
    && g.lastNavigation.Some? && g.lastNavigation == shown.lastNavigation
    && g.metadata.consentStarted <= g.lastNavigation.value && g.lastDestination.Some?
    && PendingIsHeld(e, pending, clock)
  }

  predicate RecoveringWith(shown: Grant, g: Grant, e: Sample, pending: Option<Option<Navigation>>, clock: int) {
    && GoodSample(e, clock)
    && (g.metadata.permissions.navigation ==>
          && GoesOn(shown, g)
          && (InStepWith(g, e, pending, clock) || Lagging(shown, g, e, pending, clock)))
  }

  /** Either in step, or as far behind as `shown` was and not a route further. */
  predicate Recovering(shown: Grant, s: Share) {
    && RecoveringWith(shown, s.grant, SampleOf(s.source.navigation, s.car), s.pending, s.clock)
    && |s.source.navigation| <= MAX_CARS
  }

  /** The store would call a navigation out of order after what the grant had been shown: it was
      observed earlier, or has a lower number, or comes back under the same number after it was
      withdrawn or with another destination. */
  predicate Behind(shown: Grant, g: Grant, n: Navigation) {
    || Regressed(Some(n.observedAt), shown.lastNavigation)
    || n.revision < shown.lastNavigationRevision
    || (n.revision == shown.lastNavigationRevision && (g.navigationWithdrawn || g.lastDestination != Some(DestinationOf(Shown(g, n)))))
  }

  // ---------- How it comes about ----------

  /** Any event that does not take the car away from under a read that holds a route leaves the
      grant recovering, if not in step. */
  lemma AnyEventRecovers(s: Share, e: Event, now: int)
    requires InStep(s)
    requires e.SourceStep? && e.step.Reconcile? && s.car !in e.step.fleet ==> s.pending.None? || s.pending.value.None?
    ensures Recovering(Happens(s, e, now).grant, Happens(s, e, now))
  {
    EventKeepsStep(s, e, now);
    hide ProjectedOnto, RestrictedGrant, RevokedGrant;
    if !Harmless(s, e, now) {
      if e.SourceStep? {
        RemovalRecovers(s, e.step.fleet, now);
      }
    }
  }

  lemma RemovalRecovers(s: Share, fleet: set<Id>, now: int)
    requires InStep(s) && s.clock <= now && s.car !in fleet && (s.pending.None? || s.pending.value.None?)
    ensures Recovering(s.grant, Happens(s, SourceStep(Reconcile(fleet)), now))
  {
    SourceStaysBounded(s.source, Reconcile(fleet));
    assert SampleOf(Reconciled(s.source, fleet).navigation, s.car) == NO_SAMPLE;
  }

  /** A removal under a read that holds a route: the grant is recovering once the read has ended,
      from what that read has shown it. */
  lemma RemovalDuringReadRecovers(s: Share, fleet: set<Id>, reading: SourceSnapshot, now: int)
    requires InStep(s) && s.pending.Some? && s.clock <= now && s.car !in fleet
    ensures var after := Happens(Happens(s, SourceStep(Reconcile(fleet)), now), EndRead(reading), now);
            Recovering(after.grant, after)
  {
    hide ProjectedOnto, InStep, Recovering;
    EventKeepsStep(s, EndRead(reading), now);
    AnyEventRecovers(Happens(s, EndRead(reading), now), SourceStep(Reconcile(fleet)), now);
  }

  /** A removal under a read makes the first route after it refused exactly when the grant has been
      shown one by then, by the same rule as a removal between reads. */
  lemma RemovalDuringReadRestartsNumbering(s: Share, fleet: set<Id>, reading: SourceSnapshot, p: Payload, now: int)
    requires InStep(s) && s.pending.Some? && s.grant.metadata.permissions.navigation
    requires s.car !in fleet && s.clock <= now <= MAX_TIMESTAMP_MS && Usable(p)
    ensures var ended := Happens(Happens(s, SourceStep(Reconcile(fleet)), now), EndRead(reading), now);
            var g := ended.grant;
            NavigationRefused(Happens(Happens(ended, SourceStep(Observe(s.car, p, now, None)), now), StartRead, now), now)
            <==> && g.lastNavigationRevision > 0
                 && !(g.lastNavigationRevision == 1 && !g.navigationWithdrawn
                      && g.lastDestination == Some(DestinationOf(Shown(g, Routed(NO_SAMPLE, p, now).observation.value))))
  {
    hide ProjectedOnto, InStep, NavigationRefused;
    var ended := Happens(s, EndRead(reading), now);
    EventKeepsStep(s, EndRead(reading), now);
    ProjectionGoesOn(s.grant, EndReading(s, reading), now);
    RemovalRestartsNumbering(ended, fleet, p, now);
  }

  // ---------- One event ----------

  lemma MovesKeepRecovering(shown: Grant, g: Grant, e: Sample, m: Move, pending: Option<Option<Navigation>>, clock: int, now: int)
    requires RecoveringWith(shown, g, e, pending, clock) && Timely(e, m, now) && clock <= now
    ensures RecoveringWith(shown, g, Moved(e, m), pending, now)
  {
    if InStepWith(g, e, pending, clock) {
      MovesKeepStep(g, e, m, pending, clock, now);
    }
    hide InStepWith;
  }

  lemma SourceKeepsRecovering(shown: Grant, s: Share, step: Step, now: int)
    requires Recovering(shown, s) && s.clock <= now && (step.Observe? ==> step.at <= now) && (step.Reconcile? ==> s.car in step.fleet)
    ensures Recovering(shown, s.(clock := now, source := Apply(s.source, step)))
  {
    hide RecoveringWith, Apply, Moved;
    var m := SourceMoves(s.source, step, s.car, now);
    MovesKeepRecovering(shown, s.grant, SampleOf(s.source.navigation, s.car), m, s.pending, s.clock, now);
    SourceStaysBounded(s.source, step);
  }

  lemma NarrowKeepsRecovering(shown: Grant, g: Grant, e: Sample, pending: Option<Option<Navigation>>, clock: int,
                              permissions: Permissions, expires: int, now: int)
    requires RecoveringWith(shown, g, e, pending, clock)
    ensures RecoveringWith(shown, RestrictedGrant(g, permissions, expires, now).0, e, pending, clock)
    ensures RecoveringWith(shown, RevokedGrant(g), e, pending, clock)
  {
    if InStepWith(g, e, pending, clock) {
      NarrowKeepsStep(g, e, pending, clock, permissions, expires, now);
    }
    hide InStepWith, PendingIsHeld, GoodSample;
  }

  /** What a projection does to what the grant has been shown. */
  lemma ProjectionGoesOn(g: Grant, reading: SourceSnapshot, now: int)
    ensures var g' := ProjectedOnto(g, reading, now).0;
            GoesOn(g, g') && g'.metadata == g.metadata
  {
    hide ProjectMotion, ProjectBattery, ProjectTrajectory, ProjectNavigation;
  }

  /** A read that ends while the grant lags either shows nothing or brings it into step. */
  lemma EndKeepsLagging(shown: Grant, g: Grant, e: Sample, pending: Option<Navigation>, reading: SourceSnapshot, clock: int, now: int)
    requires GoodSample(e, clock) && Lagging(shown, g, e, Some(pending), clock) && clock <= now && g.metadata.permissions.navigation
    requires reading.navigation == pending
    ensures var g' := ProjectedOnto(g, reading, now).0; Lagging(shown, g', e, None, now) || InStepWith(g', e, None, now)
  {
    hide ProjectMotion, ProjectBattery, ProjectTrajectory;
  }

  lemma EndKeepsRecovering(shown: Grant, g: Grant, e: Sample, pending: Option<Navigation>, reading: SourceSnapshot, clock: int, now: int)
    requires RecoveringWith(shown, g, e, Some(pending), clock) && clock <= now
    requires reading.navigation == pending
    ensures RecoveringWith(shown, ProjectedOnto(g, reading, now).0, e, None, now)
  {
    hide Lagging, InStepWith, ProjectedOnto;
    ProjectionGoesOn(g, reading, now);
    if g.metadata.permissions.navigation {
      if InStepWith(g, e, Some(pending), clock) {
        EndKeepsStep(g, e, pending, reading, clock, now);
      } else {
        EndKeepsLagging(shown, g, e, pending, reading, clock, now);
      }
    }
  }

  lemma HarmlessKeepsRecovering(shown: Grant, s: Share, e: Event, now: int)
    requires Recovering(shown, s) && Harmless(s, e, now)
    ensures Recovering(shown, Happens(s, e, now))
  {
    if now >= s.clock {
      var sample := SampleOf(s.source.navigation, s.car);
      if e.SourceStep? && e.step.Reconcile? && s.car !in e.step.fleet {
        DropKeepsRecovering(shown, s, e.step.fleet, now);
      } else {
        hide RecoveringWith, ProjectedOnto, RestrictedGrant, RevokedGrant, Apply;
        match e
        case SourceStep(step) =>
          if !(step.Observe? && step.at > now) {
            SourceKeepsRecovering(shown, s, step, now);
          }
        case StartRead =>
        case StartBlindRead =>
        case EndRead(reading) =>
          if s.pending.Some? {
            EndKeepsRecovering(shown, s.grant, sample, s.pending.value, EndReading(s, reading), s.clock, now);
          }
        case AbandonRead =>
        case NarrowGrant(permissions, expires) => NarrowKeepsRecovering(shown, s.grant, sample, s.pending, now, permissions, expires, now);
        case RevokeGrant => NarrowKeepsRecovering(shown, s.grant, sample, s.pending, now, s.grant.metadata.permissions, now, now);
      }
    }
  }

  lemma DropKeepsRecovering(shown: Grant, s: Share, fleet: set<Id>, now: int)
    requires Recovering(shown, s) && s.clock <= now && s.car !in fleet && Harmless(s, SourceStep(Reconcile(fleet)), now)
    ensures Recovering(shown, Happens(s, SourceStep(Reconcile(fleet)), now))
  {
    SourceStaysBounded(s.source, Reconcile(fleet));
    assert SampleOf(Reconciled(s.source, fleet).navigation, s.car) == NO_SAMPLE;
  }

  // ---------- Whole runs ----------

  lemma {:induction false} HarmlessRunsRecover(shown: Grant, s: Share, events: seq<(Event, int)>)
    requires Recovering(shown, s) && HarmlessRun(s, events)
    ensures Recovering(shown, Unfolds(s, events))
  {
    hide Recovering, Harmless, Happens;
    if events != [] {
      ShorterRuns(s, events);
      HarmlessRunsRecover(shown, s, events[..|events| - 1]);
      HarmlessKeepsRecovering(shown, Unfolds(s, events[..|events| - 1]), events[|events| - 1].0, events[|events| - 1].1);
    }
  }

  lemma RefusedWhenBehind(shown: Grant, s: Share, now: int)
    requires Recovering(shown, s) && s.clock <= now <= MAX_TIMESTAMP_MS
    ensures NavigationRefused(s, now)
            <==> && s.pending.Some? && s.pending.value.Some? && s.grant.metadata.permissions.navigation
                 && s.grant.metadata.consentStarted <= s.pending.value.value.observedAt
                 && Behind(shown, s.grant, s.pending.value.value)
  {
  }

  /** Main result: from the moment a grant has fallen behind, and as long as nothing else does harm,
      a route is refused exactly when it was observed before the last one the grant had been shown,
      or its number is below that route's, or equal to it while the route was withdrawn or led
      elsewhere. As soon as the numbering is past it, or the grant has been shown a higher number,
      the two are in step again, and navigation is not refused any more. */
  lemma {:induction false} RefusedUntilCaughtUp(s: Share, events: seq<(Event, int)>, now: int)
    requires Recovering(s.grant, s) && HarmlessRun(s, events)
    requires Unfolds(s, events).clock <= now <= MAX_TIMESTAMP_MS
    ensures var u := Unfolds(s, events);
            NavigationRefused(u, now)
            <==> && u.pending.Some? && u.pending.value.Some? && u.grant.metadata.permissions.navigation
                 && u.grant.metadata.consentStarted <= u.pending.value.value.observedAt
                 && Behind(s.grant, u.grant, u.pending.value.value)
    ensures var u := Unfolds(s, events);
            var held := SampleOf(u.source.navigation, u.car);
            u.pending.None? && held.revision > s.grant.lastNavigationRevision && !Regressed(Some(held.lastObserved), s.grant.lastNavigation)
            ==> InStep(u)
    ensures Unfolds(s, events).grant.lastNavigationRevision > s.grant.lastNavigationRevision ==> InStep(Unfolds(s, events))
  {
    hide Unfolds, HarmlessRun, NavigationRefused, Behind;
    HarmlessRunsRecover(s.grant, s, events);
    RefusedWhenBehind(s.grant, Unfolds(s, events), now);
  }
}
