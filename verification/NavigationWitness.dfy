/** Two runs from a new grant in which the store refuses the source's navigation. */
module NavigationWitness {
  import opened Wrappers
  import opened FriendTypes
  import opened FriendStore
  import opened NavigationSource
  import opened NavigationComposition

  const CAR: Id := 1
  const SPEC := GrantSpec(Binding(1, 2, 3, 4, 5), SourceKey(2, 1), Permissions(true, true, false, false), 1000, None)
  const READING := SourceSnapshot(SourceKey(2, 1), Unknown, None, None, None, [])
  const NORTH := Route(60.0, 25.0, 1.0, 1.0)
  const SOUTH := Route(40.0, 25.0, 1.0, 1.0)
  const SEEN := Navigation(1, None, Some(60.0), Some(25.0), Some(1.0 * KM_PER_MILE), Some(1.0), 0)

  /** The car reports a route, and a guest is shown it. */
  const SHOWING := [(SourceStep(Observe(CAR, NORTH, 0, None)), 0), (StartRead, 0), (EndRead(READING), 0)]

  /** The grant once it has been shown the route. */
  const SHOWN := NewGrant(SPEC, 0).(sequence := 1, lastNavigation := Some(0), lastNavigationRevision := 1,
                                    lastDestination := Some(Destination(None, Some(60.0), Some(25.0))))

  const ROUTED := INITIAL.(navigation := map[CAR := Sample(1, Some(SEEN), true, 0)])
  const AFTER := Share(ROUTED, CAR, SHOWN, None, 0)

  lemma Observes()
    ensures Apply(INITIAL, Observe(CAR, NORTH, 0, None)) == ROUTED
  {
    assert Routed(NO_SAMPLE, NORTH, 0) == Sample(1, Some(SEEN), true, 0);
  }

  lemma Projects()
    ensures ProjectedOnto(NewGrant(SPEC, 0), READING.(navigation := Some(SEEN)), 0).0 == SHOWN
  {
  }

  lemma Shows()
    ensures Unfolds(First(CAR, SPEC, 0), SHOWING) == AFTER && InStep(AFTER)
  {
    Observes();
    Projects();
    hide Apply, ProjectedOnto, InStep, Unfolds;
    var s := First(CAR, SPEC, 0);
    UnfoldsThree(s, SHOWING);
    NewShareInStep(CAR, SPEC, 0);
    SteadyIsHarmless(s, SHOWING);
    HarmlessRunsStayInStep(s, SHOWING);
    assert SHOWING[..|SHOWING|] == SHOWING;
  }

  lemma UnfoldsThree(s: Share, events: seq<(Event, int)>)
    requires |events| == 3
    ensures Unfolds(s, events)
         == Happens(Happens(Happens(s, events[0].0, events[0].1), events[1].0, events[1].1), events[2].0, events[2].1)
  {
    hide Happens;
    assert events[..2][..1] == events[..1] && events[..1][..0] == [];
    assert Unfolds(s, events[..1]) == Happens(s, events[0].0, events[0].1);
    assert Unfolds(s, events[..2]) == Happens(Unfolds(s, events[..1]), events[1].0, events[1].1);
  }

  /** A route is shown, the car leaves the fleet, and its next route is refused. */
  lemma RemovalIsRefused()
    ensures NavigationRefused(Rerouted(Unfolds(First(CAR, SPEC, 0), SHOWING), {}, SOUTH, 1), 1)
  {
    Shows();
    hide NavigationRefused, Unfolds, InStep;
    RemovalRestartsNumbering(AFTER, {}, SOUTH, 1);
  }

  /** A route is shown, one read misses the car, and the next read of the same route is refused. */
  lemma BlindReadIsRefused()
    ensures var missed := Happens(Happens(Unfolds(First(CAR, SPEC, 0), SHOWING), StartBlindRead, 1), EndRead(READING), 1);
            NavigationRefused(Happens(missed, StartRead, 1), 1)
  {
    Shows();
    ProjectsNothing();
    hide NavigationRefused, Unfolds, InStep, ProjectedOnto, Happens;
    BlindReadBreaksStep(AFTER, READING, 1);
  }

  lemma ProjectsNothing()
    ensures ProjectedOnto(SHOWN, READING.(navigation := None), 1).1.Ok?
  {
  }
}
