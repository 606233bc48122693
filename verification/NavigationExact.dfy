/** What a route message, a connection and a fleet do to the navigation source, in full. */
module NavigationExact {
  import opened Wrappers
  import opened FriendTypes
  import opened NavigationSource

  /** A complete route within the ranges of the earth and of a day's journey. */
  predicate IsRoute(p: Payload) {
    && p.Route? && -90.0 <= p.latitude <= 90.0 && -180.0 <= p.longitude <= 180.0
    && 0.0 <= p.miles <= 100000.0 && 0.0 <= p.minutes <= 100000.0
  }

  /** The same destination is being shown. */
  predicate Continues(before: Sample, p: Payload)
    requires p.Route?
  {
    && before.active && before.observation.Some?
    && before.observation.value.latitude == Some(p.latitude) && before.observation.value.longitude == Some(p.longitude)
  }

  /** The route as it is observed: its own place, kilometres for miles, its minutes and its time,
      without a destination text; a new number unless the destination continues. */
  lemma RoutedExactly(before: Sample, p: Payload, at: int)
    requires p.Route?
    ensures var r := Routed(before, p, at);
            && r.active && r.lastObserved == at && r.observation.Some?
            && r.revision == (if !Continues(before, p) then if before.revision < 0 then 1 else before.revision + 1
                              else if before.revision < 1 then 1 else before.revision)
            && var n := r.observation.value;
               && n.revision == r.revision && n.destination.None? && n.latitude == Some(p.latitude) && n.longitude == Some(p.longitude)
               && n.remainingKm == Some(p.miles * 1.609344) && n.remainingMinutes == Some(p.minutes) && n.observedAt == at
  {
  }

  /** The message counts: not too large, from the current connection if it comes from one, not older
      than the car's last, and of a car there is room for. */
  predicate Counts(s: Source, car: Id, p: Payload, at: int, generation: Option<nat>) {
    && !p.TooLarge?
    && (generation.Some? && s.managed ==> s.accepting && generation.value == s.generation)
    && at >= 0 && (car in s.navigation ==> at >= s.navigation[car].lastObserved)
    && (car in s.navigation || |s.navigation| < 256)
  }

  /** A message that counts is the car's last one: a route is shown, anything else withdraws what was
      shown; another message, and other cars, change nothing. */
  lemma ObservingExactly(s: Source, car: Id, p: Payload, at: int, generation: Option<nat>)
    ensures var s' := Observed(s, car, p, at, generation);
            var before := if car in s.navigation then s.navigation[car] else Sample(0, None, false, 0);
            && (!Counts(s, car, p, at, generation) ==> s' == s)
            && (Counts(s, car, p, at, generation) ==>
                  && s' == s.(navigation := s'.navigation) && s'.navigation.Keys == s.navigation.Keys + {car}
                  && (forall other :: other in s.navigation && other != car ==> s'.navigation[other] == s.navigation[other])
                  && s'.navigation[car] ==
                     if IsRoute(p) then Routed(before, p, at) else before.(lastObserved := at, active := false, observation := None))
  {
    UsableExactly(p);
    hide Routed, Usable, IsRoute;
  }

  lemma UsableExactly(p: Payload)
    ensures Usable(p) <==> IsRoute(p)
    ensures IsRoute(p) ==> p.Route?
  {
  }

  /** What a read of the car reports is what is shown of it. */
  lemma ReadingExactly(s: Source, car: Id)
    ensures Read(s, car) == if car in s.navigation && s.navigation[car].active then s.navigation[car].observation else None
  {
  }

  /** Every car's route is withdrawn, under the same number. */
  predicate IsCleared(before: map<Id, Sample>, after: map<Id, Sample>) {
    && after.Keys == before.Keys
    && forall car :: car in before ==> after[car] == before[car].(active := false, observation := None)
  }

  /** A connection begins a generation, unless the source has been stopped, and withdraws everything;
      a broker connect also begins an epoch, as not connected. */
  lemma BeginningExactly(s: Source, onConnect: bool)
    ensures var s' := Begun(s, onConnect);
            && (s.stopped ==> s' == s)
            && (!s.stopped ==>
                  && s'.managed && s'.accepting && s'.generation == s.generation + 1 && !s'.stopped && IsCleared(s.navigation, s'.navigation)
                  && s'.connection == if onConnect then Connection(false, s.connection.epoch + 1) else s.connection)
  {
  }

  /** A connection that is lost takes no more messages, ends its generation and its epoch and
      withdraws everything; stopping does the same for good. */
  lemma EndingExactly(s: Source)
    ensures var s' := Invalidated(s);
            && s'.managed && !s'.accepting && s'.generation == s.generation + 1 && s'.stopped == s.stopped
            && IsCleared(s.navigation, s'.navigation) && s'.connection == Connection(false, s.connection.epoch + 1)
    ensures Stopped(s) == Invalidated(s).(stopped := true)
    ensures Started(s) == s.(managed := true, accepting := false, stopped := false)
  {
  }

  /** A subscription counts for its own generation only: it connects if its epoch is still the
      current one, and ends the connection if it failed in it. */
  lemma FinishingExactly(s: Source, generation: nat, success: bool, epoch: nat)
    ensures var s' := Finished(s, generation, success, epoch);
            var counts := !s.stopped && generation == s.generation && s.connection.epoch == epoch;
            && (!counts ==> s' == s)
            && (counts && success ==> s' == s.(connection := Connection(true, epoch)))
            && (counts && !success ==>
                  && !s'.accepting && s'.generation == s.generation + 1 && s'.managed == s.managed && !s'.stopped
                  && IsCleared(s.navigation, s'.navigation) && s'.connection == Connection(false, epoch + 1))
  {
  }

  /** Exactly the cars of the fleet stay, as they are. */
  lemma ReconcilingExactly(s: Source, fleet: set<Id>, car: Id)
    ensures var s' := Reconciled(s, fleet);
            && (car in s'.navigation <==> car in s.navigation && car in fleet)
            && (car in s'.navigation ==> s'.navigation[car] == s.navigation[car])
            && s' == s.(navigation := s'.navigation)
  {
  }
}
