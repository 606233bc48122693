/** The navigation source as it runs, under its mutex. */
module NavigationSourceClass {
  import opened Wrappers
  import opened FriendTypes
  import opened NavigationSource

  class FriendNavigationSource {
    var navigation: map<Id, Sample>
    var managed: bool
    var accepting: bool
    var generation: nat
    var stopped: bool
    var connection: Connection

    ghost function State(): Source
      reads this
    {
      Source(navigation, managed, accepting, generation, stopped, connection)
    }

    constructor ()
      ensures State() == INITIAL
    {
      navigation, managed, accepting, generation, stopped := map[], false, false, 0, false;
      connection := Connection(false, 0);
    }

    method ClearNavigation()
      modifies this`navigation
      ensures navigation == Cleared(old(navigation))
    {
      var cars := navigation.Keys;
      while |cars| > 0
        invariant navigation.Keys == old(navigation).Keys
        invariant cars <= navigation.Keys
        invariant forall car :: car in navigation ==>
                                  navigation[car] == if car in cars then old(navigation)[car] else Withdrawn(old(navigation)[car])
        decreases |cars|
      {
        var car :| car in cars;
        navigation := navigation[car := navigation[car].(active := false, observation := None)];
        cars := cars - {car};
      }
    }

    method RecordConnection(connected: bool, expected: Option<nat>) returns (ok: bool)
      modifies this`connection
      ensures (connection, ok) == Recorded(old(connection), connected, expected)
    {
      if connected && expected.Some? && connection.epoch != expected.value {
        return false;
      }
      connection := Connection(connected, if connected then connection.epoch else connection.epoch + 1);
      return true;
    }

    method BeginConnection() returns (current: nat, ok: bool)
      modifies this
      ensures State() == Begun(old(State()), false) && current == generation && ok == !stopped
    {
      if stopped {
        return generation, false;
      }
      managed, accepting := true, true;
      generation := generation + 1;
      ClearNavigation();
      return generation, true;
    }

    method OnConnect() returns (current: nat, epoch: nat, ok: bool)
      modifies this
      ensures State() == Begun(old(State()), true) && current == generation && epoch == connection.epoch && ok == !stopped
    {
      current, ok := BeginConnection();
      if ok {
        var _ := RecordConnection(false, None);
      }
      epoch := connection.epoch;
    }

    method Start()
      modifies this
      ensures State() == Started(old(State()))
    {
      managed, accepting, stopped := true, false, false;
    }

    method FinishSubscription(expected: nat, success: bool, epoch: nat) returns (ok: bool)
      modifies this
      ensures State() == Finished(old(State()), expected, success, epoch)
    {
      if stopped || expected != generation {
        return false;
      }
      if success {
        ok := RecordConnection(true, Some(epoch));
        return;
      }
      if connection.epoch != epoch {
        return false;
      }
      accepting := false;
      generation := generation + 1;
      ClearNavigation();
      var _ := RecordConnection(false, None);
      return true;
    }

    method InvalidateConnection()
      modifies this
      ensures State() == Invalidated(old(State()))
    {
      managed, accepting := true, false;
      generation := generation + 1;
      ClearNavigation();
      var _ := RecordConnection(false, None);
    }

    method Stop()
      modifies this
      ensures State() == Stopped(old(State()))
    {
      stopped := true;
      InvalidateConnection();
    }

    method ObserveNavigation(car: Id, payload: Payload, at: int, expected: Option<nat>)
      modifies this`navigation
      ensures State() == Observed(old(State()), car, payload, at, expected)
    {
      if payload.TooLarge? {
        return;
      }
      if expected.Some? && managed && (!accepting || expected.value != generation) {
        return;
      }
      var sample := SampleOf(navigation, car);
      if at < 0 || at < sample.lastObserved {
        return;
      }
      if car !in navigation && |navigation| >= MAX_CARS {
        return;
      }
      sample := sample.(lastObserved := at);
      if !Usable(payload) {
        sample := sample.(active := false, observation := None);
        navigation := navigation[car := sample];
        return;
      }
      var latitude, longitude := payload.latitude, payload.longitude;
      if !sample.active || sample.observation.None? || sample.observation.value.latitude != Some(latitude)
         || sample.observation.value.longitude != Some(longitude) {
        sample := sample.(revision := sample.revision + 1);
      }
      if sample.revision < 1 {
        sample := sample.(revision := 1);
      }
      sample := sample.(active := true,
                        observation := Some(Navigation(sample.revision, None, Some(latitude), Some(longitude),
                                                       Some(payload.miles * KM_PER_MILE), Some(payload.minutes), at)));
      navigation := navigation[car := sample];
    }

    method ReconcileFleet(fleet: set<Id>)
      modifies this`navigation
      ensures State() == Reconciled(old(State()), fleet)
    {
      var cars := navigation.Keys;
      while |cars| > 0
        invariant cars <= navigation.Keys <= old(navigation).Keys
        invariant forall car :: car in navigation ==> navigation[car] == old(navigation)[car] && (car in fleet || car in cars)
        invariant forall car :: car in old(navigation) && car in fleet ==> car in navigation
        decreases |cars|
      {
        var car :| car in cars;
        cars := cars - {car};
        if car !in fleet {
          navigation := navigation - {car};
        }
      }
    }

    method ReadNavigation(car: Id) returns (n: Option<Navigation>)
      ensures n == Read(State(), car)
    {
      if car in navigation && navigation[car].active && navigation[car].observation.Some? {
        return navigation[car].observation;
      }
      return None;
    }
  }
}
