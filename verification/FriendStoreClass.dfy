/** The store as it runs: grant records updated in place behind a map, proved against the
    operations of FriendStore. The clock reading of each call is a parameter. */
module FriendStoreClass {
  import opened Wrappers
  import opened FriendTypes
  import FriendProjection
  import opened FriendStore

  class GrantRecord {
    var metadata: Metadata
    const source: SourceKey
    var alias: Option<Alias>
    var revoked: bool
    var expired: bool
    var sequence: int
    var lastServer: int
    var lastMotion: Option<int>
    var lastNavigation: Option<int>
    var lastBattery: Option<int>
    var lastTrajectory: Option<int>
    var lastNavigationRevision: int
    var navigationWithdrawn: bool
    var lastDestination: Option<Destination>

    ghost function Value(): Grant
      reads this
    {
      Grant(metadata, source, alias, revoked, expired, sequence, lastServer, lastMotion, lastNavigation, lastBattery,
            lastTrajectory, lastNavigationRevision, navigationWithdrawn, lastDestination)
    }

    constructor (spec: GrantSpec, now: int)
      ensures Value() == NewGrant(spec, now)
    {
      metadata, source, alias := Metadata(spec.binding, 1, now, spec.expires, spec.permissions), spec.source, spec.alias;
      revoked, expired, sequence, lastServer := false, false, 0, now;
      lastMotion, lastNavigation, lastBattery, lastTrajectory := None, None, None, None;
      lastNavigationRevision, navigationWithdrawn, lastDestination := 0, false, None;
    }

    method CheckActive(now: int) returns (inactive: Option<Error>)
      modifies this`expired
      ensures (Value(), inactive) == Active(old(Value()), now)
    {
      if revoked || expired {
        return Some(Inactive);
      }
      if !ValidTime(now) || now < metadata.consentStarted || now < lastServer {
        return Some(OutOfOrder);
      }
      if now >= metadata.expires {
        expired := true;
        return Some(Inactive);
      }
      return None;
    }

    method Revoke()
      modifies this`revoked, this`metadata
      ensures Value() == RevokedGrant(old(Value()))
    {
      if revoked {
        return;
      }
      revoked := true;
      if metadata.revision < MAX_INT64 {
        metadata := metadata.(revision := metadata.revision + 1);
      }
    }

    method Restrict(permissions: Permissions, expires: int, now: int) returns (result: Result<Metadata, Error>)
      modifies this
      ensures (Value(), result) == RestrictedGrant(old(Value()), permissions, expires, now)
    {
      hide Narrows;
      var inactive := CheckActive(now);
      if inactive.Some? {
        return Err(inactive.value);
      }
      if !Narrows(permissions, expires, metadata, now) {
        return Err(Invalid);
      }
      if metadata.revision == MAX_INT64 {
        return Err(Exhausted);
      }
      metadata := metadata.(revision := metadata.revision + 1, permissions := permissions, expires := expires);
      lastServer := now;
      if !permissions.navigation {
        alias := None;
      }
      return Ok(metadata);
    }

    method CheckOrder(out: Snapshot) returns (inOrder: bool)
      ensures inOrder <==> !OutOfOrderFor(Value(), out)
    {
      if Regressed(out.motion.observedAt, lastMotion) {
        return false;
      }
      if out.battery.Some? && Regressed(Some(out.battery.value.observedAt), lastBattery) {
        return false;
      }
      if out.navigation.Some? {
        var n := out.navigation.value;
        if Regressed(Some(n.observedAt), lastNavigation) || n.revision < lastNavigationRevision
           || (navigationWithdrawn && n.revision <= lastNavigationRevision) {
          return false;
        }
        if n.revision == lastNavigationRevision && lastDestination.Some? {
          var d := lastDestination.value;
          if n.destination != d.alias || n.latitude != d.latitude || n.longitude != d.longitude {
            return false;
          }
        }
      }
      if out.trajectory.Some? && |out.trajectory.value| > 0 {
        var points := out.trajectory.value;
        if Regressed(Some(points[|points| - 1].observedAt), lastTrajectory) {
          return false;
        }
      }
      return true;
    }

    method AcceptNavigation(navigation: Option<Navigation>)
      modifies this`lastNavigation, this`lastNavigationRevision, this`navigationWithdrawn, this`lastDestination
      ensures match navigation
              case Some(n) => lastNavigation == Some(n.observedAt) && lastNavigationRevision == n.revision
                              && !navigationWithdrawn && lastDestination == Some(DestinationOf(n))
              case None => lastNavigation == old(lastNavigation) && lastNavigationRevision == old(lastNavigationRevision)
                           && navigationWithdrawn == (old(navigationWithdrawn) || lastNavigationRevision > 0)
                           && lastDestination == old(lastDestination)
    {
      if navigation.Some? {
        var n := navigation.value;
        lastNavigation, lastNavigationRevision := Some(n.observedAt), n.revision;
        navigationWithdrawn := false;
        lastDestination := Some(Destination(n.destination, n.latitude, n.longitude));
      } else if lastNavigationRevision > 0 {
        navigationWithdrawn := true;
      }
    }

    /** Advance counters and watermarks for a projection that is complete and in order. */
    method Accept(out: Snapshot, now: int)
      modifies this
      ensures Value() == Watermarked(old(Value()), out, now)
    {
      AcceptTimes(out, now);
      AcceptNavigation(out.navigation);
    }

    method AcceptTimes(out: Snapshot, now: int)
      modifies this`sequence, this`lastServer, this`lastMotion, this`lastBattery, this`lastTrajectory
      ensures sequence == old(sequence) + 1 && lastServer == now
      ensures lastMotion == Newer(out.motion.observedAt, old(lastMotion))
      ensures lastBattery == Newer(BatteryTime(out.battery), old(lastBattery))
      ensures lastTrajectory == Newer(LastPoint(out.trajectory), old(lastTrajectory))
    {
      sequence, lastServer := sequence + 1, now;
      if out.motion.observedAt.Some? {
        lastMotion := out.motion.observedAt;
      }
      if out.battery.Some? {
        lastBattery := Some(out.battery.value.observedAt);
      }
      if out.trajectory.Some? && |out.trajectory.value| > 0 {
        var points := out.trajectory.value;
        lastTrajectory := Some(points[|points| - 1].observedAt);
      }
    }

    method ProjectOnto(reading: SourceSnapshot, now: int) returns (result: Result<Snapshot, Error>)
      modifies this
      ensures (Value(), result) == ProjectedOnto(old(Value()), reading, now)
    {
      var inactive := CheckActive(now);
      if inactive.Some? {
        return Err(inactive.value);
      }
      if sequence == MAX_INT64 {
        return Err(Exhausted);
      }
      result := FriendProjection.Project(metadata, alias, reading, now);
      if result.Err? {
        return;
      }
      var inOrder := CheckOrder(result.value);
      if !inOrder {
        return Err(OutOfOrder);
      }
      Accept(result.value, now);
      return Ok(result.value.(sequence := sequence));
    }
  }

  class Store {
    var grants: map<Id, GrantRecord>

    constructor ()
      ensures Valid() && Contents() == map[] && grants == map[]
    {
      grants := map[];
    }

    /** No record is stored under two names. */
    ghost predicate Valid()
      reads this
    {
      forall a, b :: a in grants && b in grants && a != b ==> grants[a] != grants[b]
    }

    ghost function Contents(): Grants
      reads this, grants.Values
    {
      map id | id in grants :: grants[id].Value()
    }

    method Create(owner: Owner, spec: GrantSpec, now: int) returns (result: Result<Metadata, Error>)
      requires Valid()
      modifies this
      ensures Valid() && Outcome(Contents(), result) == Created(old(Contents()), owner, spec, now)
      ensures fresh(grants.Values - old(grants.Values))
    {
      hide ValidSpec, OwnerMatchesRequest, NewGrant;
      assert Contents().Keys == grants.Keys && |Contents().Keys| == |grants.Keys|;
      if !OwnerMatchesRequest(owner, spec.binding, spec.source) {
        return Err(NotAuthorized);
      }
      if !ValidSpec(spec, now) {
        return Err(Invalid);
      }
      if spec.binding.grant in grants {
        return Err(NotAuthorized);
      }
      if |grants| >= MAX_GRANTS {
        return Err(NoCapacity);
      }
      var metadata := Add(spec, now);
      return Ok(metadata);
    }

    method Add(spec: GrantSpec, now: int) returns (metadata: Metadata)
      requires Valid()
      modifies this
      ensures Valid() && Contents() == old(Contents())[spec.binding.grant := NewGrant(spec, now)]
      ensures metadata == NewGrant(spec, now).metadata && fresh(grants.Values - old(grants.Values))
    {
      var g := new GrantRecord(spec, now);
      metadata := g.metadata;
      hide NewGrant;
      grants := grants[spec.binding.grant := g];
    }

    /** The record that exactly this scope and revision names. */
    method FindGrant(binding: Binding, source: SourceKey, revision: int) returns (result: Result<GrantRecord, Error>)
      ensures match OwnerGrant(Contents(), binding, source, revision)
              case Err(e) => result == Err(e)
              case Ok(g) => result.Ok? && binding.grant in grants && result.value == grants[binding.grant]
    {
      if !ValidBinding(binding) || !ValidSource(source) || binding.grant !in grants {
        return Err(NotAuthorized);
      }
      var g := grants[binding.grant];
      if g.metadata.binding != binding || g.source != source {
        return Err(NotAuthorized);
      }
      if revision < 1 || g.metadata.revision != revision {
        return Err(RevisionMismatch);
      }
      return Ok(g);
    }

    method Revoke(owner: Owner, binding: Binding, source: SourceKey, revision: int) returns (result: Result<Metadata, Error>)
      requires Valid()
      modifies grants.Values
      ensures Valid() && Outcome(Contents(), result) == Revoked(old(Contents()), owner, binding, source, revision)
    {
      if !OwnerMatchesRequest(owner, binding, source) {
        return Err(NotAuthorized);
      }
      var found := FindGrant(binding, source, revision);
      if found.Err? {
        return Err(found.error);
      }
      found.value.Revoke();
      OneChanged(binding.grant);
      return Ok(found.value.metadata);
    }

    method Restrict(owner: Owner, binding: Binding, source: SourceKey, revision: int,
                    permissions: Permissions, expires: int, now: int) returns (result: Result<Metadata, Error>)
      requires Valid()
      modifies grants.Values
      ensures Valid()
      ensures Outcome(Contents(), result) == Restricted(old(Contents()), owner, binding, source, revision, permissions, expires, now)
    {
      hide OwnerMatchesRequest, RestrictedGrant;
      if !OwnerMatchesRequest(owner, binding, source) {
        return Err(NotAuthorized);
      }
      var found := FindGrant(binding, source, revision);
      if found.Err? {
        return Err(found.error);
      }
      result := found.value.Restrict(permissions, expires, now);
      OneChanged(binding.grant);
    }

    /** When one record changed, the contents changed under its name only. */
    twostate lemma OneChanged(id: Id)
      requires old(Valid()) && unchanged(this) && id in grants
      requires forall other :: other in grants && other != id ==> unchanged(grants[other])
      ensures Contents() == old(Contents())[id := grants[id].Value()]
    {
    }

    method Project(recipient: Id, binding: Binding, revision: int, reading: SourceSnapshot, now: int)
      returns (result: Result<Snapshot, Error>)
      requires Valid()
      modifies grants.Values
      ensures Valid() && Outcome(Contents(), result) == ProjectedTo(old(Contents()), recipient, binding, revision, reading, now)
    {
      hide ProjectedOnto;
      if recipient == 0 || binding.recipient == 0 || recipient != binding.recipient {
        return Err(NotAuthorized);
      }
      var found := FindGrant(binding, reading.source, revision);
      if found.Err? {
        return Err(found.error);
      }
      result := found.value.ProjectOnto(reading, now);
      OneChanged(binding.grant);
    }

    method PruneTerminalBefore(cutoff: int, now: int)
      requires Valid()
      modifies this
      ensures Valid() && Contents() == Pruned(old(Contents()), cutoff, now) && grants.Values <= old(grants.Values)
    {
      if ValidTime(cutoff) && cutoff <= now {
        DropOver(cutoff, now);
      }
    }

    /** The loop itself: it only drops names. */
    method DropOver(cutoff: int, now: int)
      modifies this
      ensures forall id :: id in grants <==> id in old(grants) && !Over(old(grants)[id].metadata, cutoff, now)
      ensures forall id :: id in grants ==> grants[id] == old(grants)[id]
    {
      var ids := grants.Keys;
      while ids != {}
        invariant ids <= grants.Keys <= old(grants).Keys
        invariant forall id :: id in grants ==> grants[id] == old(grants)[id]
        invariant forall id :: id in old(grants) && id !in ids ==> (id !in grants <==> Over(old(grants)[id].metadata, cutoff, now))
        decreases |ids|
      {
        var id :| id in ids;
        ids := ids - {id};
        if Over(grants[id].metadata, cutoff, now) {
          grants := grants - {id};
        }
      }
    }
  }
}
