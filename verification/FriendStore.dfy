/** The in-memory grant store: its operations as functions of the stored grants, and what they
    guarantee over whole runs. */
module FriendStore {
  import opened Wrappers
  import opened FriendTypes
  import opened FriendProjection

  datatype Destination = Destination(alias: Option<string>, latitude: Option<real>, longitude: Option<real>)

  datatype Grant = Grant(
    metadata: Metadata,
    source: SourceKey,
    alias: Option<Alias>,
    revoked: bool,
    expired: bool,
    sequence: int,
    lastServer: int,
    lastMotion: Option<int>,
    lastNavigation: Option<int>,
    lastBattery: Option<int>,
    lastTrajectory: Option<int>,
    lastNavigationRevision: int,
    navigationWithdrawn: bool,
    lastDestination: Option<Destination>)

  type Grants = map<Id, Grant>

  /** The stored grants after an operation, and what the operation answers. */
  datatype Outcome<T> = Outcome(grants: Grants, result: Result<T, Error>)

  // ---------- Operations ----------

  predicate ValidOwner(owner: Owner, binding: Binding, source: SourceKey) {
    owner.issuer != 0 && ValidSource(owner.source) && owner.issuer == binding.issuer && owner.source == source
  }

  predicate OwnerMatchesRequest(owner: Owner, binding: Binding, source: SourceKey) {
    ValidBinding(binding) && ValidSource(source) && ValidOwner(owner, binding, source)
  }

  predicate ValidSpec(spec: GrantSpec, now: int) {
    && ValidTime(now) && spec.permissions.location
    && ValidTime(spec.expires) && now < spec.expires <= now + MAX_GRANT_LIFETIME_MS
    && (spec.alias.Some? ==> spec.permissions.navigation && ValidAlias(spec.alias.value))
  }

  function NewGrant(spec: GrantSpec, now: int): Grant {
    Grant(Metadata(spec.binding, 1, now, spec.expires, spec.permissions), spec.source, spec.alias, false, false, 0, now,
          None, None, None, None, 0, false, None)
  }

  function Created(grants: Grants, owner: Owner, spec: GrantSpec, now: int): Outcome<Metadata> {
    if !OwnerMatchesRequest(owner, spec.binding, spec.source) then Outcome(grants, Err(NotAuthorized))
    else if !ValidSpec(spec, now) then Outcome(grants, Err(Invalid))
    else if spec.binding.grant in grants then Outcome(grants, Err(NotAuthorized))
    else if |grants| >= MAX_GRANTS then Outcome(grants, Err(NoCapacity))
    else
      var g := NewGrant(spec, now);
      Outcome(grants[spec.binding.grant := g], Ok(g.metadata))
  }

  /** The grant that exactly this scope and revision names. */
  function OwnerGrant(grants: Grants, binding: Binding, source: SourceKey, revision: int): (r: Result<Grant, Error>)
    ensures r.Ok? <==> ValidBinding(binding) && ValidSource(source) && binding.grant in grants
                       && grants[binding.grant].metadata.binding == binding && grants[binding.grant].source == source
                       && revision >= 1 && grants[binding.grant].metadata.revision == revision
    ensures r.Ok? ==> r.value == grants[binding.grant]
  {
    if !ValidBinding(binding) || !ValidSource(source) || binding.grant !in grants then Err(NotAuthorized)
    else
      var g := grants[binding.grant];
      if g.metadata.binding != binding || g.source != source then Err(NotAuthorized)
      else if revision < 1 || g.metadata.revision != revision then Err(RevisionMismatch)
      else Ok(g)
  }

  function RevokedGrant(g: Grant): Grant {
    if g.revoked then g
    else g.(revoked := true,
            metadata := g.metadata.(revision := if g.metadata.revision < MAX_INT64 then g.metadata.revision + 1 else g.metadata.revision))
  }

  function Revoked(grants: Grants, owner: Owner, binding: Binding, source: SourceKey, revision: int): Outcome<Metadata> {
    if !OwnerMatchesRequest(owner, binding, source) then Outcome(grants, Err(NotAuthorized))
    else
      match OwnerGrant(grants, binding, source, revision)
      case Err(e) => Outcome(grants, Err(e))
      case Ok(g) =>
        var g' := RevokedGrant(g);
        Outcome(grants[binding.grant := g'], Ok(g'.metadata))
  }

  /** Whether a grant may act now; finding it past its expiry marks it expired for good. */
  function Active(g: Grant, now: int): (Grant, Option<Error>) {
    if g.revoked || g.expired then (g, Some(Inactive))
    else if !ValidTime(now) || now < g.metadata.consentStarted || now < g.lastServer then (g, Some(OutOfOrder))
    else if now >= g.metadata.expires then (g.(expired := true), Some(Inactive))
    else (g, None)
  }

  /** Optional permissions may only be taken away and expiry only brought forward. */
  predicate Narrows(permissions: Permissions, expires: int, m: Metadata, now: int) {
    && permissions.location
    && (permissions.navigation ==> m.permissions.navigation)
    && (permissions.battery ==> m.permissions.battery)
    && (permissions.trajectory ==> m.permissions.trajectory)
    && ValidTime(expires) && now < expires <= m.expires
  }

  function RestrictedGrant(g: Grant, permissions: Permissions, expires: int, now: int): (Grant, Result<Metadata, Error>) {
    var (g1, inactive) := Active(g, now);
    if inactive.Some? then (g1, Err(inactive.value))
    else if !Narrows(permissions, expires, g.metadata, now) then (g, Err(Invalid))
    else if g.metadata.revision == MAX_INT64 then (g, Err(Exhausted))
    else
      var m := g.metadata.(revision := g.metadata.revision + 1, permissions := permissions, expires := expires);
      (g.(metadata := m, lastServer := now, alias := if permissions.navigation then g.alias else None), Ok(m))
  }

  function Restricted(grants: Grants, owner: Owner, binding: Binding, source: SourceKey, revision: int,
                      permissions: Permissions, expires: int, now: int): Outcome<Metadata>
  {
    if !OwnerMatchesRequest(owner, binding, source) then Outcome(grants, Err(NotAuthorized))
    else
      match OwnerGrant(grants, binding, source, revision)
      case Err(e) => Outcome(grants, Err(e))
      case Ok(g) =>
        var (g', result) := RestrictedGrant(g, permissions, expires, now);
        Outcome(grants[binding.grant := g'], result)
  }

  predicate Regressed(current: Option<int>, previous: Option<int>) {
    current.Some? && previous.Some? && current.value < previous.value
  }

  function DestinationOf(n: Navigation): Destination {
    Destination(n.destination, n.latitude, n.longitude)
  }

  /** Navigation may not go back in time or revision, return after a withdrawal under an old
      revision, or change its destination within a revision. */
  predicate NavigationOutOfOrder(g: Grant, n: Navigation) {
    || Regressed(Some(n.observedAt), g.lastNavigation)
    || n.revision < g.lastNavigationRevision
    || (g.navigationWithdrawn && n.revision <= g.lastNavigationRevision)
    || (n.revision == g.lastNavigationRevision && g.lastDestination.Some? && DestinationOf(n) != g.lastDestination.value)
  }

  function LastPoint(trajectory: Option<seq<TrackPoint>>): Option<int> {
    if trajectory.Some? && trajectory.value != [] then Some(trajectory.value[|trajectory.value| - 1].observedAt) else None
  }

  function BatteryTime(battery: Option<Battery>): Option<int> {
    if battery.Some? then Some(battery.value.observedAt) else None
  }

  predicate OutOfOrderFor(g: Grant, out: Snapshot) {
    || Regressed(out.motion.observedAt, g.lastMotion)
    || Regressed(BatteryTime(out.battery), g.lastBattery)
    || (out.navigation.Some? && NavigationOutOfOrder(g, out.navigation.value))
    || Regressed(LastPoint(out.trajectory), g.lastTrajectory)
  }

  function Newer(current: Option<int>, previous: Option<int>): Option<int> {
    if current.Some? then current else previous
  }

  /** The counters and watermarks after a successful projection. */
  function Watermarked(g: Grant, out: Snapshot, now: int): Grant {
    var base := g.(sequence := g.sequence + 1, lastServer := now,
                   lastMotion := Newer(out.motion.observedAt, g.lastMotion),
                   lastBattery := Newer(BatteryTime(out.battery), g.lastBattery),
                   lastTrajectory := Newer(LastPoint(out.trajectory), g.lastTrajectory));
    match out.navigation
    case Some(n) => base.(lastNavigation := Some(n.observedAt), lastNavigationRevision := n.revision,
                          navigationWithdrawn := false, lastDestination := Some(DestinationOf(n)))
    case None => if g.lastNavigationRevision > 0 then base.(navigationWithdrawn := true) else base
  }

  function ProjectedOnto(g: Grant, source: SourceSnapshot, now: int): (Grant, Result<Snapshot, Error>) {
    var (g1, inactive) := Active(g, now);
    if inactive.Some? then (g1, Err(inactive.value))
    else if g.sequence == MAX_INT64 then (g, Err(Exhausted))
    else
      match Projected(g.metadata, g.alias, source, now)
      case Err(e) => (g, Err(e))
      case Ok(out) =>
        if OutOfOrderFor(g, out) then (g, Err(OutOfOrder))
        else (Watermarked(g, out, now), Ok(out.(sequence := g.sequence + 1)))
  }

  function ProjectedTo(grants: Grants, recipient: Id, binding: Binding, revision: int, source: SourceSnapshot, now: int): Outcome<Snapshot> {
    if recipient == 0 || binding.recipient == 0 || recipient != binding.recipient then Outcome(grants, Err(NotAuthorized))
    else
      match OwnerGrant(grants, binding, source.source, revision)
      case Err(e) => Outcome(grants, Err(e))
      case Ok(g) =>
        var (g', out) := ProjectedOnto(g, source, now);
        Outcome(grants[binding.grant := g'], out)
  }

  predicate Over(m: Metadata, cutoff: int, now: int) { m.expires <= cutoff && now >= m.expires }

  function Pruned(grants: Grants, cutoff: int, now: int): Grants {
    if !ValidTime(cutoff) || cutoff > now then grants
    else map id | id in grants && !Over(grants[id].metadata, cutoff, now) :: grants[id]
  }

  // ---------- One projection ----------

  /** A snapshot is only ever made for the exact recipient, scope and revision, while the grant
      is neither revoked nor expired, and it stays within the grant's consent. */
  lemma SnapshotIsAuthorised(grants: Grants, recipient: Id, binding: Binding, revision: int, source: SourceSnapshot, now: int)
    requires ProjectedTo(grants, recipient, binding, revision, source, now).result.Ok?
    ensures binding.grant in grants
    ensures var g := grants[binding.grant];
            var out := ProjectedTo(grants, recipient, binding, revision, source, now).result.value;
            && recipient == binding.recipient && g.metadata.binding == binding && g.source == source.source
            && g.metadata.revision == revision && !g.revoked && !g.expired
            && g.metadata.consentStarted <= now < g.metadata.expires
            && WithinConsent(out, g.metadata) && out.serverTime == now && out.sequence == g.sequence + 1
  {
    var g := grants[binding.grant];
    ProjectionWithinConsent(g.metadata, g.alias, source, now);
  }

  /** A refused projection moves no counter and no watermark; at most it records that the grant
      has passed its expiry. */
  lemma RefusalMovesNothing(grants: Grants, recipient: Id, binding: Binding, revision: int, source: SourceSnapshot, now: int)
    requires ProjectedTo(grants, recipient, binding, revision, source, now).result.Err?
    ensures var after := ProjectedTo(grants, recipient, binding, revision, source, now).grants;
            && after.Keys == grants.Keys
            && forall id :: id in grants ==>
                              || after[id] == grants[id]
                              || (after[id] == grants[id].(expired := true) && now >= grants[id].metadata.expires)
  {
  }

  // ---------- Whole runs ----------

  datatype Operation =
    | Create(owner: Owner, spec: GrantSpec)
    | Revoke(owner: Owner, binding: Binding, source: SourceKey, revision: int)
    | Restrict(owner: Owner, binding: Binding, source: SourceKey, revision: int, permissions: Permissions, expires: int)
    | Project(recipient: Id, binding: Binding, revision: int, reading: SourceSnapshot)
    | Prune(cutoff: int)

  /** The store with, for each stored grant, the snapshots handed out since it was created. */
  datatype World = World(grants: Grants, logs: map<Id, seq<Snapshot>>)

  function LogOf(logs: map<Id, seq<Snapshot>>, id: Id): seq<Snapshot> {
    if id in logs then logs[id] else []
  }

  function Perform(w: World, op: Operation, now: int): World {
    match op
    case Create(owner, spec) =>
      var o := Created(w.grants, owner, spec, now);
      World(o.grants, if o.result.Ok? then w.logs[spec.binding.grant := []] else w.logs)
    case Revoke(owner, binding, source, revision) => w.(grants := Revoked(w.grants, owner, binding, source, revision).grants)
    case Restrict(owner, binding, source, revision, permissions, expires) =>
      w.(grants := Restricted(w.grants, owner, binding, source, revision, permissions, expires, now).grants)
    case Project(recipient, binding, revision, reading) =>
      var o := ProjectedTo(w.grants, recipient, binding, revision, reading, now);
      World(o.grants, if o.result.Ok? then w.logs[binding.grant := LogOf(w.logs, binding.grant) + [o.result.value]] else w.logs)
    case Prune(cutoff) => w.(grants := Pruned(w.grants, cutoff, now))
  }

  /** Any operations whatever, each at whatever the clock then says. */
  function Run(ops: seq<(Operation, int)>): World {
    if ops == [] then World(map[], map[])
    else
      var last := ops[|ops| - 1];
      Perform(Run(ops[..|ops| - 1]), last.0, last.1)
  }

  predicate NotLater(a: Option<int>, b: Option<int>) {
    a.Some? && b.Some? ==> a.value <= b.value
  }

  /** What holds between an earlier and a later snapshot of one grant. */
  ghost predicate InOrder(a: Snapshot, b: Snapshot) {
    && a.serverTime <= b.serverTime
    && NotLater(a.motion.observedAt, b.motion.observedAt)
    && NotLater(BatteryTime(a.battery), BatteryTime(b.battery))
    && NotLater(LastPoint(a.trajectory), LastPoint(b.trajectory))
    && (a.navigation.Some? && b.navigation.Some? ==>
          && a.navigation.value.observedAt <= b.navigation.value.observedAt
          && a.navigation.value.revision <= b.navigation.value.revision
          && (a.navigation.value.revision == b.navigation.value.revision ==>
                DestinationOf(a.navigation.value) == DestinationOf(b.navigation.value)))
  }

  predicate SameRevision(a: Snapshot, b: Snapshot) {
    a.navigation.Some? && b.navigation.Some? && a.navigation.value.revision == b.navigation.value.revision
  }

  /** The snapshots of one grant, in the order they were handed out. */
  ghost predicate OrderedLog(log: seq<Snapshot>) {
    && (forall i :: 0 <= i < |log| ==> log[i].sequence == i + 1)
    && (forall i, j :: 0 <= i < j < |log| ==> InOrder(log[i], log[j]))
    && (forall i, k, j :: 0 <= i < k < j < |log| && SameRevision(log[i], log[j]) ==> log[k].navigation.Some?)
  }

  /** The watermarks of a grant dominate one of its snapshots. */
  ghost predicate Dominates(g: Grant, a: Snapshot) {
    && a.serverTime <= g.lastServer
    && (a.motion.observedAt.Some? ==> g.lastMotion.Some? && a.motion.observedAt.value <= g.lastMotion.value)
    && (BatteryTime(a.battery).Some? ==> g.lastBattery.Some? && BatteryTime(a.battery).value <= g.lastBattery.value)
    && (LastPoint(a.trajectory).Some? ==> g.lastTrajectory.Some? && LastPoint(a.trajectory).value <= g.lastTrajectory.value)
    && (a.navigation.Some? ==>
          && g.lastNavigation.Some? && a.navigation.value.observedAt <= g.lastNavigation.value
          && 1 <= a.navigation.value.revision <= g.lastNavigationRevision
          && (a.navigation.value.revision == g.lastNavigationRevision ==>
                g.lastDestination == Some(DestinationOf(a.navigation.value))))
  }

  ghost predicate Consistent(g: Grant, log: seq<Snapshot>) {
    && OrderedLog(log) && g.sequence == |log|
    && (forall i :: 0 <= i < |log| ==> Dominates(g, log[i]))
    && (forall i, k :: 0 <= i < k < |log| && Continues(g, log[i]) ==> log[k].navigation.Some?)
  }

  /** Snapshot `a` shows the navigation revision the grant is still showing. */
  ghost predicate Continues(g: Grant, a: Snapshot) {
    !g.navigationWithdrawn && a.navigation.Some? && a.navigation.value.revision == g.lastNavigationRevision
  }

  ghost predicate ConsistentWorld(w: World) {
    forall id :: id in w.grants ==> Consistent(w.grants[id], LogOf(w.logs, id))
  }

  lemma DominatedPrecedes(g: Grant, a: Snapshot, source: SourceSnapshot, now: int)
    requires Dominates(g, a) && ProjectedOnto(g, source, now).1.Ok?
    ensures var (g', out) := ProjectedOnto(g, source, now);
            && InOrder(a, out.value) && Dominates(g', a)
            && (SameRevision(a, out.value) ==> Continues(g, a))
            && (Continues(g', a) ==> Continues(g, a) && out.value.navigation.Some?)
  {
    ProjectionWithinConsent(g.metadata, g.alias, source, now);
    hide Projected, WithinConsent;
  }

  lemma ProjectionIsDominated(g: Grant, source: SourceSnapshot, now: int)
    requires ProjectedOnto(g, source, now).1.Ok?
    ensures var (g', out) := ProjectedOnto(g, source, now);
            Dominates(g', out.value) && out.value.sequence == g'.sequence == g.sequence + 1
  {
    ProjectionWithinConsent(g.metadata, g.alias, source, now);
    hide Projected, GoodTrack;
  }

  lemma ProjectionKeepsOrder(g: Grant, log: seq<Snapshot>, source: SourceSnapshot, now: int)
    requires Consistent(g, log)
    ensures var (g', out) := ProjectedOnto(g, source, now);
            Consistent(g', if out.Ok? then log + [out.value] else log)
  {
    hide Projected, InOrder, OutOfOrderFor, Watermarked, SameRevision;
    var (g', out) := ProjectedOnto(g, source, now);
    if out.Ok? {
      ProjectionIsDominated(g, source, now);
      forall i | 0 <= i < |log|
        ensures InOrder(log[i], out.value) && Dominates(g', log[i])
        ensures SameRevision(log[i], out.value) ==> Continues(g, log[i])
        ensures Continues(g', log[i]) ==> Continues(g, log[i]) && out.value.navigation.Some?
      {
        DominatedPrecedes(g, log[i], source, now);
      }
    }
  }

  /** Nothing but a projection moves the watermarks. */
  lemma OthersKeepOrder(g: Grant, g': Grant, log: seq<Snapshot>)
    requires Consistent(g, log)
    requires SameMarks(g, g')
    ensures Consistent(g', log)
  {
    hide OrderedLog;
    forall i | 0 <= i < |log|
      ensures Dominates(g', log[i])
    {
      assert Dominates(g, log[i]);
    }
    forall i, k | 0 <= i < k < |log| && Continues(g', log[i])
      ensures log[k].navigation.Some?
    {
      assert Continues(g, log[i]);
    }
  }

  lemma PerformKeepsOrder(w: World, op: Operation, now: int)
    requires ConsistentWorld(w)
    ensures ConsistentWorld(Perform(w, op, now))
  {
    hide Consistent, Perform;
    var w' := Perform(w, op, now);
    forall id | id in w'.grants
      ensures Consistent(w'.grants[id], LogOf(w'.logs, id))
    {
      if id !in w.grants {
        NewcomerIsConsistent(w, op, now, id);
      } else {
        assert Consistent(w.grants[id], LogOf(w.logs, id));
        if op.Project? {
          ProjectKeepsOrder(w, op, now, id);
        } else {
          OthersKeepMarks(w, op, now, id);
          OthersKeepOrder(w.grants[id], w'.grants[id], LogOf(w.logs, id));
        }
      }
    }
  }

  lemma NewcomerIsConsistent(w: World, op: Operation, now: int, id: Id)
    requires id !in w.grants && id in Perform(w, op, now).grants
    ensures Consistent(Perform(w, op, now).grants[id], LogOf(Perform(w, op, now).logs, id))
  {
    hide Consistent, Projected, ProjectedOnto, RestrictedGrant, RevokedGrant;
    FreshGrantIsConsistent(Perform(w, op, now).grants[id]);
  }

  lemma ProjectKeepsOrder(w: World, op: Operation, now: int, id: Id)
    requires op.Project? && id in w.grants && Consistent(w.grants[id], LogOf(w.logs, id))
    ensures var w' := Perform(w, op, now); id in w'.grants && Consistent(w'.grants[id], LogOf(w'.logs, id))
  {
    hide Consistent, Projected, ProjectedOnto;
    if id == op.binding.grant {
      ProjectionKeepsOrder(w.grants[id], LogOf(w.logs, id), op.reading, now);
    }
  }

  /** Everything the order of snapshots depends on. */
  predicate SameMarks(g: Grant, g': Grant) {
    && g'.sequence == g.sequence && g'.lastServer >= g.lastServer && g'.lastMotion == g.lastMotion
    && g'.lastBattery == g.lastBattery && g'.lastTrajectory == g.lastTrajectory && g'.lastNavigation == g.lastNavigation
    && g'.lastNavigationRevision == g.lastNavigationRevision && g'.navigationWithdrawn == g.navigationWithdrawn
    && g'.lastDestination == g.lastDestination
  }

  lemma OthersKeepMarks(w: World, op: Operation, now: int, id: Id)
    requires !op.Project? && id in w.grants && id in Perform(w, op, now).grants
    ensures var w' := Perform(w, op, now);
            SameMarks(w.grants[id], w'.grants[id]) && LogOf(w'.logs, id) == LogOf(w.logs, id)
  {
    hide ValidSpec, Narrows, OwnerMatchesRequest;
  }

  lemma FreshGrantIsConsistent(g: Grant)
    requires g.sequence == 0
    ensures Consistent(g, [])
  {
  }

  /** Main result on whole runs: whatever operations come in whatever order and whatever the
      clock says, the snapshots handed out under a grant are numbered consecutively; server
      time and the observation time of every category never go back; and snapshots with equal
      navigation revisions show the same destination with no withdrawal between them. */
  lemma {:induction false} SnapshotsAreOrdered(ops: seq<(Operation, int)>)
    ensures ConsistentWorld(Run(ops))
    ensures forall id :: id in Run(ops).grants ==> OrderedLog(LogOf(Run(ops).logs, id))
  {
    if ops != [] {
      SnapshotsAreOrdered(ops[..|ops| - 1]);
      PerformKeepsOrder(Run(ops[..|ops| - 1]), ops[|ops| - 1].0, ops[|ops| - 1].1);
    }
  }

  /** Consent only narrows: no operation gives an existing grant a permission, a later expiry,
      an earlier consent or its life back. */
  ghost predicate OnlyNarrows(before: Grant, after: Grant) {
    && after.metadata.binding == before.metadata.binding && after.source == before.source
    && after.metadata.consentStarted == before.metadata.consentStarted
    && after.metadata.expires <= before.metadata.expires
    && (after.metadata.permissions.navigation ==> before.metadata.permissions.navigation)
    && (after.metadata.permissions.battery ==> before.metadata.permissions.battery)
    && (after.metadata.permissions.trajectory ==> before.metadata.permissions.trajectory)
    && (before.revoked ==> after.revoked) && (before.expired ==> after.expired)
    && before.metadata.revision <= after.metadata.revision && before.sequence <= after.sequence
  }

  lemma ConsentOnlyNarrows(w: World, op: Operation, now: int, id: Id)
    requires id in w.grants && id in Perform(w, op, now).grants
    ensures OnlyNarrows(w.grants[id], Perform(w, op, now).grants[id])
  {
    hide Projected;
  }
}
