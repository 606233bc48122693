/** When the store does what it is asked, when it refuses and with which error, and what it has
    changed afterwards. */
module FriendStoreExact {
  import opened Wrappers
  import opened FriendTypes
  import opened FriendProjection
  import opened FriendStore

  /** Every identifier is valid, and the owner owns exactly this issuer's source. */
  predicate Own(owner: Owner, binding: Binding, source: SourceKey) {
    && binding.grant != 0 && binding.issuer != 0 && binding.session != 0 && binding.member != 0 && binding.recipient != 0
    && source.source != 0 && source.car >= 1 && owner.issuer == binding.issuer && owner.source == source
  }

  /** The grant exists, for exactly this scope and source; its revision may be another. */
  predicate Known(grants: Grants, binding: Binding, source: SourceKey) {
    && binding.grant != 0 && binding.issuer != 0 && binding.session != 0 && binding.member != 0 && binding.recipient != 0
    && source.source != 0 && source.car >= 1
    && binding.grant in grants && grants[binding.grant].metadata.binding == binding && grants[binding.grant].source == source
  }

  predicate At(g: Grant, revision: int) { revision >= 1 && g.metadata.revision == revision }

  predicate Over(g: Grant) { g.revoked || g.expired }

  /** The clock has a valid reading that has not gone back behind anything the grant remembers. */
  predicate ClockStands(g: Grant, now: int) {
    0 <= now <= 253402300799999 && g.metadata.consentStarted <= now && g.lastServer <= now
  }

  predicate Alive(g: Grant, now: int) { !Over(g) && ClockStands(g, now) && now < g.metadata.expires }

  /** What keeps a grant from acting, and the note that it has expired, if that is new. */
  lemma ActiveExactly(g: Grant, now: int)
    ensures var (g', e) := Active(g, now);
            && (e.None? <==> Alive(g, now))
            && (e == Some(OutOfOrder) <==> !Over(g) && !ClockStands(g, now))
            && (e == Some(Inactive) <==> Over(g) || (ClockStands(g, now) && now >= g.metadata.expires))
            && g' == g.(expired := g.expired || (!g.revoked && ClockStands(g, now) && now >= g.metadata.expires))
  {
  }

  // ---------- Creating ----------

  predicate SpecStands(spec: GrantSpec, now: int) {
    && 0 <= now <= 253402300799999 && spec.permissions.location
    && now < spec.expires <= 253402300799999 && spec.expires - now <= 8 * 60 * 60 * 1000
    && (match spec.alias
        case None => true
        case Some(a) => spec.permissions.navigation && a.navigationRevision >= 1 && a.text != "" && |a.text| <= 256)
  }

  /** A grant that nobody has used yet. */
  predicate IsNew(g: Grant, spec: GrantSpec, now: int) {
    && g.metadata.binding == spec.binding && g.metadata.revision == 1 && g.metadata.consentStarted == now
    && g.metadata.expires == spec.expires && g.metadata.permissions == spec.permissions
    && g.source == spec.source && g.alias == spec.alias && !g.revoked && !g.expired && g.sequence == 0 && g.lastServer == now
    && g.lastMotion.None? && g.lastNavigation.None? && g.lastBattery.None? && g.lastTrajectory.None?
    && g.lastNavigationRevision == 0 && !g.navigationWithdrawn && g.lastDestination.None?
  }

  /** A grant is created if and only if the owner is right, the scope stands, the identifier is
      unused and there is room; nothing else changes. */
  lemma CreatedExactly(grants: Grants, owner: Owner, spec: GrantSpec, now: int)
    ensures var o := Created(grants, owner, spec, now);
            var id := spec.binding.grant;
            && (o.result.Ok? <==> Own(owner, spec.binding, spec.source) && SpecStands(spec, now) && id !in grants && |grants| < 64)
            && (o.result == Err(NotAuthorized) <==> !Own(owner, spec.binding, spec.source) || (SpecStands(spec, now) && id in grants))
            && (o.result == Err(Invalid) <==> Own(owner, spec.binding, spec.source) && !SpecStands(spec, now))
            && (o.result.Err? ==> o.grants == grants)
            && (o.result.Ok? ==>
                  && o.grants.Keys == grants.Keys + {id} && IsNew(o.grants[id], spec, now) && o.result.value == o.grants[id].metadata
                  && forall other :: other in grants ==> o.grants[other] == grants[other])
  {
  }

  // ---------- Revoking and restricting ----------

  /** The owner names the grant as it stands. */
  predicate Commands(grants: Grants, owner: Owner, binding: Binding, source: SourceKey, revision: int) {
    Own(owner, binding, source) && Known(grants, binding, source) && At(grants[binding.grant], revision)
  }

  predicate OthersStand(before: Grants, after: Grants, id: Id) {
    after.Keys == before.Keys && forall other :: other in before && other != id ==> after[other] == before[other]
  }

  /** A revocation succeeds if and only if the owner names the grant as it stands; then the grant is
      revoked, under a new revision unless it was already or revisions have run out. */
  lemma RevokedExactly(grants: Grants, owner: Owner, binding: Binding, source: SourceKey, revision: int)
    ensures var o := Revoked(grants, owner, binding, source, revision);
            && (o.result.Ok? <==> Commands(grants, owner, binding, source, revision))
            && (o.result == Err(RevisionMismatch) <==>
                  Own(owner, binding, source) && Known(grants, binding, source) && !At(grants[binding.grant], revision))
            && (o.result.Err? ==> o.grants == grants && o.result.error in {NotAuthorized, RevisionMismatch})
            && (o.result.Ok? ==>
                  var g, g' := grants[binding.grant], if binding.grant in o.grants then o.grants[binding.grant] else grants[binding.grant];
                  && OthersStand(grants, o.grants, binding.grant) && g'.revoked && o.result.value == g'.metadata
                  && g' == g.(revoked := true, metadata := g'.metadata)
                  && g'.metadata == g.metadata.(revision := if g.revoked || g.metadata.revision >= 0x7FFF_FFFF_FFFF_FFFF
                                                            then g.metadata.revision else g.metadata.revision + 1))
  {
  }

  /** Optional permissions only fall away, and the end only comes closer. */
  predicate IsNarrower(permissions: Permissions, expires: int, m: Metadata, now: int) {
    && permissions.location && now < expires <= m.expires && 0 <= expires <= 253402300799999
    && !(permissions.navigation && !m.permissions.navigation) && !(permissions.battery && !m.permissions.battery)
    && !(permissions.trajectory && !m.permissions.trajectory)
  }

  /** A restriction succeeds if and only if the owner names a grant that is alive, narrows it, and
      revisions have not run out. */
  lemma RestrictedExactly(grants: Grants, owner: Owner, binding: Binding, source: SourceKey, revision: int,
                          permissions: Permissions, expires: int, now: int)
    ensures var o := Restricted(grants, owner, binding, source, revision, permissions, expires, now);
            && (o.result.Ok? <==>
                  && Commands(grants, owner, binding, source, revision) && Alive(grants[binding.grant], now)
                  && IsNarrower(permissions, expires, grants[binding.grant].metadata, now)
                  && grants[binding.grant].metadata.revision != 0x7FFF_FFFF_FFFF_FFFF)
            && (!Commands(grants, owner, binding, source, revision) ==> o.grants == grants)
            && (Commands(grants, owner, binding, source, revision) ==> OthersStand(grants, o.grants, binding.grant))
            && (o.result.Ok? && binding.grant in o.grants ==>
                  IsRestricted(grants[binding.grant], o.grants[binding.grant], permissions, expires, now)
                  && o.result.value == o.grants[binding.grant].metadata)
            && (o.result.Err? && Commands(grants, owner, binding, source, revision) && binding.grant in o.grants ==>
                  o.grants[binding.grant] == Active(grants[binding.grant], now).0)
            && (Commands(grants, owner, binding, source, revision) && Alive(grants[binding.grant], now) && o.result.Err? ==>
                  o.result == Err(if IsNarrower(permissions, expires, grants[binding.grant].metadata, now) then Exhausted else Invalid))
            && (Commands(grants, owner, binding, source, revision) && !Alive(grants[binding.grant], now) ==>
                  o.result == Err(if Over(grants[binding.grant]) || ClockStands(grants[binding.grant], now) then Inactive else OutOfOrder))
  {
    hide Narrows, Active;
    if Commands(grants, owner, binding, source, revision) {
      ActiveExactly(grants[binding.grant], now);
      NarrowsExactly(permissions, expires, grants[binding.grant].metadata, now);
    }
  }

  lemma NarrowsExactly(permissions: Permissions, expires: int, m: Metadata, now: int)
    ensures Narrows(permissions, expires, m, now) <==> IsNarrower(permissions, expires, m, now)
  {
  }

  predicate IsRestricted(g: Grant, g': Grant, permissions: Permissions, expires: int, now: int) {
    && g'.metadata == g.metadata.(revision := g.metadata.revision + 1, permissions := permissions, expires := expires)
    && g' == g.(metadata := g'.metadata, lastServer := now, alias := g'.alias)
    && (if permissions.navigation then g'.alias == g.alias else g'.alias.None?)
  }

  // ---------- Projecting ----------

  predicate NotBefore(at: int, last: Option<int>) { last.None? || last.value <= at }

  /** The reading shows nothing that lies behind what the grant was shown before: times may stand
      still, a navigation revision only under the same destination and without a withdrawal. */
  ghost predicate InSequence(g: Grant, source: SourceSnapshot) {
    var consent, p := g.metadata.consentStarted, g.metadata.permissions;
    && (source.motion.Some? && source.motion.value.observedAt.Some? && consent <= source.motion.value.observedAt.value ==>
          NotBefore(source.motion.value.observedAt.value, g.lastMotion))
    && (p.battery && source.battery.Some? && consent <= source.battery.value.observedAt ==>
          NotBefore(source.battery.value.observedAt, g.lastBattery))
    && (p.navigation && source.navigation.Some? && consent <= source.navigation.value.observedAt ==>
          RouteInSequence(g, source.navigation.value))
    && (p.trajectory && (exists t :: t in source.trajectory && consent <= t.observedAt) ==>
          exists t :: t in source.trajectory && consent <= t.observedAt && NotBefore(t.observedAt, g.lastTrajectory))
  }

  predicate RouteInSequence(g: Grant, n: Navigation) {
    && NotBefore(n.observedAt, g.lastNavigation)
    && (|| n.revision > g.lastNavigationRevision
        || (n.revision == g.lastNavigationRevision && !g.navigationWithdrawn
            && (g.lastDestination.Some? ==>
                  && g.lastDestination.value.latitude == n.latitude && g.lastDestination.value.longitude == n.longitude
                  && g.lastDestination.value.alias ==
                     if g.alias.Some? && g.alias.value.navigationRevision == n.revision then Some(g.alias.value.text) else None)))
  }

  lemma LastShownExactly(shown: seq<TrackPoint>, points: seq<TrackPoint>, consent: int, last: Option<int>)
    requires ShowsTrack(shown, points, consent)
    ensures LastPoint(Some(shown)).Some? <==> exists t :: t in points && consent <= t.observedAt
    ensures Regressed(LastPoint(Some(shown)), last)
            <==> (exists t :: t in points && consent <= t.observedAt)
                 && !exists t :: t in points && consent <= t.observedAt && NotBefore(t.observedAt, last)
  {
    if shown != [] {
      var final := shown[|shown| - 1];
      assert final in points && consent <= final.observedAt;
      forall t | t in points && consent <= t.observedAt
        ensures t.observedAt <= final.observedAt
      {
        if t in shown {
          var i :| 0 <= i < |shown| && shown[i] == t;
        }
      }
    }
  }

  lemma OrderExactly(g: Grant, source: SourceSnapshot, now: int)
    requires Projected(g.metadata, g.alias, source, now).Ok?
    ensures OutOfOrderFor(g, Projected(g.metadata, g.alias, source, now).value) <==> !InSequence(g, source)
  {
    ProjectionIsExact(g.metadata, g.alias, source, now);
    hide Projected, ShowsTrack;
    var out := Projected(g.metadata, g.alias, source, now).value;
    if g.metadata.permissions.trajectory {
      LastShownExactly(out.trajectory.value, source.trajectory, g.metadata.consentStarted, g.lastTrajectory);
    }
  }

  /** A grant projects if and only if it is alive, has numbers left, and the reading is acceptable
      and in sequence; the snapshot then shows all of it, under the next number. */
  lemma ProjectsExactly(g: Grant, source: SourceSnapshot, now: int)
    ensures var (g', r) := ProjectedOnto(g, source, now);
            && (r.Ok? <==> Alive(g, now) && g.sequence != 0x7FFF_FFFF_FFFF_FFFF && Acceptable(g.metadata, source, now) && InSequence(g, source))
            && (r.Ok? ==> Shows(r.value, g.metadata, g.alias, source, now) && r.value.sequence == g.sequence + 1)
            && (r.Ok? ==> Remembers(g, g', r.value, now))
            && (r.Err? ==> g' == Active(g, now).0)
            && (!Alive(g, now) ==> r == Err(if Over(g) || ClockStands(g, now) then Inactive else OutOfOrder))
            && (Alive(g, now) && g.sequence == 0x7FFF_FFFF_FFFF_FFFF ==> r == Err(Exhausted))
            && (Alive(g, now) && g.sequence != 0x7FFF_FFFF_FFFF_FFFF && Acceptable(g.metadata, source, now) && !InSequence(g, source) ==>
                  r == Err(OutOfOrder))
  {
    ActiveExactly(g, now);
    ProjectionIsExact(g.metadata, g.alias, source, now);
    hide Active, Acceptable, ShowsTrack, InSequence, OutOfOrderFor, Projected;
    if Acceptable(g.metadata, source, now) {
      OrderExactly(g, source, now);
    }
  }

  /** The grant afterwards: one number further, every category shown has moved its mark, a route
      that is no longer shown counts as withdrawn. */
  ghost predicate Remembers(g: Grant, g': Grant, out: Snapshot, now: int) {
    && g'.metadata == g.metadata && g'.source == g.source && g'.alias == g.alias && !g'.revoked && !g'.expired
    && g'.sequence == g.sequence + 1 && g'.lastServer == now
    && g'.lastMotion == (if out.motion.observedAt.Some? then out.motion.observedAt else g.lastMotion)
    && g'.lastBattery == (if out.battery.Some? then Some(out.battery.value.observedAt) else g.lastBattery)
    && g'.lastTrajectory == (if out.trajectory.Some? && |out.trajectory.value| > 0
                             then Some(out.trajectory.value[|out.trajectory.value| - 1].observedAt) else g.lastTrajectory)
    && (if out.navigation.Some?
        then
          var n := out.navigation.value;
          && g'.lastNavigation == Some(n.observedAt) && g'.lastNavigationRevision == n.revision && !g'.navigationWithdrawn
          && g'.lastDestination == Some(Destination(n.destination, n.latitude, n.longitude))
        else
          && g'.lastNavigation == g.lastNavigation && g'.lastNavigationRevision == g.lastNavigationRevision
          && g'.lastDestination == g.lastDestination && g'.navigationWithdrawn == (g.navigationWithdrawn || g.lastNavigationRevision > 0))
  }

  /** A snapshot is handed out if and only if it is asked for by the grant's own recipient, for the
      grant as it stands and from its own source, and the grant projects. */
  lemma ProjectedExactly(grants: Grants, recipient: Id, binding: Binding, revision: int, source: SourceSnapshot, now: int)
    ensures var o := ProjectedTo(grants, recipient, binding, revision, source, now);
            && (o.result.Ok? <==>
                  && recipient == binding.recipient && Known(grants, binding, source.source) && At(grants[binding.grant], revision)
                  && ProjectedOnto(grants[binding.grant], source, now).1.Ok?)
            && (o.result.Ok? ==> o.result.value == ProjectedOnto(grants[binding.grant], source, now).1.value
                                 && o.grants == grants[binding.grant := ProjectedOnto(grants[binding.grant], source, now).0])
            && (recipient == binding.recipient && Known(grants, binding, source.source) && !At(grants[binding.grant], revision) ==>
                  o.result == Err(RevisionMismatch))
            && (recipient != binding.recipient || !Known(grants, binding, source.source) ==> o.result == Err(NotAuthorized))
  {
    hide ProjectedOnto;
  }

  /** Pruning takes exactly the grants that ended by the cutoff, and only with a clock that has
      reached the cutoff and their end. */
  lemma PrunedExactly(grants: Grants, cutoff: int, now: int, id: Id)
    ensures id in Pruned(grants, cutoff, now)
            <==> id in grants && !(0 <= cutoff <= 253402300799999 && cutoff <= now && grants[id].metadata.expires <= cutoff)
    ensures id in Pruned(grants, cutoff, now) ==> Pruned(grants, cutoff, now)[id] == grants[id]
  {
  }
}
