/** Agreement of the consent service with the store behind it, kept by every handler, every
    outcome of saving and every restart. */
module FriendConsent {
  import opened Wrappers
  import opened FriendTypes
  import opened FriendService
  import opened FriendIntegrity
  import S = FriendStore
  import P = FriendProjection

  // ---------- Agreement of the two layers ----------

  /** The store's grant behind an active record. */
  ghost predicate Agrees(issuer: Id, id: Id, g: GrantRecord, store: S.Grants) {
    && id in store
    && store[id].metadata == Metadata(g.view.binding, g.view.revision, g.view.consentStarted, g.view.expires, g.view.permissions)
    && store[id].source == SourceOf(issuer, g.car) && !store[id].revoked
  }

  ghost predicate Agreement(d: Durable, store: S.Grants) {
    forall id :: id in d.grants && d.grants[id].view.status == Active ==> Agrees(d.issuer, id, d.grants[id], store)
  }

  ghost predicate DiskOk(disk: Option<Durable>) {
    disk.Some? ==> Integrity(disk.value) && disk.value.issuer != 0
  }

  ghost predicate Sound(s: Service) {
    && Integrity(s.data) && Agreement(s.data, s.store) && DiskOk(s.disk) && (s.healthy ==> s.data.issuer != 0)
  }

  /** The store still holds what it held, apart from counters and marks of expiry. */
  predicate KeepsGrants(before: S.Grants, after: S.Grants, id: Id) {
    id in before ==>
      && id in after && after[id].metadata == before[id].metadata && after[id].source == before[id].source
      && after[id].revoked == before[id].revoked
  }

  lemma KeepingKeepsAgreement(d: Durable, before: S.Grants, after: S.Grants)
    requires Agreement(d, before) && forall id :: KeepsGrants(before, after, id)
    ensures Agreement(d, after)
  {
    forall id | id in d.grants && d.grants[id].view.status == Active
      ensures Agrees(d.issuer, id, d.grants[id], after)
    {
      assert Agrees(d.issuer, id, d.grants[id], before) && KeepsGrants(before, after, id);
    }
  }

  /** One record and one stored grant change together. */
  lemma PairKeepsAgreement(d: Durable, before: S.Grants, after: S.Grants, id: Id, g: GrantRecord)
    requires Agreement(d, before) && forall other :: other != id ==> KeepsGrants(before, after, other)
    requires g.view.status == Active ==> Agrees(d.issuer, id, g, after)
    ensures Agreement(d.(grants := d.grants[id := g]), after)
  {
    forall other | other != id && other in d.grants && d.grants[other].view.status == Active
      ensures Agrees(d.issuer, other, d.grants[other], after)
    {
      assert Agrees(d.issuer, other, d.grants[other], before) && KeepsGrants(before, after, other);
    }
  }

  // ---------- Saving ----------

  lemma SavingKeepsSound(s: Service, saving: Saving)
    requires Sound(s)
    ensures Sound(Saved(s, saving).0)
    ensures var s' := Saved(s, saving).0; s'.data == s.data.(lastTime := s'.data.lastTime) && s'.store == s.store
  {
    hide Integrity, Agrees;
    TimeKeepsIntegrity(s.data, saving.check);
    TimeKeepsIntegrity(s.data, saving.stamp);
  }

  lemma CheckingKeepsSound(s: Service, now: int)
    requires Sound(s)
    ensures Sound(ClockChecked(s, now))
  {
    hide Integrity, Agrees;
    TimeKeepsIntegrity(s.data, now);
  }

  // ---------- Expiry ----------

  /** The store is pruned by its own clock, yet never of a grant still shown active: what is past
      the cutoff has just expired. */
  lemma CleaningKeepsAgreement(d: Durable, store: S.Grants, now: int, storeNow: int)
    requires Agreement(d, store)
    ensures Agreement(Reclaimed(Lapsed(d, now), now - INVITATION_LIFE_MS), S.Pruned(store, now - INVITATION_LIFE_MS, storeNow))
  {
    hide KeptInvitations, KeptRequests, LapsedRequests;
    var d1 := Lapsed(d, now);
    var store' := S.Pruned(store, now - INVITATION_LIFE_MS, storeNow);
    assert Agreement(d1, store') by {
      forall id | id in d1.grants && d1.grants[id].view.status == Active
        ensures Agrees(d1.issuer, id, d1.grants[id], store')
      {
        assert Agrees(d.issuer, id, d.grants[id], store);
      }
    }
  }

  lemma EnteringKeepsSound(s: Service, entry: Entry)
    requires Sound(s)
    ensures Sound(Entered(s, entry))
  {
    hide Integrity, Agreement, Reclaimed, Lapsed, DiskOk;
    CheckingKeepsSound(s, entry.check);
    var c := ClockChecked(s, entry.check);
    LapsingKeepsIntegrity(c.data, entry.expire);
    ReclaimingKeepsIntegrity(Lapsed(c.data, entry.expire), entry.expire - INVITATION_LIFE_MS);
    CleaningKeepsAgreement(c.data, c.store, entry.expire, entry.prune);
    assert Reclaimed(Lapsed(c.data, entry.expire), entry.expire - INVITATION_LIFE_MS).issuer == c.data.issuer by {
      CleaningKeepsIssuer(c.data, entry.expire);
    }
  }

  lemma CleaningKeepsIssuer(d: Durable, now: int)
    ensures Reclaimed(Lapsed(d, now), now - INVITATION_LIFE_MS).issuer == d.issuer
  {
  }

  // ---------- Handlers ----------

  lemma InvitingKeepsSound(s: Service, f: InvitationForm, owns: Option<bool>, draw: Draw, now: int, saving: Saving)
    requires Sound(s) && (draw.invitation == 0 || draw.invitation !in s.data.invitations)
    ensures Sound(InvitationMade(s, f, owns, draw, now, saving).0)
  {
    hide Integrity, Saved, DiskOk, Agreement;
    if ValidForm(f) && !AtCapacity(s.data) && draw.invitation != 0 {
      var inv := NewInvitation(s.data.issuer, f, draw, now);
      InvitingKeepsIntegrity(s.data, draw.invitation, inv);
      var d := s.data.(invitations := s.data.invitations[draw.invitation := inv]);
      SameGrantsKeepAgreement(s.data, d, s.store);
      SavingKeepsSound(s.(data := d), saving);
    }
  }

  lemma SameGrantsKeepAgreement(d: Durable, d': Durable, store: S.Grants)
    requires Agreement(d, store) && d'.issuer == d.issuer && d'.grants == d.grants
    ensures Agreement(d', store)
  {
    hide Agrees;
  }

  lemma RedeemingKeepsSound(s: Service, f: RedeemForm, id: Id, token: Id, now: int, created: int, saving: Saving)
    requires Sound(s) && (id == 0 || id !in s.data.requests)
    ensures Sound(Redeemed(s, f, id, token, now, created, saving).0)
  {
    hide Integrity, Saved, DiskOk, Agreement;
    if RedeemRefused(s.data, f, now).None? && id != 0 {
      var inv := s.data.invitations[f.invitation];
      var r := Request(f.recipient, f.key, created, inv.expires, Pending, f.invitation, token, None);
      JoiningKeepsIntegrity(s.data, id, r);
      var d := s.data.(requests := s.data.requests[id := r], invitations := s.data.invitations[f.invitation := inv.(used := true)]);
      SameGrantsKeepAgreement(s.data, d, s.store);
      SavingKeepsSound(s.(data := d), saving);
    }
  }

  lemma ClosingKeepsSound(s: Service, id: Id, status: Status, saving: Saving)
    requires Sound(s) && Closable(s.data, id) && (status == Rejected || status == Expired)
    ensures var d := s.data.(requests := s.data.requests[id := s.data.requests[id].(status := status)]);
            Sound(s.(data := d)) && Sound(Saved(s.(data := d), saving).0)
  {
    hide Integrity, Saved, DiskOk, Agreement;
    var d := s.data.(requests := s.data.requests[id := s.data.requests[id].(status := status)]);
    ClosingKeepsIntegrity(s.data, id, status);
    SameGrantsKeepAgreement(s.data, d, s.store);
    SavingKeepsSound(s.(data := d), saving);
  }

  /** What a successful creation in the store gives the new record. */
  lemma CreationMatches(s: Service, id: Id, grant: Id, a: Approval, origin: Option<Id>)
    requires Integrity(s.data) && id in s.data.requests && s.data.requests[id].invitation in s.data.invitations
    requires s.data.requests[id].expires > a.at && s.data.invitations[s.data.requests[id].invitation].expires > a.at
    requires origin.Some? ==> origin.value != 0
    requires CreationFor(s, id, grant, a).result.Ok?
    ensures var inv := s.data.invitations[s.data.requests[id].invitation];
            var o := CreationFor(s, id, grant, a);
            var g := GrantRecord(ViewOf(o.result.value, Active, origin), inv.car, id, 0);
            && GrantOk(s.data.issuer, grant, g) && Agrees(s.data.issuer, grant, g, o.grants) && grant !in s.store
            && g.view.binding.recipient == s.data.requests[id].recipient
            && Within(g.view.permissions, inv.permissions) && g.view.expires < inv.expires + inv.duration * 1000
            && forall other :: other != grant ==> KeepsGrants(s.store, o.grants, other)
  {
    hide Integrity;
  }

  lemma FailedCreationKeeps(grants: S.Grants, owner: Owner, spec: GrantSpec, now: int)
    ensures forall id :: KeepsGrants(grants, S.Created(grants, owner, spec, now).grants, id)
  {
    hide S.ValidSpec, S.OwnerMatchesRequest;
  }

  lemma GrantingKeepsSound(s: Service, id: Id, owner: Id, grant: Id, a: Approval, saving: Saving)
    requires Sound(s) && id in s.data.requests && s.data.requests[id].status == Pending
    requires s.data.requests[id].invitation in s.data.invitations && grant !in s.data.grants
    ensures Sound(GrantMade(s, id, owner, grant, a, saving).0)
  {
    hide Integrity, Saved, DiskOk, Agreement, Agrees, Within, GrantOk, KeepsGrants, S.Created;
    var r := s.data.requests[id];
    var inv := s.data.invitations[r.invitation];
    if a.at < r.expires && a.at < inv.expires {
      var o := CreationFor(s, id, grant, a);
      FailedCreationKeeps(s.store, OwnerOf(s.data.issuer, inv.car), SpecFor(s.data.issuer, inv, r, grant, a.at), a.store);
      KeepingKeepsAgreement(s.data, s.store, o.grants);
      var (origin, consistent) := OriginatingOwner(owner, inv.owner);
      if o.result.Ok? && consistent {
        CreationMatches(s, id, grant, a, origin);
        var g := GrantRecord(ViewOf(o.result.value, Active, origin), inv.car, id, 0);
        GrantingKeepsIntegrity(s.data, id, grant, g);
        PairKeepsAgreement(s.data, s.store, o.grants, grant, g);
        var d := s.data.(grants := s.data.grants[grant := g], requests := s.data.requests[id := r.(status := Approved, grant := Some(grant))]);
        SameGrantsKeepAgreement(s.data.(grants := s.data.grants[grant := g]), d, o.grants);
        SavingKeepsSound(s.(data := d, store := o.grants), saving);
      }
    }
  }

  lemma PendingIsClosable(d: Durable, id: Id)
    requires Integrity(d) && id in d.requests && d.requests[id].status == Pending
    ensures Closable(d, id)
  {
    hide RequestLinked, GrantOk, InvitationOk;
    assert RequestOk(id, d.requests[id]);
  }

  lemma DecidingKeepsSound(s: Service, id: Id, approve: bool, owner: Id, grant: Id, a: Approval, saving: Saving)
    requires Sound(s) && (grant == 0 || grant !in s.data.grants)
    ensures Sound(Decided(s, id, approve, owner, grant, a, saving).0)
  {
    hide Integrity, Saved, DiskOk, Agreement, GrantMade;
    if id in s.data.requests && s.data.requests[id].status == Pending {
      if approve {
        if s.data.requests[id].invitation in s.data.invitations && grant != 0 {
          GrantingKeepsSound(s, id, owner, grant, a, saving);
        }
      } else {
        PendingIsClosable(s.data, id);
        ClosingKeepsSound(s, id, Rejected, saving);
      }
    }
  }

  // ---------- Active grants ----------

  lemma SettingKeepsSound(s: Service, id: Id, g: GrantRecord, store: S.Grants)
    requires Sound(s) && id in s.data.grants && Narrowed(s.data.grants[id], g)
    requires forall other :: other != id ==> KeepsGrants(s.store, store, other)
    requires g.view.status == Active ==> Agrees(s.data.issuer, id, g, store)
    ensures Sound(s.(data := s.data.(grants := s.data.grants[id := g]), store := store))
  {
    hide Integrity, DiskOk, Agreement, Agrees, KeepsGrants, Narrowed;
    var d := s.data.(grants := s.data.grants[id := g]);
    assert Narrowed(s.data.grants[id], g);
    UnchangedIsNarrowed(s.data);
    NarrowingKeepsIntegrity(s.data, d);
    PairKeepsAgreement(s.data, s.store, store, id, g);
  }

  lemma UnchangedIsNarrowed(d: Durable)
    requires Integrity(d)
    ensures forall id :: id in d.grants ==> Narrowed(d.grants[id], d.grants[id])
  {
    hide GrantLinked;
  }

  lemma RestrictionMatches(s: Service, id: Id, revision: int, permissions: Permissions, expires: int, storeNow: int)
    requires Sound(s) && id in s.data.grants && s.data.grants[id].view.status == Active
    ensures var g := s.data.grants[id];
            var o := RestrictionFor(s, id, revision, permissions, expires, storeNow);
            && (forall other :: other != id ==> KeepsGrants(s.store, o.grants, other))
            && (o.result.Err? ==> KeepsGrants(s.store, o.grants, id))
            && (o.result.Ok? ==>
                  && var g' := g.(view := g.view.(revision := o.result.value.revision, permissions := permissions, expires := o.result.value.expires));
                  && Narrowed(g, g') && Agrees(s.data.issuer, id, g', o.grants)
                  && g'.view.revision == g.view.revision + 1)
  {
    hide Integrity, DiskOk, S.ValidOwner;
    var g := s.data.grants[id];
    assert Agrees(s.data.issuer, id, g, s.store);
    assert GrantOk(s.data.issuer, id, g) by { IntegrityParts(s.data); }
  }

  lemma RestrictingKeepsSound(s: Service, id: Id, revision: int, permissions: Permissions, expires: int, storeNow: int, saving: Saving)
    requires Sound(s)
    ensures Sound(RestrictedTo(s, id, revision, permissions, expires, storeNow, saving).0)
  {
    hide Integrity, Saved, DiskOk, Agreement, Agrees, KeepsGrants, Narrowed, S.Restricted;
    if id in s.data.grants && s.data.grants[id].view.status == Active {
      var g := s.data.grants[id];
      RestrictionMatches(s, id, revision, permissions, expires, storeNow);
      var o := RestrictionFor(s, id, revision, permissions, expires, storeNow);
      if o.result.Err? {
        KeepingKeepsAgreement(s.data, s.store, o.grants);
      } else {
        var g' := g.(view := g.view.(revision := o.result.value.revision, permissions := permissions, expires := o.result.value.expires));
        SettingKeepsSound(s, id, g', o.grants);
        SavingKeepsSound(s.(data := s.data.(grants := s.data.grants[id := g']), store := o.grants), saving);
      }
    }
  }

  /** Two-layer agreement at work: the store never refuses to stop a grant that is shown active,
      so an owner's stop or a guest's leave reaches the store whatever then happens to the file. */
  lemma StopReachesStore(s: Service, id: Id, saving: Saving)
    requires Sound(s) && id in s.data.grants && s.data.grants[id].view.status == Active
    ensures RevocationFor(s, id).result.Ok?
    ensures var s' := RevokedIn(s, id, saving).0;
            && id in s'.store && s'.store[id].revoked
            && id in s'.data.grants && s'.data.grants[id].view.status == Revoked
            && s'.data.grants[id].view.revision == s'.store[id].metadata.revision
  {
    hide Integrity, DiskOk, S.ValidOwner;
    assert Agrees(s.data.issuer, id, s.data.grants[id], s.store);
    assert GrantOk(s.data.issuer, id, s.data.grants[id]) by { IntegrityParts(s.data); }
    StopOwnerIsValid(s, id);
  }

  lemma StopOwnerIsValid(s: Service, id: Id)
    requires Sound(s) && id in s.data.grants
    ensures var g := s.data.grants[id];
            S.OwnerMatchesRequest(OwnerOf(s.data.issuer, g.car), g.view.binding, SourceOf(s.data.issuer, g.car))
  {
    assert GrantOk(s.data.issuer, id, s.data.grants[id]) by { IntegrityParts(s.data); }
  }

  lemma RevokingOnlyTouches(s: Service, id: Id)
    requires Sound(s) && id in s.data.grants && s.data.grants[id].view.status == Active
    ensures var g := s.data.grants[id];
            var o := RevocationFor(s, id);
            && o.result.Ok? && (forall other :: other != id ==> KeepsGrants(s.store, o.grants, other))
            && Narrowed(g, g.(view := g.view.(status := Revoked, revision := o.result.value.revision)))
            && o.result.value.revision >= g.view.revision
  {
    hide Integrity, DiskOk, S.OwnerMatchesRequest;
    assert Agrees(s.data.issuer, id, s.data.grants[id], s.store);
    assert GrantOk(s.data.issuer, id, s.data.grants[id]) by { IntegrityParts(s.data); }
    StopOwnerIsValid(s, id);
  }

  lemma RevokingKeepsSound(s: Service, id: Id, saving: Saving)
    requires Sound(s) && id in s.data.grants
    ensures Sound(RevokedIn(s, id, saving).0)
    ensures var d := RevokedIn(s, id, saving).0.data;
            && d.issuer == s.data.issuer && d.requests == s.data.requests && d.invitations == s.data.invitations
            && id in d.grants && d.grants[id].view.status != Active
  {
    hide Integrity, Saved, DiskOk, Agreement, Agrees, KeepsGrants, Narrowed, S.Revoked;
    if s.data.grants[id].view.status == Active {
      var g := s.data.grants[id];
      RevokingOnlyTouches(s, id);
      var o := RevocationFor(s, id);
      var g' := g.(view := g.view.(status := Revoked, revision := o.result.value.revision));
      SettingKeepsSound(s, id, g', o.grants);
      SavingKeepsSound(s.(data := s.data.(grants := s.data.grants[id := g']), store := o.grants), saving);
    }
  }

  lemma StoppingKeepsSound(s: Service, id: Id, saving: Saving)
    requires Sound(s)
    ensures Sound(OwnerStopped(s, id, saving).0)
  {
    hide Sound, RevokedIn;
    if id in s.data.grants {
      RevokingKeepsSound(s, id, saving);
    }
  }

  lemma RequestCancellingKeepsSound(s: Service, invitation: Id, id: Id, saving: Saving)
    requires Sound(s)
    ensures Sound(RequestCancelled(s, invitation, id, saving).0)
  {
    hide Integrity, DiskOk, Agreement, RevokedIn;
    if id in s.data.requests && s.data.requests[id].invitation == invitation {
      var r := s.data.requests[id];
      if r.grant.Some? && r.grant.value in s.data.grants {
        RevokingKeepsSound(s, r.grant.value, saving);
      }
      if r.status == Pending {
        PendingHasNoGrant(s.data, id);
        PendingIsClosable(s.data, id);
        ClosingKeepsSound(s, id, Rejected, saving);
      }
    }
  }

  lemma PendingHasNoGrant(d: Durable, id: Id)
    requires Integrity(d) && id in d.requests && d.requests[id].status == Pending
    ensures d.requests[id].grant.None?
  {
    hide RequestLinked, GrantOk, InvitationOk;
    assert RequestOk(id, d.requests[id]);
  }

  lemma {:induction false} RequestsCancellingKeepsSound(s: Service, invitation: Id, order: seq<(Id, Saving)>)
    requires Sound(s)
    ensures Sound(RequestsCancelled(s, invitation, order).0)
  {
    hide Sound, RequestCancelled;
    if order != [] {
      var before := order[..|order| - 1];
      RequestsCancellingKeepsSound(s, invitation, before);
      RequestCancellingKeepsSound(RequestsCancelled(s, invitation, before).0, invitation, order[|order| - 1].0, order[|order| - 1].1);
    }
  }

  lemma InvitationCancellingKeepsSound(s: Service, id: Id, order: seq<(Id, Saving)>, saving: Saving)
    requires Sound(s)
    ensures Sound(InvitationCancelled(s, id, order, saving).0)
  {
    var used := s.(data := InvitationUsed(s.data, id));
    assert Sound(used) by {
      hide Integrity, DiskOk, Agreement;
      UsingKeepsIntegrity(s.data, id);
      SameGrantsKeepAgreement(s.data, used.data, s.store);
    }
    hide Sound, RequestsCancelled, Saved;
    RequestsCancellingKeepsSound(used, id, order);
    SavingKeepsSound(RequestsCancelled(used, id, order).0, saving);
  }

  // ---------- Guests ----------

  lemma GuestCancellingKeepsSound(s: Service, id: Id, p: Principal, revoking: Saving, saving: Saving)
    requires Sound(s)
    ensures Sound(GuestCancelled(s, id, p, revoking, saving).0)
  {
    hide Sound, Saved, RevokedIn;
    if id in s.data.requests {
      var r := s.data.requests[id];
      if r.grant.Some? && r.grant.value in s.data.grants {
        RevokingKeepsSound(s, r.grant.value, revoking);
        ClosingKeepsSound(RevokedIn(s, r.grant.value, revoking).0, id, Rejected, saving);
      } else {
        ClosingKeepsSound(s, id, Rejected, saving);
      }
    }
  }

  lemma SameStoreKeeps(grants: S.Grants)
    ensures forall id :: KeepsGrants(grants, grants, id)
  {
  }

  lemma ReadingNarrows(d: Durable, id: Id, stamp: int)
    requires Integrity(d) && id in d.grants
    ensures Narrowed(d.grants[id], d.grants[id].(lastRead := stamp))
  {
    UnchangedIsNarrowed(d);
  }

  lemma BeginningKeepsSound(s: Service, id: Id, p: Principal, slot: bool, now: int, stamp: int)
    requires Sound(s)
    ensures Sound(SnapshotBegun(s, id, p, slot, now, stamp).0)
  {
    hide Integrity, DiskOk, Agreement, KeepsGrants, Narrowed;
    assert forall other :: KeepsGrants(s.store, s.store, other) by { SameStoreKeeps(s.store); }
    if id in s.data.grants {
      var g := s.data.grants[id].(lastRead := stamp);
      ReadingNarrows(s.data, id, stamp);
      if g.view.status == Active {
        ActiveAgrees(s, id);
      }
      SettingKeepsSound(s, id, g, s.store);
    }
  }

  lemma ActiveAgrees(s: Service, id: Id)
    requires Sound(s) && id in s.data.grants && s.data.grants[id].view.status == Active
    ensures Agrees(s.data.issuer, id, s.data.grants[id], s.store)
  {
  }

  lemma ProjectionKeepsGrants(grants: S.Grants, recipient: Id, binding: Binding, revision: int, reading: SourceSnapshot, now: int)
    ensures forall id :: KeepsGrants(grants, S.ProjectedTo(grants, recipient, binding, revision, reading, now).grants, id)
  {
    hide P.Projected, S.OutOfOrderFor;
  }

  lemma FinishingKeepsSound(s: Service, c: Capture, reading: Option<SourceSnapshot>, storeNow: int, stamp: int)
    requires Sound(s)
    ensures Sound(SnapshotFinished(s, c, reading, storeNow, stamp).0)
  {
    hide Integrity, DiskOk, Agreement, KeepsGrants, S.ProjectedTo;
    if reading.Some? {
      var after := S.ProjectedTo(s.store, c.recipient, c.view.binding, c.view.revision, reading.value, storeNow).grants;
      ProjectionKeepsGrants(s.store, c.recipient, c.view.binding, c.view.revision, reading.value, storeNow);
      KeepingKeepsAgreement(s.data, s.store, after);
      SameGrantsKeepAgreement(s.data, s.data.(lastTime := stamp), after);
      TimeKeepsIntegrity(s.data, stamp);
    }
  }

  // ---------- Restart ----------

  lemma DownIsSound(disk: Option<Durable>)
    requires DiskOk(disk)
    ensures Sound(Down(disk))
  {
    NoDataHasIntegrity(0);
  }

  lemma LoadedHasIntegrity(disk: Option<Durable>, issuer: Id)
    requires DiskOk(disk)
    ensures Integrity(Loaded(disk, issuer)) && (disk.Some? ==> Loadable(disk.value))
  {
    NoDataHasIntegrity(issuer);
    hide Integrity, Loadable;
    if disk.Some? {
      IntegrityIsLoadable(disk.value);
    }
  }

  lemma OverIsAgreement(d: Durable)
    requires AllOver(d)
    ensures Agreement(d, map[])
  {
  }

  lemma ResumingKeepsSound(d: Durable, disk: Option<Durable>, saving: Saving)
    requires Integrity(d) && d.issuer != 0 && DiskOk(disk)
    ensures Sound(Resumed(d, disk, saving))
  {
    hide Integrity, Saved, Agreement, AllOver, AllUsed, AllExpired, AllRestarted;
    InvalidatingKeepsIntegrity(d);
    OverIsAgreement(Invalidated(d));
    SavingKeepsSound(Service(Invalidated(d), map[], true, disk), saving);
    DownIsSound(Saved(Service(Invalidated(d), map[], true, disk), saving).0.disk);
  }

  /** Whatever was saved, by whichever attempt, is accepted at the next start. */
  lemma RestartingKeepsSound(s: Service, now: int, issuer: Id, saving: Saving)
    requires Sound(s)
    ensures Sound(Restarted(s.disk, now, issuer, saving))
    ensures s.disk.Some? ==> Loadable(s.disk.value)
  {
    LoadedHasIntegrity(s.disk, issuer);
    DownIsSound(s.disk);
    hide Integrity, Loadable, Resumed, Loaded;
    if Loaded(s.disk, issuer).issuer != 0 {
      ResumingKeepsSound(Loaded(s.disk, issuer), s.disk, saving);
    }
  }

  // ---------- What a cancellation leaves ----------

  /** Nothing of this request is open any more. */
  predicate Closed(d: Durable, invitation: Id, id: Id) {
    id in d.requests && d.requests[id].invitation == invitation ==>
      && d.requests[id].status != Pending
      && (d.requests[id].grant.Some? && d.requests[id].grant.value in d.grants ==>
            d.grants[d.requests[id].grant.value].view.status != Active)
  }

  lemma CancellingCloses(s: Service, invitation: Id, id: Id, saving: Saving, other: Id)
    requires Sound(s) && RequestCancelled(s, invitation, id, saving).1.None?
    ensures var d := RequestCancelled(s, invitation, id, saving).0.data;
            && Closed(d, invitation, id) && d.requests.Keys == s.data.requests.Keys
            && (Closed(s.data, invitation, other) ==> Closed(d, invitation, other))
  {
    hide Sound, Saved, S.Revoked;
    if id in s.data.requests && s.data.requests[id].status == Pending {
      SoundPendingHasNoGrant(s, id);
    }
    if id in s.data.requests && s.data.requests[id].grant.Some? && s.data.requests[id].grant.value in s.data.grants {
      RevokingKeepsSound(s, s.data.requests[id].grant.value, saving);
      RevokingClosesOnly(s, s.data.requests[id].grant.value, saving, other);
    }
  }

  lemma SoundPendingHasNoGrant(s: Service, id: Id)
    requires Sound(s) && id in s.data.requests && s.data.requests[id].status == Pending
    ensures s.data.requests[id].grant.None?
  {
    PendingHasNoGrant(s.data, id);
  }

  lemma RevokingClosesOnly(s: Service, id: Id, saving: Saving, other: Id)
    requires id in s.data.grants
    ensures var d := RevokedIn(s, id, saving).0.data;
            d.grants.Keys == s.data.grants.Keys
            && forall g :: g in d.grants && d.grants[g].view.status == Active ==> s.data.grants[g].view.status == Active
  {
    hide S.Revoked;
  }

  lemma {:induction false} CancellingClosesAll(s: Service, invitation: Id, order: seq<(Id, Saving)>, k: nat)
    requires Sound(s) && RequestsCancelled(s, invitation, order).1.None? && k < |order|
    ensures Closed(RequestsCancelled(s, invitation, order).0.data, invitation, order[k].0)
    ensures RequestsCancelled(s, invitation, order).0.data.requests.Keys == s.data.requests.Keys
    decreases |order|
  {
    hide Sound, RequestCancelled, Closed;
    var before := order[..|order| - 1];
    var mid := RequestsCancelled(s, invitation, before).0;
    RequestsCancellingKeepsSound(s, invitation, before);
    var last := order[|order| - 1];
    if k < |before| {
      CancellingClosesAll(s, invitation, before, k);
    } else if before != [] {
      CancellingClosesAll(s, invitation, before, 0);
    }
    CancellingCloses(mid, invitation, last.0, last.1, order[k].0);
  }

  predicate Visits(order: seq<(Id, Saving)>, id: Id) { exists k :: 0 <= k < |order| && order[k].0 == id }

  /** A cancellation that is answered as done has left no pending request and no active grant of
      the invitation, and the invitation used up. */
  lemma CancellationIsComplete(s: Service, id: Id, order: seq<(Id, Saving)>, saving: Saving, request: Id)
    requires Sound(s) && (forall r :: r in s.data.requests ==> Visits(order, r))
    requires InvitationCancelled(s, id, order, saving).1 == Cancelled
    ensures var d := InvitationCancelled(s, id, order, saving).0.data;
            Closed(d, id, request) && (id in d.invitations ==> d.invitations[id].used)
  {
    var used := s.(data := InvitationUsed(s.data, id));
    assert Sound(used) by {
      hide Integrity, DiskOk, Agreement;
      UsingKeepsIntegrity(s.data, id);
      SameGrantsKeepAgreement(s.data, used.data, s.store);
    }
    hide Sound, Saved, RequestCancelled, Visits;
    var mid := RequestsCancelled(used, id, order).0;
    RequestsCancellingKeepsSound(used, id, order);
    SavingKeepsSound(mid, saving);
    CancellingKeepsInvitations(used, id, order);
    if request in s.data.requests {
      assert Visits(order, request);
      var k := VisitedAt(order, request);
      CancellingClosesAll(used, id, order, k);
    } else if order != [] {
      CancellingClosesAll(used, id, order, 0);
    }
  }

  lemma VisitedAt(order: seq<(Id, Saving)>, id: Id) returns (k: nat)
    requires Visits(order, id)
    ensures k < |order| && order[k].0 == id
  {
    k :| 0 <= k < |order| && order[k].0 == id;
  }

  lemma {:induction false} CancellingKeepsInvitations(s: Service, invitation: Id, order: seq<(Id, Saving)>)
    requires Sound(s)
    ensures RequestsCancelled(s, invitation, order).0.data.invitations == s.data.invitations
  {
    hide Sound, RevokedIn;
    if order != [] {
      var before := order[..|order| - 1];
      var mid := RequestsCancelled(s, invitation, before).0;
      CancellingKeepsInvitations(s, invitation, before);
      RequestsCancellingKeepsSound(s, invitation, before);
      var id := order[|order| - 1].0;
      if id in mid.data.requests && mid.data.requests[id].grant.Some? && mid.data.requests[id].grant.value in mid.data.grants {
        RevokingKeepsSound(mid, mid.data.requests[id].grant.value, order[|order| - 1].1);
      }
    }
  }

  // ---------- An invitation on both sides of the unlock ----------

  predicate NoMoreRecords(before: Durable, after: Durable) {
    |after.invitations| <= |before.invitations| && |after.requests| <= |before.requests| && |after.grants| <= |before.grants|
  }

  /** A form that passed the check before the unlock, and finds no more records after it, is
      turned down only by the source, a failed draw or a failed save; only records that came in
      between can make it too late. Of the three capacity tests the last one never decides. */
  lemma CheckedInvitationIsMade(before: Durable, s: Service, f: InvitationForm, owns: Option<bool>, draw: Draw, now: int, saving: Saving)
    requires InvitationRefused(before, f).None? && Sound(s)
    ensures var (s', reply) := InvitationMade(s, f, owns, draw, now, saving);
            && (reply == Failed(Full) <==> |s.data.invitations| >= MAX_RECORDS || |s.data.requests| >= MAX_RECORDS)
            && (reply == Failed(Full) ==> !NoMoreRecords(before, s.data))
            && (NoMoreRecords(before, s.data) ==>
                  && (reply == Failed(InvalidRequest) <==> owns == Some(false))
                  && (reply.Invited? <==> owns == Some(true) && draw.invitation != 0 && draw.member != 0 && draw.session != 0
                                          && draw.secret != 0 && s'.healthy))
            && (reply.Invited? ==> draw.invitation in s'.data.invitations && s'.disk == Some(s'.data))
  {
    hide Sound, AtCapacity, InvitationMade;
    FullExactly(before, s);
    MakingExactly(s, f, owns, draw, now, saving);
  }

  /** Of the three capacity tests the one on grants never decides. */
  lemma FullExactly(before: Durable, s: Service)
    requires Sound(s)
    ensures AtCapacity(s.data) <==> |s.data.invitations| >= MAX_RECORDS || |s.data.requests| >= MAX_RECORDS
    ensures !AtCapacity(before) && NoMoreRecords(before, s.data) ==> !AtCapacity(s.data)
  {
    IntegrityBounds(s.data);
  }

  lemma MakingExactly(s: Service, f: InvitationForm, owns: Option<bool>, draw: Draw, now: int, saving: Saving)
    requires ValidForm(f)
    ensures var (s', reply) := InvitationMade(s, f, owns, draw, now, saving);
            && (reply == Failed(Full) <==> AtCapacity(s.data))
            && (!AtCapacity(s.data) ==> (reply == Failed(InvalidRequest) <==> owns == Some(false)))
            && (!AtCapacity(s.data) ==>
                  (reply.Invited? <==> owns == Some(true) && draw.invitation != 0 && draw.member != 0 && draw.session != 0
                                       && draw.secret != 0 && s'.healthy))
            && (reply.Invited? ==> draw.invitation in s'.data.invitations && s'.disk == Some(s'.data))
  {
    hide AtCapacity, ValidForm;
  }
}
