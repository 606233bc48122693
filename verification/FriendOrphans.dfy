/** The converse of agreement: when the store holds a grant that no record of the service shows
    any more, and by which steps this comes about. */
module FriendOrphans {
  import opened Wrappers
  import opened FriendTypes
  import opened FriendService
  import opened FriendIntegrity
  import opened FriendConsent
  import opened FriendRuns
  import opened FriendHistory
  import S = FriendStore

  /** Every store grant has a view. */
  ghost predicate Covered(s: Service) { forall id :: id in s.store ==> id in s.data.grants }

  /** The two layers agree on when a grant ends, running or not. */
  ghost predicate Timed(s: Service) {
    forall id :: id in s.store ==>
                   && 0 <= s.store[id].metadata.expires
                   && (id in s.data.grants ==> s.data.grants[id].view.expires == s.store[id].metadata.expires)
  }

  // ---------- What can go wrong ----------

  /** When the store takes the grant of an approval: its scope is valid, it ends in the future of
      the store's clock but not too far off, its identifier is unused and there is room. */
  predicate StoreAccepts(s: Service, id: Id, grant: Id, a: Approval)
    requires id in s.data.requests && s.data.requests[id].invitation in s.data.invitations
  {
    var r := s.data.requests[id];
    var inv := s.data.invitations[r.invitation];
    var end := a.at + inv.duration * 1000;
    && ValidBinding(Binding(grant, s.data.issuer, inv.session, inv.member, r.recipient)) && inv.car >= 1 && inv.permissions.location
    && ValidTime(a.store) && ValidTime(end) && a.store < end <= a.store + MAX_GRANT_LIFETIME_MS
    && grant !in s.store && |s.store| < MAX_GRANTS
  }

  lemma AcceptedIsCreated(s: Service, id: Id, grant: Id, a: Approval)
    requires id in s.data.requests && s.data.requests[id].invitation in s.data.invitations
    ensures CreationFor(s, id, grant, a).result.Ok? <==> StoreAccepts(s, id, grant, a)
  {
  }

  /** Two owner devices are known and they differ. */
  predicate Differ(requested: Id, inviting: Id) { requested != 0 && inviting != 0 && requested != inviting }

  /** An approval that gets as far as the store, is accepted there, and then turns out to come
      from another device than the invitation. */
  predicate Mismatched(s: Service, op: Operation) {
    && op.Decide? && op.approve && op.grant != 0 && op.request in s.data.requests
    && var r := s.data.requests[op.request];
       && r.status == Pending && r.expires > op.at.check && op.at.at < r.expires && r.invitation in s.data.invitations
       && var inv := s.data.invitations[r.invitation];
          op.at.at < inv.expires && Differ(op.owner, inv.owner) && StoreAccepts(s, op.request, op.grant, op.at)
  }

  /** The store may be asked to prune as far as the service has just reclaimed: its own clock has
      got there, and the cutoff is a time it accepts. */
  predicate Prompt(entry: Entry) {
    var cutoff := entry.expire - INVITATION_LIFE_MS;
    cutoff <= entry.prune && cutoff <= MAX_TIMESTAMP_MS
  }

  /** A cleanup that reclaims the view of a grant ten minutes over which the store keeps. */
  ghost predicate Outpaced(s: Service, entry: Entry) {
    && ClockChecked(s, entry.check).healthy && !Prompt(entry)
    && exists id :: id in s.store && s.store[id].metadata.expires <= entry.expire - INVITATION_LIFE_MS
  }

  ghost predicate Breaks(s: Service, e: Event) {
    && e.Serve?
    && (Outpaced(s, e.entry) || (Entered(s, e.entry).healthy && Mismatched(Entered(s, e.entry), e.op)))
  }

  // ---------- Cleanup ----------

  lemma ReclaimedWhenOver(d: Durable, now: int, id: Id)
    requires id in d.grants
    ensures id in Reclaimed(Lapsed(d, now), now - INVITATION_LIFE_MS).grants
            <==> d.grants[id].view.expires > now - INVITATION_LIFE_MS
    ensures id in Reclaimed(Lapsed(d, now), now - INVITATION_LIFE_MS).grants ==>
              Reclaimed(Lapsed(d, now), now - INVITATION_LIFE_MS).grants[id].view.expires == d.grants[id].view.expires
  {
    hide KeptRequests, KeptInvitations, LapsedRequests;
  }

  lemma ReclaimingAddsNothing(d: Durable, now: int, id: Id)
    requires id in Reclaimed(Lapsed(d, now), now - INVITATION_LIFE_MS).grants
    ensures id in d.grants
  {
    hide KeptRequests, KeptInvitations, LapsedRequests;
  }

  lemma CleaningKeepsTimed(s: Service, now: int, storeNow: int)
    requires Timed(s)
    ensures Timed(Cleaned(s, now, storeNow))
  {
    hide Reclaimed, Lapsed;
    var s' := Cleaned(s, now, storeNow);
    forall id | id in s'.store && id in s'.data.grants
      ensures s'.data.grants[id].view.expires == s'.store[id].metadata.expires
    {
      ReclaimingAddsNothing(s.data, now, id);
      ReclaimedWhenOver(s.data, now, id);
    }
  }

  /** Exactly when entering breaks coverage. */
  lemma EnteringCovers(s: Service, entry: Entry)
    requires Covered(s) && Timed(s)
    ensures Covered(Entered(s, entry)) <==> !Outpaced(s, entry)
    ensures Timed(Entered(s, entry))
  {
    hide Reclaimed, Lapsed;
    var c := ClockChecked(s, entry.check);
    if c.healthy {
      var s' := Entered(s, entry);
      CleaningKeepsTimed(c, entry.expire, entry.prune);
      forall id | id in s.store
        ensures id in s'.data.grants <==> s.store[id].metadata.expires > entry.expire - INVITATION_LIFE_MS
      {
        ReclaimedWhenOver(c.data, entry.expire, id);
      }
      if !Prompt(entry) {
        assert s'.store == s.store || entry.expire - INVITATION_LIFE_MS < 0;
      }
    }
  }

  // ---------- Handlers ----------

  /** The same grants in the store and in the records, and as much agreement on their ends. */
  ghost predicate Pairs(s: Service, s': Service) {
    && s'.store.Keys == s.store.Keys && s'.data.grants.Keys == s.data.grants.Keys && (Timed(s) ==> Timed(s'))
  }

  lemma PairsIsTransitive(a: Service, b: Service, c: Service)
    requires Pairs(a, b) && Pairs(b, c)
    ensures Pairs(a, c)
  {
    hide Timed;
  }

  lemma SavingPairs(s: Service, saving: Saving)
    ensures Pairs(s, Saved(s, saving).0)
  {
  }

  /** Records other than grants have no part in this. */
  lemma OtherRecordsPair(s: Service, d: Durable, healthy: bool, disk: Option<Durable>)
    requires d.grants == s.data.grants
    ensures Pairs(s, s.(data := d, healthy := healthy, disk := disk))
  {
  }

  lemma OthersSavedPair(s: Service, d: Durable, saving: Saving)
    requires d.grants == s.data.grants
    ensures Pairs(s, Saved(s.(data := d), saving).0)
  {
    hide Pairs, Saved;
    OtherRecordsPair(s, d, s.healthy, s.disk);
    SavingPairs(s.(data := d), saving);
    PairsIsTransitive(s, s.(data := d), Saved(s.(data := d), saving).0);
  }

  lemma ClosingPairs(s: Service, id: Id, saving: Saving)
    requires id in s.data.requests
    ensures var d := s.data.(requests := s.data.requests[id := s.data.requests[id].(status := Rejected)]);
            Pairs(s, Saved(s.(data := d), saving).0) && Pairs(s, s.(data := d))
  {
    hide Pairs, Saved;
    var d := s.data.(requests := s.data.requests[id := s.data.requests[id].(status := Rejected)]);
    OthersSavedPair(s, d, saving);
    OtherRecordsPair(s, d, s.healthy, s.disk);
  }

  /** Setting one record and one stored grant that end together. */
  lemma SettingPairs(s: Service, id: Id, g: GrantRecord, store: S.Grants, healthy: bool)
    requires id in s.data.grants && store.Keys == s.store.Keys
    requires forall other :: other in store && other != id ==> store[other].metadata.expires == s.store[other].metadata.expires
    requires Timed(s) && id in store ==> 0 <= store[id].metadata.expires && g.view.expires == store[id].metadata.expires
    ensures Pairs(s, s.(data := s.data.(grants := s.data.grants[id := g]), store := store, healthy := healthy))
  {
    var s' := s.(data := s.data.(grants := s.data.grants[id := g]), store := store, healthy := healthy);
    assert s'.data.grants.Keys == s.data.grants.Keys;
  }

  lemma RevokedEndsAlike(s: Service, id: Id)
    requires id in s.data.grants
    ensures var store := RevocationFor(s, id).grants;
            store.Keys == s.store.Keys
            && forall other :: other in store ==> store[other].metadata.expires == s.store[other].metadata.expires
  {
    hide S.OwnerMatchesRequest;
  }

  lemma RevokingPairs(s: Service, id: Id, saving: Saving)
    requires id in s.data.grants
    ensures Pairs(s, RevokedIn(s, id, saving).0)
  {
    hide Pairs, Saved, S.Revoked;
    var g := s.data.grants[id];
    RevokedEndsAlike(s, id);
    OtherRecordsPair(s, s.data, s.healthy, s.disk);
    var o := RevocationFor(s, id);
    SettingPairs(s, id, g, o.grants, false);
    assert s.data.grants[id := g] == s.data.grants;
    if g.view.status == Active && o.result.Ok? {
      var g' := g.(view := g.view.(status := Revoked, revision := o.result.value.revision));
      var set' := s.(data := s.data.(grants := s.data.grants[id := g']), store := o.grants);
      SettingPairs(s, id, g', o.grants, s.healthy);
      SavingPairs(set', saving);
      PairsIsTransitive(s, set', Saved(set', saving).0);
    }
  }

  lemma StoppingPairs(s: Service, id: Id, saving: Saving)
    ensures Pairs(s, OwnerStopped(s, id, saving).0)
  {
    hide Pairs, RevokedIn;
    OtherRecordsPair(s, s.data, s.healthy, s.disk);
    if id in s.data.grants {
      RevokingPairs(s, id, saving);
    }
  }

  lemma RestrictedEndsAlike(s: Service, id: Id, revision: int, permissions: Permissions, expires: int, storeNow: int)
    requires Sound(s) && id in s.data.grants
    ensures var o := RestrictionFor(s, id, revision, permissions, expires, storeNow);
            && o.grants.Keys == s.store.Keys
            && (forall other :: other in o.grants && (other != id || o.result.Err?) ==>
                                  o.grants[other].metadata.expires == s.store[other].metadata.expires)
            && (o.result.Ok? && id in o.grants ==> o.grants[id].metadata.expires == o.result.value.expires && 0 <= o.result.value.expires)
  {
    hide Integrity, DiskOk, Agreement, S.OwnerMatchesRequest;
    assert GrantOk(s.data.issuer, id, s.data.grants[id]) by { IntegrityParts(s.data); }
  }

  lemma RestrictingPairs(s: Service, id: Id, revision: int, permissions: Permissions, expires: int, storeNow: int, saving: Saving)
    requires Sound(s)
    ensures Pairs(s, RestrictedTo(s, id, revision, permissions, expires, storeNow, saving).0)
  {
    hide Sound, Pairs, Saved, S.Restricted;
    OtherRecordsPair(s, s.data, s.healthy, s.disk);
    if id in s.data.grants && s.data.grants[id].view.status == Active {
      var g := s.data.grants[id];
      RestrictedEndsAlike(s, id, revision, permissions, expires, storeNow);
      var o := RestrictionFor(s, id, revision, permissions, expires, storeNow);
      if o.result.Err? {
        SettingPairs(s, id, g, o.grants, s.healthy);
        assert s.data.grants[id := g] == s.data.grants;
      } else {
        var g' := g.(view := g.view.(revision := o.result.value.revision, permissions := permissions, expires := o.result.value.expires));
        var set' := s.(data := s.data.(grants := s.data.grants[id := g']), store := o.grants);
        SettingPairs(s, id, g', o.grants, s.healthy);
        SavingPairs(set', saving);
        PairsIsTransitive(s, set', Saved(set', saving).0);
      }
    }
  }

  lemma RequestCancellingPairs(s: Service, invitation: Id, id: Id, saving: Saving)
    ensures Pairs(s, RequestCancelled(s, invitation, id, saving).0)
  {
    hide Pairs, RevokedIn;
    OtherRecordsPair(s, s.data, s.healthy, s.disk);
    if id in s.data.requests && s.data.requests[id].invitation == invitation {
      var r := s.data.requests[id];
      var s1 := if r.grant.Some? && r.grant.value in s.data.grants then RevokedIn(s, r.grant.value, saving).0 else s;
      if r.grant.Some? && r.grant.value in s.data.grants {
        RevokingPairs(s, r.grant.value, saving);
      }
      var closed := s1.(data := s1.data.(requests := s1.data.requests[id := r.(status := Rejected)]));
      OtherRecordsPair(s1, closed.data, s1.healthy, s1.disk);
      PairsIsTransitive(s, s1, closed);
    }
  }

  lemma {:induction false} RequestsCancellingPairs(s: Service, invitation: Id, order: seq<(Id, Saving)>)
    ensures Pairs(s, RequestsCancelled(s, invitation, order).0)
  {
    hide Pairs, RequestCancelled;
    if order == [] {
      OtherRecordsPair(s, s.data, s.healthy, s.disk);
    } else {
      var before := order[..|order| - 1];
      var mid := RequestsCancelled(s, invitation, before).0;
      RequestsCancellingPairs(s, invitation, before);
      RequestCancellingPairs(mid, invitation, order[|order| - 1].0, order[|order| - 1].1);
      PairsIsTransitive(s, mid, RequestCancelled(mid, invitation, order[|order| - 1].0, order[|order| - 1].1).0);
    }
  }

  lemma InvitationCancellingPairs(s: Service, id: Id, order: seq<(Id, Saving)>, saving: Saving)
    ensures Pairs(s, InvitationCancelled(s, id, order, saving).0)
  {
    hide Pairs, RequestsCancelled, Saved;
    var used := s.(data := InvitationUsed(s.data, id));
    OtherRecordsPair(s, used.data, s.healthy, s.disk);
    var mid := RequestsCancelled(used, id, order).0;
    RequestsCancellingPairs(used, id, order);
    PairsIsTransitive(s, used, mid);
    SavingPairs(mid, saving);
    PairsIsTransitive(s, mid, Saved(mid, saving).0);
  }

  lemma GuestCancellingPairs(s: Service, id: Id, p: Principal, revoking: Saving, saving: Saving)
    ensures Pairs(s, GuestCancelled(s, id, p, revoking, saving).0)
  {
    hide Pairs, RevokedIn, Saved;
    OtherRecordsPair(s, s.data, s.healthy, s.disk);
    if id in s.data.requests {
      var r := s.data.requests[id];
      var s1 := if r.grant.Some? && r.grant.value in s.data.grants then RevokedIn(s, r.grant.value, revoking).0 else s;
      if r.grant.Some? && r.grant.value in s.data.grants {
        RevokingPairs(s, r.grant.value, revoking);
      }
      var closed := s1.data.(requests := s1.data.requests[id := r.(status := Rejected)]);
      OthersSavedPair(s1, closed, saving);
      PairsIsTransitive(s, s1, Saved(s1.(data := closed), saving).0);
    }
  }

  lemma BeginningPairs(s: Service, id: Id, p: Principal, slot: bool, now: int, stamp: int)
    ensures Pairs(s, SnapshotBegun(s, id, p, slot, now, stamp).0)
  {
    hide Pairs;
    OtherRecordsPair(s, s.data, s.healthy, s.disk);
    if id in s.data.grants {
      SettingPairs(s, id, s.data.grants[id].(lastRead := stamp), s.store, s.healthy);
    }
  }

  lemma FinishingPairs(s: Service, c: Capture, reading: Option<SourceSnapshot>, storeNow: int, stamp: int)
    ensures Pairs(s, SnapshotFinished(s, c, reading, storeNow, stamp).0)
  {
    hide S.ProjectedTo;
    if reading.Some? {
      var store := S.ProjectedTo(s.store, c.recipient, c.view.binding, c.view.revision, reading.value, storeNow).grants;
      ProjectionKeepsGrants(s.store, c.recipient, c.view.binding, c.view.revision, reading.value, storeNow);
      ProjectionKeepsKeys(s.store, c.recipient, c.view.binding, c.view.revision, reading.value, storeNow);
      forall id | id in s.store
        ensures store[id].metadata == s.store[id].metadata
      {
        assert KeepsGrants(s.store, store, id);
      }
    }
  }

  lemma ProjectionKeepsKeys(grants: S.Grants, recipient: Id, binding: Binding, revision: int, reading: SourceSnapshot, now: int)
    ensures S.ProjectedTo(grants, recipient, binding, revision, reading, now).grants.Keys == grants.Keys
  {
    hide S.ProjectedOnto;
  }

  // ---------- Decisions ----------

  /** Exactly when a decision breaks coverage. */
  lemma DecidingCovers(s: Service, op: Operation)
    requires Covered(s) && Timed(s) && op.Decide? && (op.grant == 0 || op.grant !in s.data.grants)
    ensures Covered(Handled(s, op).0) <==> !Mismatched(s, op)
    ensures Timed(Handled(s, op).0)
  {
    hide Covered, Timed, GrantMade, Saved, StoreAccepts;
    OtherRecordsPair(s, s.data, s.healthy, s.disk);
    PairsCovers(s, s);
    if op.request in s.data.requests && s.data.requests[op.request].status == Pending && s.data.requests[op.request].expires > op.at.check {
      if !op.approve {
        ClosingPairs(s, op.request, op.saving);
        PairsCovers(s, Handled(s, op).0);
      } else if s.data.requests[op.request].invitation in s.data.invitations && op.grant != 0 {
        GrantingCovers(s, op.request, op.owner, op.grant, op.at, op.saving);
      }
    }
  }

  lemma PairsCovers(s: Service, s': Service)
    requires Pairs(s, s') && Timed(s)
    ensures (Covered(s') <==> Covered(s)) && Timed(s')
  {
  }

  lemma GrantingCovers(s: Service, id: Id, owner: Id, grant: Id, a: Approval, saving: Saving)
    requires Covered(s) && Timed(s) && id in s.data.requests && s.data.requests[id].invitation in s.data.invitations
    requires grant !in s.data.grants
    ensures var inv := s.data.invitations[s.data.requests[id].invitation];
            Covered(GrantMade(s, id, owner, grant, a, saving).0)
            <==> !(a.at < s.data.requests[id].expires && a.at < inv.expires && Differ(owner, inv.owner) && StoreAccepts(s, id, grant, a))
    ensures Timed(GrantMade(s, id, owner, grant, a, saving).0)
  {
    hide S.Created, Saved, StoreAccepts;
    AcceptedIsCreated(s, id, grant, a);
    AcceptedMakesOne(s, id, grant, a);
    var s' := GrantMade(s, id, owner, grant, a, saving).0;
    var inv := s.data.invitations[s.data.requests[id].invitation];
    var o := CreationFor(s, id, grant, a);
    if a.at < s.data.requests[id].expires && a.at < inv.expires && o.result.Ok? && !Differ(owner, inv.owner) {
      var view := ViewOf(o.result.value, Active, OriginatingOwner(owner, inv.owner).0);
      var made := s.(data := s.data.(grants := s.data.grants[grant := GrantRecord(view, inv.car, id, 0)],
                                     requests := s.data.requests[id := s.data.requests[id].(status := Approved, grant := Some(grant))]),
                     store := o.grants);
      SavingPairs(made, saving);
      PairsCovers(made, Saved(made, saving).0);
    }
  }

  lemma AcceptedMakesOne(s: Service, id: Id, grant: Id, a: Approval)
    requires id in s.data.requests && s.data.requests[id].invitation in s.data.invitations
    ensures var o := CreationFor(s, id, grant, a);
            && (o.result.Err? ==> o.grants == s.store)
            && (o.result.Ok? ==> grant !in s.store && o.grants.Keys == s.store.Keys + {grant} && o.grants[grant].metadata == o.result.value
                                 && 0 <= o.result.value.expires && forall other :: other in s.store ==> o.grants[other] == s.store[other])
  {
  }

  // ---------- Any event ----------

  lemma HandlingPairs(s: Service, op: Operation)
    requires Sound(s) && !op.Decide?
    ensures Pairs(s, Handled(s, op).0)
  {
    hide Sound, Pairs, InvitationMade, Redeemed, RestrictedTo, OwnerStopped, InvitationCancelled, GuestCancelled, SnapshotBegun,
      SnapshotFinished;
    OtherRecordsPair(s, s.data, s.healthy, s.disk);
    match op
    case MakeInvitation(form, owns, draw, now, saving) => InvitingPairs(s, form, owns, draw, now, saving);
    case Redeem(redeem, request, token, now, created, saving) => RedeemingPairs(s, redeem, request, token, now, created, saving);
    case Restrict(grant, revision, permissions, expires, now, saving) =>
      RestrictingPairs(s, grant, revision, permissions, expires, now, saving);
    case Stop(grant, saving) => StoppingPairs(s, grant, saving);
    case CancelInvitation(invitation, order, saving) => InvitationCancellingPairs(s, invitation, order, saving);
    case CancelRequest(request, guest, revoking, saving) => GuestCancellingPairs(s, request, guest, revoking, saving);
    case Leave(grant, guest, saving) => StoppingPairs(s, grant, saving);
    case BeginSnapshot(grant, guest, slot, now, stamp) => BeginningPairs(s, grant, guest, slot, now, stamp);
    case FinishSnapshot(capture, reading, now, stamp) => FinishingPairs(s, capture, reading, now, stamp);
    case Look =>
  }

  lemma InvitingPairs(s: Service, f: InvitationForm, owns: Option<bool>, draw: Draw, now: int, saving: Saving)
    ensures Pairs(s, InvitationMade(s, f, owns, draw, now, saving).0)
  {
    hide Pairs, Saved;
    OtherRecordsPair(s, s.data, s.healthy, s.disk);
    var d := s.data.(invitations := s.data.invitations[draw.invitation := NewInvitation(s.data.issuer, f, draw, now)]);
    OthersSavedPair(s, d, saving);
  }

  lemma RedeemingPairs(s: Service, f: RedeemForm, id: Id, token: Id, now: int, created: int, saving: Saving)
    ensures Pairs(s, Redeemed(s, f, id, token, now, created, saving).0)
  {
    hide Pairs, Saved;
    OtherRecordsPair(s, s.data, s.healthy, s.disk);
    if RedeemRefused(s.data, f, now).None? {
      var inv := s.data.invitations[f.invitation];
      var r := Request(f.recipient, f.key, created, inv.expires, Pending, f.invitation, token, None);
      var d := s.data.(requests := s.data.requests[id := r], invitations := s.data.invitations[f.invitation := inv.(used := true)]);
      OthersSavedPair(s, d, saving);
    }
  }

  lemma RestartingCovers(s: Service, now: int, issuer: Id, saving: Saving)
    ensures Covered(Restarted(s.disk, now, issuer, saving)) && Timed(Restarted(s.disk, now, issuer, saving))
  {
    hide Loadable, Loaded, Invalidated;
  }

  lemma EnteringAddsNoGrant(s: Service, entry: Entry, id: Id)
    requires id in Entered(s, entry).data.grants
    ensures id in s.data.grants
  {
    hide Reclaimed, Lapsed;
    var c := ClockChecked(s, entry.check);
    if c.healthy {
      ReclaimingAddsNothing(c.data, entry.expire, id);
    }
  }

  /** What no handler mends: a grant of the store that has lost its view. */
  lemma HandlingMendsNothing(s: Service, op: Operation, id: Id)
    requires Sound(s) && id in s.store && id !in s.data.grants && (op.Decide? ==> op.grant == 0 || op.grant !in s.data.grants)
    ensures id in Handled(s, op).0.store && id !in Handled(s, op).0.data.grants
  {
    hide Sound, Handled;
    if op.Decide? {
      DecidingMendsNothing(s, op, id);
    } else {
      HandlingPairs(s, op);
    }
  }

  lemma DecidingMendsNothing(s: Service, op: Operation, id: Id)
    requires op.Decide? && id in s.store && id !in s.data.grants
    ensures id in Handled(s, op).0.store && id !in Handled(s, op).0.data.grants
  {
    hide GrantMade;
    if op.request in s.data.requests && s.data.requests[op.request].invitation in s.data.invitations {
      GrantingMendsNothing(s, op.request, op.owner, op.grant, op.at, op.saving, id);
    }
  }

  lemma GrantingMendsNothing(s: Service, request: Id, owner: Id, grant: Id, a: Approval, saving: Saving, id: Id)
    requires request in s.data.requests && s.data.requests[request].invitation in s.data.invitations
    requires id in s.store && id !in s.data.grants
    ensures var s' := GrantMade(s, request, owner, grant, a, saving).0; id in s'.store && id !in s'.data.grants
  {
    hide CreationFor, ViewOf;
    AcceptedMakesOne(s, request, grant, a);
  }

  /** The step that breaks coverage, exactly. */
  lemma EventCovers(w: World, e: Event)
    requires Reachable(w) && FreshDraw(w, e) && Covered(w.service) && Timed(w.service)
    ensures Covered(Happens(w, e).service) <==> !Breaks(w.service, e)
    ensures Covered(Happens(w, e).service) ==> Timed(Happens(w, e).service)
  {
    hide Sound, Handled, Entered, Outpaced, Mismatched, Timed, JoinedOnce, GrantedOnce, KeysIn, Restarted;
    var s := w.service;
    match e
    case Restart(now, issuer, saving) => RestartingCovers(s, now, issuer, saving);
    case Serve(entry, op) =>
      var s1 := Entered(s, entry);
      EnteringKeepsSound(s, entry);
      EnteringCovers(s, entry);
      if op.Decide? && op.grant in s1.data.grants {
        EnteringAddsNoGrant(s, entry, op.grant);
        DrawnIsNew(w, e, op.grant);
      }
      if s1.healthy {
        if Covered(s1) {
          if op.Decide? {
            DecidingCovers(s1, op);
          } else {
            OnlyDecisionsMismatch(s1, op);
            HandlingPairs(s1, op);
            PairsCovers(s1, Handled(s1, op).0);
          }
        } else {
          var id :| id in s1.store && id !in s1.data.grants;
          HandlingMendsNothing(s1, op, id);
        }
      }
  }

  lemma OnlyDecisionsMismatch(s: Service, op: Operation)
    ensures Mismatched(s, op) ==> op.Decide?
  {
  }

  lemma DrawnIsNew(w: World, e: Event, id: Id)
    requires AllIssued(w.service, w.issued) && FreshDraw(w, e) && id == DrawnBy(e) && id in w.service.data.grants
    ensures id == 0
  {
  }

  // ---------- Whole runs ----------

  ghost predicate CoveredThroughout(events: seq<Event>) {
    forall k :: 0 <= k <= |events| ==> Covered(After(FIRST, events[..k]).service)
  }

  ghost predicate NothingBreaks(events: seq<Event>) {
    forall k :: 0 <= k < |events| ==> !Breaks(After(FIRST, events[..k]).service, events[k])
  }

  /** Main result: over a run, every store grant has a view at every moment if and only if no
      cleanup outpaces the store's clock and no approval that the store accepts turns out to come
      from another device. Both are conditions on the state before the event and on its inputs. */
  lemma {:induction false} CoveredExactlyUnlessBroken(events: seq<Event>)
    requires FreshRun(FIRST, events)
    ensures CoveredThroughout(events) <==> NothingBreaks(events)
    ensures CoveredThroughout(events) ==> Timed(After(FIRST, events).service)
  {
    hide Happens, Covered, Timed, Breaks, FreshDraw, Reachable;
    FirstIsReachable();
    if events == [] {
      NothingIsCovered();
      assert events[..0] == events;
    } else {
      var before := events[..|events| - 1];
      var last := events[|events| - 1];
      FreshPrefix(FIRST, events);
      CoveredExactlyUnlessBroken(before);
      RunKeepsReachable(FIRST, before);
      ShorterRuns(events);
      assert before[..|before|] == before && events[..|events|] == events;
      if CoveredThroughout(before) {
        assert Covered(After(FIRST, before[..|before|]).service);
        EventCovers(After(FIRST, before), last);
      }
    }
  }

  lemma NothingIsCovered()
    ensures Covered(FIRST.service) && Timed(FIRST.service)
  {
  }

  lemma ShorterRuns(events: seq<Event>)
    requires events != []
    ensures var before := events[..|events| - 1];
            && (CoveredThroughout(events) <==> CoveredThroughout(before) && Covered(After(FIRST, events).service))
            && (NothingBreaks(events) <==> NothingBreaks(before) && !Breaks(After(FIRST, before).service, events[|events| - 1]))
  {
    hide After, Covered, Breaks;
    var before := events[..|events| - 1];
    assert forall k :: 0 <= k <= |before| ==> before[..k] == events[..k];
    assert events[..|events|] == events;
  }

  /** In particular, a run is covered throughout when every store reading is at least its cutoff
      and no approval names another device than the invitation's. */
  ghost predicate Careful(w: World, e: Event) {
    e.Serve? ==> Prompt(e.entry) && !Mismatched(Entered(w.service, e.entry), e.op)
  }

  lemma CarefulRunsAreCovered(events: seq<Event>)
    requires FreshRun(FIRST, events) && forall k :: 0 <= k < |events| ==> Careful(After(FIRST, events[..k]), events[k])
    ensures CoveredThroughout(events)
  {
    hide After, Covered, Entered, Mismatched, FreshRun;
    forall k | 0 <= k < |events|
      ensures !Breaks(After(FIRST, events[..k]).service, events[k])
    {
      assert Careful(After(FIRST, events[..k]), events[k]);
    }
    CoveredExactlyUnlessBroken(events);
  }
}
