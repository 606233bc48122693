/** What one step of the consent service may do to the records, and that nothing left is ever
    entered again. */
module FriendRuns {
  import opened Wrappers
  import opened FriendTypes
  import opened FriendService
  import opened FriendIntegrity
  import opened FriendConsent
  import S = FriendStore

  // ---------- Progress ----------

  /** One view after another of the same grant. Equal revisions mean nothing has changed. */
  predicate Succeeds(before: View, after: View) {
    && after.binding == before.binding && after.owner == before.owner && after.consentStarted == before.consentStarted
    && after.expires <= before.expires && Within(after.permissions, before.permissions)
    && before.revision <= after.revision && (before.revision == after.revision ==> before == after)
  }

  predicate InvitationProgress(before: Durable, after: Durable, id: Id) {
    id in after.invitations && !after.invitations[id].used ==> id in before.invitations && !before.invitations[id].used
  }

  predicate RequestProgress(before: Durable, after: Durable, id: Id) {
    id in after.requests ==>
      && (after.requests[id].status == Pending ==> id in before.requests && before.requests[id].status == Pending)
      && (after.requests[id].status == Approved ==>
            id in before.requests && (before.requests[id].status == Pending || before.requests[id].status == Approved))
  }

  predicate GrantProgress(before: Durable, after: Durable, id: Id) {
    id in after.grants && after.grants[id].view.status == Active ==>
      id in before.grants && before.grants[id].view.status == Active && Succeeds(before.grants[id].view, after.grants[id].view)
  }

  /** Among the identifiers issued before, nothing that was left is entered again: no used or
      removed invitation becomes usable, no decided or removed request pending, no request left
      approved becomes approved, and no grant that was over or removed active. */
  ghost predicate Progress(issued: set<Id>, before: Durable, after: Durable) {
    forall id :: id in issued ==>
                   InvitationProgress(before, after, id) && RequestProgress(before, after, id) && GrantProgress(before, after, id)
  }

  lemma ProgressIsTransitive(issued: set<Id>, more: set<Id>, a: Durable, b: Durable, c: Durable)
    requires issued <= more && Progress(issued, a, b) && Progress(more, b, c)
    ensures Progress(issued, a, c)
  {
    forall id | id in issued
      ensures InvitationProgress(a, c, id) && RequestProgress(a, c, id) && GrantProgress(a, c, id)
    {
      assert InvitationProgress(a, b, id) && RequestProgress(a, b, id) && GrantProgress(a, b, id);
      assert InvitationProgress(b, c, id) && RequestProgress(b, c, id) && GrantProgress(b, c, id);
    }
  }

  lemma SameRecordsProgress(issued: set<Id>, d: Durable, d': Durable)
    requires d' == d.(lastTime := d'.lastTime)
    ensures Progress(issued, d, d')
  {
  }

  // ---------- Identifiers ----------

  ghost predicate KeysIn(d: Durable, issued: set<Id>) {
    d.invitations.Keys <= issued && d.requests.Keys <= issued && d.grants.Keys <= issued
  }

  ghost predicate AllIssued(s: Service, issued: set<Id>) {
    KeysIn(s.data, issued) && (s.disk.Some? ==> KeysIn(s.disk.value, issued))
  }

  lemma SavingIssuesNothing(s: Service, saving: Saving, issued: set<Id>)
    requires AllIssued(s, issued)
    ensures AllIssued(Saved(s, saving).0, issued)
  {
  }

  /** One handler's work on the records. */
  ghost predicate Moves(issued: set<Id>, id: Id, s: Service, s': Service) {
    Progress(issued, s.data, s'.data) && AllIssued(s', issued + {id})
  }

  /** A change of the records followed by saving them. */
  lemma SavedMoves(issued: set<Id>, id: Id, s: Service, d: Durable, store: S.Grants, saving: Saving)
    requires AllIssued(s, issued) && Progress(issued, s.data, d) && KeysIn(d, issued + {id})
    ensures Moves(issued, id, s, Saved(s.(data := d, store := store), saving).0)
    ensures Moves(issued, id, s, s.(data := d, store := store))
  {
    hide Progress;
    var changed := s.(data := d, store := store);
    SavingIssuesNothing(changed, saving, issued + {id});
    var d' := Saved(changed, saving).0.data;
    SameRecordsProgress(issued, d, d');
    ProgressIsTransitive(issued, issued, s.data, d, d');
  }

  lemma StayingMoves(issued: set<Id>, id: Id, s: Service, store: S.Grants, healthy: bool)
    requires AllIssued(s, issued)
    ensures Moves(issued, id, s, s.(store := store, healthy := healthy))
  {
  }

  lemma CleaningProgresses(issued: set<Id>, d: Durable, now: int)
    ensures Progress(issued, d, Reclaimed(Lapsed(d, now), now - INVITATION_LIFE_MS))
    ensures KeysIn(d, issued) ==> KeysIn(Reclaimed(Lapsed(d, now), now - INVITATION_LIFE_MS), issued)
  {
    hide HasRequest, Reclaimable;
  }

  lemma EnteringMoves(issued: set<Id>, s: Service, entry: Entry)
    requires AllIssued(s, issued)
    ensures Progress(issued, s.data, Entered(s, entry).data) && AllIssued(Entered(s, entry), issued)
  {
    hide Progress, Reclaimed, Lapsed;
    var c := ClockChecked(s, entry.check);
    SameRecordsProgress(issued, s.data, c.data);
    CleaningProgresses(issued, c.data, entry.expire);
    if c.healthy {
      ProgressIsTransitive(issued, issued, s.data, c.data, Cleaned(c, entry.expire, entry.prune).data);
    }
  }

  // ---------- Handlers ----------

  lemma InvitingMoves(issued: set<Id>, s: Service, f: InvitationForm, owns: Option<bool>, draw: Draw, now: int, saving: Saving)
    requires AllIssued(s, issued) && (draw.invitation == 0 || draw.invitation !in issued)
    ensures Moves(issued, draw.invitation, s, InvitationMade(s, f, owns, draw, now, saving).0)
  {
    hide Moves, Saved;
    StayingMoves(issued, draw.invitation, s, s.store, s.healthy);
    if draw.invitation != 0 {
      var d := s.data.(invitations := s.data.invitations[draw.invitation := NewInvitation(s.data.issuer, f, draw, now)]);
      SavedMoves(issued, draw.invitation, s, d, s.store, saving);
    }
  }

  lemma RedeemingMoves(issued: set<Id>, s: Service, f: RedeemForm, id: Id, token: Id, now: int, created: int, saving: Saving)
    requires AllIssued(s, issued) && (id == 0 || id !in issued)
    ensures Moves(issued, id, s, Redeemed(s, f, id, token, now, created, saving).0)
  {
    hide Moves, Saved;
    StayingMoves(issued, id, s, s.store, s.healthy);
    if RedeemRefused(s.data, f, now).None? && id != 0 {
      var inv := s.data.invitations[f.invitation];
      var r := Request(f.recipient, f.key, created, inv.expires, Pending, f.invitation, token, None);
      var d := s.data.(requests := s.data.requests[id := r], invitations := s.data.invitations[f.invitation := inv.(used := true)]);
      SavedMoves(issued, id, s, d, s.store, saving);
    }
  }

  lemma GrantingMoves(issued: set<Id>, s: Service, id: Id, owner: Id, grant: Id, a: Approval, saving: Saving)
    requires AllIssued(s, issued) && grant !in issued
    requires id in s.data.requests && s.data.requests[id].status == Pending && s.data.requests[id].invitation in s.data.invitations
    ensures Moves(issued, grant, s, GrantMade(s, id, owner, grant, a, saving).0)
  {
    hide Moves, Saved, S.Created;
    var r := s.data.requests[id];
    var inv := s.data.invitations[r.invitation];
    StayingMoves(issued, grant, s, s.store, s.healthy);
    var o := CreationFor(s, id, grant, a);
    StayingMoves(issued, grant, s, o.grants, s.healthy);
    var (origin, consistent) := OriginatingOwner(owner, inv.owner);
    if o.result.Ok? && consistent {
      var g := GrantRecord(ViewOf(o.result.value, Active, origin), inv.car, id, 0);
      var d := s.data.(grants := s.data.grants[grant := g], requests := s.data.requests[id := r.(status := Approved, grant := Some(grant))]);
      SavedMoves(issued, grant, s, d, o.grants, saving);
    }
  }

  /** A handler that draws no identifier. */
  ghost predicate Keeps(issued: set<Id>, s: Service, s': Service) {
    Progress(issued, s.data, s'.data) && AllIssued(s', issued)
  }

  lemma KeepsMoves(issued: set<Id>, id: Id, s: Service, s': Service)
    requires Keeps(issued, s, s')
    ensures Moves(issued, id, s, s')
  {
    hide Progress;
  }

  lemma KeepsIsTransitive(issued: set<Id>, a: Service, b: Service, c: Service)
    requires Keeps(issued, a, b) && Keeps(issued, b, c)
    ensures Keeps(issued, a, c)
  {
    ProgressIsTransitive(issued, issued, a.data, b.data, c.data);
  }

  lemma StayingKeeps(issued: set<Id>, s: Service, store: S.Grants, healthy: bool)
    requires AllIssued(s, issued)
    ensures Keeps(issued, s, s.(store := store, healthy := healthy))
  {
  }

  lemma SavedKeeps(issued: set<Id>, s: Service, d: Durable, store: S.Grants, saving: Saving)
    requires AllIssued(s, issued) && Progress(issued, s.data, d) && KeysIn(d, issued)
    ensures Keeps(issued, s, Saved(s.(data := d, store := store), saving).0)
    ensures Keeps(issued, s, s.(data := d, store := store))
  {
    hide Progress, Saved;
    var changed := s.(data := d, store := store);
    SavingIssuesNothing(changed, saving, issued);
    SavedShape(changed, saving);
    SameRecordsProgress(issued, d, Saved(changed, saving).0.data);
    ProgressIsTransitive(issued, issued, s.data, d, Saved(changed, saving).0.data);
  }

  lemma SavedShape(s: Service, saving: Saving)
    ensures var d := Saved(s, saving).0.data; d == s.data.(lastTime := d.lastTime)
  {
  }

  lemma ClosingKeeps(issued: set<Id>, s: Service, id: Id, saving: Saving)
    requires AllIssued(s, issued) && id in s.data.requests
    ensures var d := s.data.(requests := s.data.requests[id := s.data.requests[id].(status := Rejected)]);
            Keeps(issued, s, s.(data := d)) && Keeps(issued, s, Saved(s.(data := d), saving).0)
  {
    hide Keeps, Saved;
    var d := s.data.(requests := s.data.requests[id := s.data.requests[id].(status := Rejected)]);
    SavedKeeps(issued, s, d, s.store, saving);
  }

  lemma DecidingMoves(issued: set<Id>, s: Service, id: Id, approve: bool, owner: Id, grant: Id, a: Approval, saving: Saving)
    requires AllIssued(s, issued) && (grant == 0 || grant !in issued)
    ensures Moves(issued, grant, s, Decided(s, id, approve, owner, grant, a, saving).0)
  {
    hide Moves, Keeps, Saved, GrantMade;
    StayingMoves(issued, grant, s, s.store, s.healthy);
    if id in s.data.requests && s.data.requests[id].status == Pending && s.data.requests[id].expires > a.check {
      if approve {
        if s.data.requests[id].invitation in s.data.invitations && grant != 0 {
          GrantingMoves(issued, s, id, owner, grant, a, saving);
        }
      } else {
        ClosingKeeps(issued, s, id, saving);
        KeepsMoves(issued, grant, s, Decided(s, id, approve, owner, grant, a, saving).0);
      }
    }
  }

  lemma SettingKeeps(issued: set<Id>, s: Service, id: Id, g: GrantRecord, store: S.Grants, saving: Saving)
    requires AllIssued(s, issued) && id in s.data.grants
    requires g.view.status == Active ==> s.data.grants[id].view.status == Active && Succeeds(s.data.grants[id].view, g.view)
    ensures var d := s.data.(grants := s.data.grants[id := g]);
            Keeps(issued, s, s.(data := d, store := store)) && Keeps(issued, s, Saved(s.(data := d, store := store), saving).0)
  {
    hide Keeps, Saved;
    SavedKeeps(issued, s, s.data.(grants := s.data.grants[id := g]), store, saving);
  }

  lemma RestrictingKeeps(issued: set<Id>, s: Service, id: Id, revision: int, permissions: Permissions, expires: int, storeNow: int, saving: Saving)
    requires Sound(s) && AllIssued(s, issued)
    ensures Keeps(issued, s, RestrictedTo(s, id, revision, permissions, expires, storeNow, saving).0)
  {
    hide Sound, Keeps, Saved, AllIssued, Agrees, KeepsGrants, S.Restricted;
    StayingKeeps(issued, s, s.store, s.healthy);
    if id in s.data.grants && s.data.grants[id].view.status == Active {
      var g := s.data.grants[id];
      RestrictionMatches(s, id, revision, permissions, expires, storeNow);
      var o := RestrictionFor(s, id, revision, permissions, expires, storeNow);
      if o.result.Err? {
        StayingKeeps(issued, s, o.grants, s.healthy);
      } else {
        var g' := g.(view := g.view.(revision := o.result.value.revision, permissions := permissions, expires := o.result.value.expires));
        SettingKeeps(issued, s, id, g', o.grants, saving);
      }
    }
  }

  lemma RevokingKeeps(issued: set<Id>, s: Service, id: Id, saving: Saving)
    requires Sound(s) && AllIssued(s, issued) && id in s.data.grants
    ensures Keeps(issued, s, RevokedIn(s, id, saving).0)
  {
    hide Sound, Keeps, Saved, AllIssued, KeepsGrants, S.Revoked;
    StayingKeeps(issued, s, s.store, s.healthy);
    if s.data.grants[id].view.status == Active {
      var g := s.data.grants[id];
      RevokingOnlyTouches(s, id);
      var o := RevocationFor(s, id);
      SettingKeeps(issued, s, id, g.(view := g.view.(status := Revoked, revision := o.result.value.revision)), o.grants, saving);
    }
  }

  lemma StoppingKeeps(issued: set<Id>, s: Service, id: Id, saving: Saving)
    requires Sound(s) && AllIssued(s, issued)
    ensures Keeps(issued, s, OwnerStopped(s, id, saving).0)
  {
    hide Sound, Keeps, RevokedIn, AllIssued;
    StayingKeeps(issued, s, s.store, s.healthy);
    if id in s.data.grants {
      RevokingKeeps(issued, s, id, saving);
    }
  }

  lemma RequestCancellingKeeps(issued: set<Id>, s: Service, invitation: Id, id: Id, saving: Saving)
    requires Sound(s) && AllIssued(s, issued)
    ensures Keeps(issued, s, RequestCancelled(s, invitation, id, saving).0)
  {
    hide Sound, RevokedIn, Progress, KeysIn;
    StayingKeeps(issued, s, s.store, s.healthy);
    if id in s.data.requests && s.data.requests[id].invitation == invitation {
      var r := s.data.requests[id];
      if r.grant.Some? && r.grant.value in s.data.grants {
        RevokingKeepsSound(s, r.grant.value, saving);
        RevokingKeeps(issued, s, r.grant.value, saving);
      }
      if r.status == Pending {
        SoundPendingHasNoGrant(s, id);
        ClosingKeeps(issued, s, id, saving);
      }
    }
  }

  lemma {:induction false} RequestsCancellingKeeps(issued: set<Id>, s: Service, invitation: Id, order: seq<(Id, Saving)>)
    requires Sound(s) && AllIssued(s, issued)
    ensures Keeps(issued, s, RequestsCancelled(s, invitation, order).0)
  {
    hide Sound, RequestCancelled, Progress;
    if order == [] {
      StayingKeeps(issued, s, s.store, s.healthy);
    } else {
      var before := order[..|order| - 1];
      var mid := RequestsCancelled(s, invitation, before).0;
      RequestsCancellingKeepsSound(s, invitation, before);
      RequestsCancellingKeeps(issued, s, invitation, before);
      StayingKeeps(issued, mid, mid.store, mid.healthy);
      RequestCancellingKeeps(issued, mid, invitation, order[|order| - 1].0, order[|order| - 1].1);
      KeepsIsTransitive(issued, s, mid, RequestsCancelled(s, invitation, order).0);
    }
  }

  lemma SavingKeeps(issued: set<Id>, s: Service, saving: Saving)
    requires AllIssued(s, issued)
    ensures Keeps(issued, s, Saved(s, saving).0)
  {
    SameRecordsProgress(issued, s.data, s.data);
    assert s.(data := s.data, store := s.store) == s;
    SavedKeeps(issued, s, s.data, s.store, saving);
  }

  lemma InvitationCancellingKeeps(issued: set<Id>, s: Service, id: Id, order: seq<(Id, Saving)>, saving: Saving)
    requires Sound(s) && AllIssued(s, issued)
    ensures Keeps(issued, s, InvitationCancelled(s, id, order, saving).0)
  {
    var used := s.(data := InvitationUsed(s.data, id));
    assert Sound(used) && Keeps(issued, s, used) by { UsingKeeps(issued, s, id); }
    hide Sound, RequestsCancelled, Saved, Progress;
    var mid := RequestsCancelled(used, id, order).0;
    RequestsCancellingKeeps(issued, used, id, order);
    KeepsIsTransitive(issued, s, used, mid);
    SavingKeeps(issued, mid, saving);
    KeepsIsTransitive(issued, s, mid, Saved(mid, saving).0);
  }

  lemma UsingKeeps(issued: set<Id>, s: Service, id: Id)
    requires Sound(s) && AllIssued(s, issued)
    ensures Sound(s.(data := InvitationUsed(s.data, id))) && Keeps(issued, s, s.(data := InvitationUsed(s.data, id)))
  {
    hide Integrity, DiskOk, Agreement;
    UsingKeepsIntegrity(s.data, id);
    SameGrantsKeepAgreement(s.data, InvitationUsed(s.data, id), s.store);
  }

  lemma GuestCancellingKeeps(issued: set<Id>, s: Service, id: Id, p: Principal, revoking: Saving, saving: Saving)
    requires Sound(s) && AllIssued(s, issued)
    ensures Keeps(issued, s, GuestCancelled(s, id, p, revoking, saving).0)
  {
    hide Sound, Saved, RevokedIn, Progress, KeysIn;
    StayingKeeps(issued, s, s.store, s.healthy);
    if id in s.data.requests {
      var r := s.data.requests[id];
      if r.grant.Some? && r.grant.value in s.data.grants {
        var mid := RevokedIn(s, r.grant.value, revoking).0;
        RevokingKeepsSound(s, r.grant.value, revoking);
        RevokingKeeps(issued, s, r.grant.value, revoking);
        ClosingKeeps(issued, mid, id, saving);
        KeepsIsTransitive(issued, s, mid, Saved(mid.(data := mid.data.(requests := mid.data.requests[id := r.(status := Rejected)])), saving).0);
      } else {
        ClosingKeeps(issued, s, id, saving);
      }
    }
  }

  lemma BeginningKeeps(issued: set<Id>, s: Service, id: Id, p: Principal, slot: bool, now: int, stamp: int)
    requires AllIssued(s, issued)
    ensures Keeps(issued, s, SnapshotBegun(s, id, p, slot, now, stamp).0)
  {
    hide Keeps, Saved;
    StayingKeeps(issued, s, s.store, s.healthy);
    if id in s.data.grants {
      SettingKeeps(issued, s, id, s.data.grants[id].(lastRead := stamp), s.store, Saving(0, 0, Stored));
    }
  }

  lemma FinishingKeeps(issued: set<Id>, s: Service, c: Capture, reading: Option<SourceSnapshot>, now: int, stamp: int)
    requires AllIssued(s, issued)
    ensures Keeps(issued, s, SnapshotFinished(s, c, reading, now, stamp).0)
  {
    hide S.ProjectedTo, Progress;
    SameRecordsProgress(issued, s.data, s.data);
    SameRecordsProgress(issued, s.data, s.data.(lastTime := stamp));
  }

  lemma RestartingKeeps(issued: set<Id>, s: Service, now: int, issuer: Id, saving: Saving)
    requires AllIssued(s, issued)
    ensures Keeps(issued, s, Restarted(s.disk, now, issuer, saving))
  {
    hide Loadable, S.ProjectedTo;
  }
}
