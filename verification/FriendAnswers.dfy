/** What the handlers of the consent service answer, exactly, and what they have changed. */
module FriendAnswers {
  import opened Wrappers
  import opened FriendTypes
  import opened FriendService
  import opened FriendOrphans
  import opened FriendStoreExact
  import S = FriendStore

  // ---------- Saving ----------

  /** The clock has not gone back, and the file is replaced. */
  predicate SavesWell(s: Service, saving: Saving) {
    s.healthy && 0 <= saving.check <= 253402300799999 && s.data.lastTime <= saving.check && saving.disk == Stored
  }

  /** Nothing but the time of the last save and the health differs. */
  predicate SameRecords(s: Service, s': Service) {
    && s'.data.issuer == s.data.issuer && s'.data.invitations == s.data.invitations && s'.data.requests == s.data.requests
    && s'.data.grants == s.data.grants && s'.store == s.store
  }

  lemma SavedExactly(s: Service, saving: Saving)
    ensures var (s', failure) := Saved(s, saving);
            && (failure.None? <==> SavesWell(s, saving)) && SameRecords(s, s') && (s'.healthy <==> SavesWell(s, saving))
            && (failure.None? ==> s'.data.lastTime == saving.stamp && s'.disk == Some(s'.data))
            && (failure.Some? ==> s'.disk == s.disk || s'.disk == Some(s'.data))
  {
  }

  /** A change of the records, saved: the answer depends on the saving alone, and the records are
      changed either way. */
  lemma ChangeSaved(s: Service, d: Durable, store: S.Grants, saving: Saving, reply: Reply)
    requires d.lastTime == s.data.lastTime && reply != Failed(Unavailable)
    ensures var (s', r) := SavedOr(s.(data := d, store := store), saving, reply);
            && r == (if SavesWell(s, saving) then reply else Failed(Unavailable))
            && s'.data.issuer == d.issuer && s'.data.invitations == d.invitations && s'.data.requests == d.requests
            && s'.data.grants == d.grants && s'.store == store
            && (s'.healthy <==> SavesWell(s, saving)) && (s'.healthy ==> s'.disk == Some(s'.data))
  {
    SavedExactly(s.(data := d, store := store), saving);
  }

  // ---------- Invitations ----------

  predicate FormStands(f: InvitationForm) {
    && f.car >= 1 && f.permissions.location && f.duration in {3600, 7200, 14400, 28800} && f.owner.recipient != 0
    && (match f.expected case None => true case Some(device) => device.recipient != 0)
  }

  predicate HasRoom(d: Durable) { |d.invitations| < 64 && |d.requests| < 64 && |d.grants| < 64 }

  predicate Draws(draw: Draw) { draw.invitation != 0 && draw.member != 0 && draw.session != 0 && draw.secret != 0 }

  /** An invitation that lives ten minutes, for exactly what the form asks. */
  predicate IsInvitation(inv: Invitation, issuer: Id, f: InvitationForm, draw: Draw, now: int) {
    && inv.issuer == issuer && inv.member == draw.member && inv.secret == draw.secret && inv.expires == now + 600000 && !inv.used
    && inv.duration == f.duration && inv.permissions == f.permissions && inv.owner == f.owner.recipient && inv.car == f.car
    && inv.expected == f.expected && inv.session == (if f.session != 0 then f.session else draw.session)
  }

  /** An invitation is made if and only if the form stands, there is room, the source owns the car,
      the draws succeed and it is saved; each refusal has its own failure. */
  lemma InvitingExactly(s: Service, f: InvitationForm, owns: Option<bool>, draw: Draw, now: int, saving: Saving)
    ensures var (s', reply) := InvitationMade(s, f, owns, draw, now, saving);
            var passes := FormStands(f) && HasRoom(s.data) && owns == Some(true) && Draws(draw);
            && (reply.Invited? <==> passes && SavesWell(s, saving))
            && (reply.Invited? ==> reply == Invited(draw.invitation, draw.secret))
            && (reply == Failed(InvalidRequest) <==> !FormStands(f) || (HasRoom(s.data) && owns == Some(false)))
            && (reply == Failed(Full) <==> FormStands(f) && !HasRoom(s.data))
            && (!passes ==> s' == s)
            && (passes ==>
                  && s'.data.invitations.Keys == s.data.invitations.Keys + {draw.invitation}
                  && IsInvitation(s'.data.invitations[draw.invitation], s.data.issuer, f, draw, now)
                  && (forall id :: id in s.data.invitations && id != draw.invitation ==> s'.data.invitations[id] == s.data.invitations[id])
                  && s'.data.requests == s.data.requests && s'.data.grants == s.data.grants && s'.store == s.store)
  {
    hide SavedOr, FormStands, HasRoom, ValidForm, AtCapacity, NewInvitation, IsInvitation, SavesWell;
    var d := s.data.(invitations := s.data.invitations[draw.invitation := NewInvitation(s.data.issuer, f, draw, now)]);
    assert s.(data := d, store := s.store) == s.(data := d);
    ChangeSaved(s, d, s.store, saving, Invited(draw.invitation, draw.secret));
    FormExactly(f, s.data);
    NewInvitationExactly(s.data.issuer, f, draw, now);
  }

  lemma FormExactly(f: InvitationForm, d: Durable)
    ensures ValidForm(f) <==> FormStands(f)
    ensures AtCapacity(d) <==> !HasRoom(d)
  {
  }

  lemma NewInvitationExactly(issuer: Id, f: InvitationForm, draw: Draw, now: int)
    ensures IsInvitation(NewInvitation(issuer, f, draw, now), issuer, f, draw, now)
  {
  }

  // ---------- Redemption ----------

  /** The invitation is there, under this very secret. */
  predicate Presents(d: Durable, f: RedeemForm) {
    f.invitation in d.invitations && d.invitations[f.invitation].secret == f.secret
  }

  predicate Usable(inv: Invitation, now: int) { !inv.used && now < inv.expires }

  predicate Expects(inv: Invitation, f: RedeemForm) {
    match inv.expected case None => true case Some(device) => device.recipient == f.recipient && device.key == f.key
  }

  /** Who may redeem: whoever knows the secret of an unused invitation in time, is the device it
      expects, if it expects one, has its return invitation in order, and finds room. */
  predicate MayRedeem(d: Durable, f: RedeemForm, now: int) {
    && f.invitation != 0 && f.recipient != 0 && Presents(d, f) && Usable(d.invitations[f.invitation], now)
    && Expects(d.invitations[f.invitation], f) && f.returnable && |d.requests| < 64
  }

  /** A redemption makes exactly one request, pending for as long as the invitation, and uses the
      invitation up. */
  ghost predicate IsJoined(s: Service, s': Service, f: RedeemForm, id: Id, token: Id, created: int)
    requires f.invitation in s.data.invitations
  {
    && s'.data.requests.Keys == s.data.requests.Keys + {id}
    && s'.data.requests[id] == Request(f.recipient, f.key, created, s.data.invitations[f.invitation].expires, Pending, f.invitation, token, None)
    && (forall other :: other in s.data.requests && other != id ==> s'.data.requests[other] == s.data.requests[other])
    && s'.data.invitations == s.data.invitations[f.invitation := s.data.invitations[f.invitation].(used := true)]
    && s'.data.grants == s.data.grants && s'.store == s.store
  }

  /** Main result on redemption: a request is made if and only if the guest may redeem and the draws
      succeed, and it is answered if and only if it is saved too; every refusal has its own failure
      and changes nothing. */
  lemma RedeemingExactly(s: Service, f: RedeemForm, id: Id, token: Id, now: int, created: int, saving: Saving)
    ensures var (s', reply) := Redeemed(s, f, id, token, now, created, saving);
            var named := f.invitation != 0 && f.recipient != 0;
            var stands := named && Presents(s.data, f) && Usable(s.data.invitations[f.invitation], now);
            var expected := stands && Expects(s.data.invitations[f.invitation], f);
            && (reply.Joined? <==> MayRedeem(s.data, f, now) && id != 0 && token != 0 && SavesWell(s, saving))
            && (reply.Joined? ==> reply == Joined(id, token))
            && (reply == Failed(InvalidRequest) <==> !named || (expected && !f.returnable))
            && (reply == Failed(Unauthorised) <==> named && (!Presents(s.data, f) || (stands && !expected)))
            && (reply == Failed(Gone) <==> named && Presents(s.data, f) && !stands)
            && (reply == Failed(Full) <==> expected && f.returnable && |s.data.requests| >= 64)
            && (reply == Failed(Unavailable) <==> MayRedeem(s.data, f, now) && !(id != 0 && token != 0 && SavesWell(s, saving)))
            && (if MayRedeem(s.data, f, now) && id != 0 && token != 0 then IsJoined(s, s', f, id, token, created) else s' == s)
  {
    hide SavedOr, SavesWell;
    if MayRedeem(s.data, f, now) {
      var inv := s.data.invitations[f.invitation];
      var r := Request(f.recipient, f.key, created, inv.expires, Pending, f.invitation, token, None);
      var d := s.data.(requests := s.data.requests[id := r], invitations := s.data.invitations[f.invitation := inv.(used := true)]);
      assert s.(data := d, store := s.store) == s.(data := d);
      ChangeSaved(s, d, s.store, saving, Joined(id, token));
    }
  }

  // ---------- Decisions ----------

  predicate Undecided(d: Durable, id: Id, check: int) {
    id in d.requests && d.requests[id].status == Pending && check < d.requests[id].expires
  }

  /** The grant that an approval has already made, still active. */
  predicate Running(d: Durable, id: Id) {
    && id in d.requests && d.requests[id].status == Approved && d.requests[id].grant.Some?
    && d.requests[id].grant.value in d.grants && d.grants[d.requests[id].grant.value].view.status == Active
  }

  /** What an approval needs: request and invitation in time, a draw, one owner device, and a store
      that takes the grant. */
  predicate MayApprove(s: Service, id: Id, owner: Id, grant: Id, a: Approval) {
    && Undecided(s.data, id, a.check) && s.data.requests[id].invitation in s.data.invitations && grant != 0
    && a.at < s.data.requests[id].expires && a.at < s.data.invitations[s.data.requests[id].invitation].expires
    && StoreAccepts(s, id, grant, a) && !Differ(owner, s.data.invitations[s.data.requests[id].invitation].owner)
  }

  /** The record of a grant that has just been made: for the recipient of the request, on the terms
      of the invitation, from the store's clock on, and with whichever owner device is known. */
  predicate IsGranted(s: Service, g: GrantRecord, id: Id, owner: Id, grant: Id, a: Approval)
    requires id in s.data.requests && s.data.requests[id].invitation in s.data.invitations
  {
    var r, inv := s.data.requests[id], s.data.invitations[s.data.requests[id].invitation];
    && g.car == inv.car && g.request == id && g.lastRead == 0
    && g.view.binding == Binding(grant, s.data.issuer, inv.session, inv.member, r.recipient)
    && g.view.revision == 1 && g.view.consentStarted == a.store && g.view.expires == a.at + inv.duration * 1000
    && g.view.permissions == inv.permissions && g.view.status == Active
    && g.view.owner == (if owner != 0 then Some(owner) else if inv.owner != 0 then Some(inv.owner) else None)
  }

  lemma GrantingExactly(s: Service, id: Id, owner: Id, grant: Id, a: Approval, saving: Saving)
    requires id in s.data.requests && s.data.requests[id].invitation in s.data.invitations
    ensures var (s', reply) := GrantMade(s, id, owner, grant, a, saving);
            var r, inv := s.data.requests[id], s.data.invitations[s.data.requests[id].invitation];
            var inTime := a.at < r.expires && a.at < inv.expires;
            var passes := inTime && StoreAccepts(s, id, grant, a) && !Differ(owner, inv.owner);
            && (reply.Shared? <==> passes && SavesWell(s, saving)) && !reply.Declined? && reply != Failed(NotFound)
            && (!inTime ==> reply == Failed(Gone) && s' == s)
            && (inTime && StoreAccepts(s, id, grant, a) && Differ(owner, inv.owner) ==> reply == Failed(InvalidRequest))
            && (inTime && !StoreAccepts(s, id, grant, a) ==>
                  var r := CreationFor(s, id, grant, a).result; r.Err? && reply == Failed(StoreFailure(r.error)))
            && (!passes ==> s'.data == s.data)
            && (passes ==>
                  && s'.data.grants.Keys == s.data.grants.Keys + {grant} && IsGranted(s, s'.data.grants[grant], id, owner, grant, a)
                  && (reply.Shared? ==> reply.view == s'.data.grants[grant].view)
                  && s'.data.requests == s.data.requests[id := r.(status := Approved, grant := Some(grant))]
                  && s'.data.invitations == s.data.invitations
                  && forall other :: other in s.data.grants && other != grant ==> s'.data.grants[other] == s.data.grants[other])
  {
    hide SavedOr, CreationFor, StoreAccepts, SavesWell, IsGranted;
    AcceptedIsCreated(s, id, grant, a);
    CreationIsNew(s, id, grant, a);
    var r, inv, o := s.data.requests[id], s.data.invitations[s.data.requests[id].invitation], CreationFor(s, id, grant, a);
    if o.result.Ok? {
      var view := ViewOf(o.result.value, Active, OriginatingOwner(owner, inv.owner).0);
      var d := s.data.(grants := s.data.grants[grant := GrantRecord(view, inv.car, id, 0)],
                       requests := s.data.requests[id := r.(status := Approved, grant := Some(grant))]);
      ChangeSaved(s, d, o.grants, saving, Shared(view));
      if !Differ(owner, inv.owner) {
        ViewIsGranted(s, id, owner, grant, a);
      }
    }
  }

  lemma ViewIsGranted(s: Service, id: Id, owner: Id, grant: Id, a: Approval)
    requires id in s.data.requests && s.data.requests[id].invitation in s.data.invitations && CreationFor(s, id, grant, a).result.Ok?
    requires !Differ(owner, s.data.invitations[s.data.requests[id].invitation].owner)
    ensures var inv := s.data.invitations[s.data.requests[id].invitation];
            var view := ViewOf(CreationFor(s, id, grant, a).result.value, Active, OriginatingOwner(owner, inv.owner).0);
            IsGranted(s, GrantRecord(view, inv.car, id, 0), id, owner, grant, a)
  {
    hide CreationFor;
    CreationIsNew(s, id, grant, a);
  }

  lemma CreationIsNew(s: Service, id: Id, grant: Id, a: Approval)
    requires id in s.data.requests && s.data.requests[id].invitation in s.data.invitations
    ensures var o, inv := CreationFor(s, id, grant, a), s.data.invitations[s.data.requests[id].invitation];
            o.result.Ok? ==>
              o.result.value == Metadata(Binding(grant, s.data.issuer, inv.session, inv.member, s.data.requests[id].recipient), 1, a.store,
                                         a.at + inv.duration * 1000, inv.permissions)
  {
  }

  /** A decision, exactly: what is declined, what is shared, and that nothing else changes a record. */
  lemma DecidingExactly(s: Service, id: Id, approve: bool, owner: Id, grant: Id, a: Approval, saving: Saving)
    ensures var (s', reply) := Decided(s, id, approve, owner, grant, a, saving);
            && (reply.Declined? <==>
                  !approve && id in s.data.requests
                  && (s.data.requests[id].status == Rejected || (Undecided(s.data, id, a.check) && SavesWell(s, saving))))
            && (reply.Shared? <==>
                  approve && (Running(s.data, id) || (MayApprove(s, id, owner, grant, a) && SavesWell(s, saving))))
            && (approve && Running(s.data, id) ==> s' == s && reply == Shared(s.data.grants[s.data.requests[id].grant.value].view))
            && (reply == Failed(NotFound) <==> id !in s.data.requests)
            && (approve && MayApprove(s, id, owner, grant, a) ==>
                  && s'.data.requests == s.data.requests[id := s.data.requests[id].(status := Approved, grant := Some(grant))]
                  && grant in s'.data.grants && IsGranted(s, s'.data.grants[grant], id, owner, grant, a))
            && (!approve && Undecided(s.data, id, a.check) ==>
                  s'.data.requests == s.data.requests[id := s.data.requests[id].(status := Rejected)] && s'.data.grants == s.data.grants)
            && (!(approve && MayApprove(s, id, owner, grant, a)) && !(!approve && Undecided(s.data, id, a.check)) ==> s'.data == s.data)
  {
    hide GrantMade, SavedOr, StoreAccepts, Differ, IsGranted, SavesWell;
    if id in s.data.requests {
      if s.data.requests[id].invitation in s.data.invitations {
        GrantingExactly(s, id, owner, grant, a, saving);
      }
      var d := s.data.(requests := s.data.requests[id := s.data.requests[id].(status := Rejected)]);
      assert s.(data := d, store := s.store) == s.(data := d);
      ChangeSaved(s, d, s.store, saving, Declined);
    }
  }

  // ---------- Grants ----------

  predicate IsActive(d: Durable, id: Id) { id in d.grants && d.grants[id].view.status == Active }

  /** The service commands the store in the name of its own issuer, for the grant as its view says. */
  predicate StoreFollows(s: Service, id: Id, revision: int)
    requires id in s.data.grants
  {
    var g := s.data.grants[id];
    Commands(s.store, Owner(s.data.issuer, SourceKey(s.data.issuer, g.car)), g.view.binding, SourceKey(s.data.issuer, g.car), revision)
  }

  /** Everything but this grant is as it was, and the grant differs in its view alone. */
  predicate OnlyViewOf(s: Service, s': Service, id: Id) {
    && s'.data.issuer == s.data.issuer && s'.data.invitations == s.data.invitations && s'.data.requests == s.data.requests
    && id in s.data.grants && id in s'.data.grants
    && s'.data.grants == s.data.grants[id := s.data.grants[id].(view := s'.data.grants[id].view)]
  }

  /** What the store needs to narrow the grant. */
  predicate StoreNarrows(s: Service, id: Id, revision: int, permissions: Permissions, expires: int, storeNow: int)
    requires id in s.data.grants
  {
    && StoreFollows(s, id, revision)
    && var g := s.store[s.data.grants[id].view.binding.grant];
       && Alive(g, storeNow) && IsNarrower(permissions, expires, g.metadata, storeNow) && g.metadata.revision != 0x7FFF_FFFF_FFFF_FFFF
  }

  lemma RestrictionForExactly(s: Service, id: Id, revision: int, permissions: Permissions, expires: int, storeNow: int)
    requires id in s.data.grants
    ensures var o := RestrictionFor(s, id, revision, permissions, expires, storeNow);
            && (o.result.Ok? <==> StoreNarrows(s, id, revision, permissions, expires, storeNow))
            && (o.result.Ok? ==> o.result.value.revision == revision + 1 && o.result.value.expires == expires)
  {
    hide S.Restricted;
    var g := s.data.grants[id];
    RestrictedExactly(s.store, Owner(s.data.issuer, SourceKey(s.data.issuer, g.car)), g.view.binding, SourceKey(s.data.issuer, g.car),
                      revision, permissions, expires, storeNow);
  }

  /** A restriction is answered if and only if the grant is active, the store narrows it, and it is
      saved; the view then says what was asked, one revision on. */
  lemma RestrictingExactly(s: Service, id: Id, revision: int, permissions: Permissions, expires: int, storeNow: int, saving: Saving)
    ensures var (s', reply) := RestrictedTo(s, id, revision, permissions, expires, storeNow, saving);
            var passes := IsActive(s.data, id) && StoreNarrows(s, id, revision, permissions, expires, storeNow);
            && (reply.Shared? <==> passes && SavesWell(s, saving))
            && (reply == Failed(NotFound) <==> id !in s.data.grants)
            && (id in s.data.grants && !IsActive(s.data, id) ==> reply == Failed(Gone))
            && (IsActive(s.data, id) && !passes ==>
                  var r := RestrictionFor(s, id, revision, permissions, expires, storeNow).result;
                  r.Err? && reply == Failed(StoreFailure(r.error)))
            && (!passes ==> s'.data == s.data)
            && (passes ==>
                  && OnlyViewOf(s, s', id) && (reply.Shared? ==> reply == Shared(s'.data.grants[id].view))
                  && s'.data.grants[id].view ==
                     s.data.grants[id].view.(revision := revision + 1, permissions := permissions, expires := expires))
  {
    hide RestrictionFor, SavedOr, SavesWell, StoreNarrows;
    if IsActive(s.data, id) {
      RestrictionForExactly(s, id, revision, permissions, expires, storeNow);
      var g, o := s.data.grants[id], RestrictionFor(s, id, revision, permissions, expires, storeNow);
      if o.result.Ok? {
        var view := g.view.(revision := o.result.value.revision, permissions := permissions, expires := o.result.value.expires);
        ChangeSaved(s, s.data.(grants := s.data.grants[id := g.(view := view)]), o.grants, saving, Shared(view));
      }
    }
  }

  lemma RevocationForExactly(s: Service, id: Id)
    requires id in s.data.grants
    ensures var o, g := RevocationFor(s, id), s.data.grants[id];
            && (o.result.Ok? <==> StoreFollows(s, id, g.view.revision))
            && (o.result.Ok? ==> o.grants.Keys == s.store.Keys && g.view.binding.grant in o.grants && o.grants[g.view.binding.grant].revoked)
  {
    hide S.Revoked;
    var g := s.data.grants[id];
    RevokedExactly(s.store, Owner(s.data.issuer, SourceKey(s.data.issuer, g.car)), g.view.binding, SourceKey(s.data.issuer, g.car),
                   g.view.revision);
  }

  /** Stopping a grant, exactly: nothing to do for one that is over, an unhealthy service if the
      store does not follow, and else a revoked view, whether or not it can be saved. */
  lemma StoppingExactly(s: Service, id: Id, saving: Saving)
    requires id in s.data.grants
    ensures var (s', failure) := RevokedIn(s, id, saving);
            && (!IsActive(s.data, id) ==> s' == s && failure.None?)
            && (IsActive(s.data, id) ==> (failure.None? <==> StoreFollows(s, id, s.data.grants[id].view.revision) && SavesWell(s, saving)))
            && (IsActive(s.data, id) && !StoreFollows(s, id, s.data.grants[id].view.revision) ==> !s'.healthy && s'.data == s.data)
            && (IsActive(s.data, id) && StoreFollows(s, id, s.data.grants[id].view.revision) ==>
                  && OnlyViewOf(s, s', id) && s'.data.grants[id].view.status == Revoked && (s'.healthy <==> SavesWell(s, saving))
                  && s.data.grants[id].view.binding.grant in s'.store && s'.store[s.data.grants[id].view.binding.grant].revoked)
  {
    hide RevocationFor, Saved, SavesWell, StoreFollows;
    if IsActive(s.data, id) {
      RevocationForExactly(s, id);
      var g, o := s.data.grants[id], RevocationFor(s, id);
      if o.result.Ok? {
        var view := g.view.(status := Revoked, revision := o.result.value.revision);
        var changed := s.(data := s.data.(grants := s.data.grants[id := g.(view := view)]), store := o.grants);
        SavedExactly(changed, saving);
        SavingAlike(s, changed, saving);
      }
    }
  }

  lemma SavingAlike(s: Service, changed: Service, saving: Saving)
    requires changed.healthy == s.healthy && changed.data.lastTime == s.data.lastTime
    ensures SavesWell(changed, saving) <==> SavesWell(s, saving)
  {
  }

  // ---------- Guests ----------

  /** Token and key are those of the request. */
  predicate Acts(d: Durable, request: Id, p: Principal) {
    request in d.requests && d.requests[request].token == p.token && d.requests[request].key == p.key
  }

  predicate Holds(d: Durable, id: Id, p: Principal) { id in d.grants && Acts(d, d.grants[id].request, p) }

  /** A guest cancels its own request if and only if its grant, where one is active, can be stopped,
      and the rejection is saved; somebody else's request is never touched. */
  lemma GuestCancellingExactly(s: Service, id: Id, p: Principal, revoking: Saving, saving: Saving)
    ensures var (s', reply) := GuestCancelled(s, id, p, revoking, saving);
            && (!Acts(s.data, id, p) ==> reply == Failed(Unauthorised) && s' == s)
            && (Acts(s.data, id, p) ==>
                  var grant := s.data.requests[id].grant;
                  var (s1, failure) := if grant.Some? && grant.value in s.data.grants then RevokedIn(s, grant.value, revoking) else (s, None);
                  && (reply == Cancelled <==> failure.None? && SavesWell(s1, saving))
                  && (failure.Some? ==> s' == s1)
                  && (failure.None? ==>
                        && s'.data.requests == s.data.requests[id := s.data.requests[id].(status := Rejected)]
                        && s'.data.invitations == s.data.invitations && s'.data.grants == s1.data.grants
                        && (grant.Some? ==> !IsActive(s'.data, grant.value))))
  {
    hide RevokedIn, SavedOr, SavesWell, StoreFollows;
    if Acts(s.data, id, p) {
      var r := s.data.requests[id];
      if r.grant.Some? && r.grant.value in s.data.grants {
        StoppingExactly(s, r.grant.value, revoking);
      }
      var (s1, failure) := if r.grant.Some? && r.grant.value in s.data.grants then RevokedIn(s, r.grant.value, revoking) else (s, None);
      if failure.None? {
        var d := s1.data.(requests := s1.data.requests[id := r.(status := Rejected)]);
        assert s1.(data := d, store := s1.store) == s1.(data := d);
        ChangeSaved(s1, d, s1.store, saving, Cancelled);
      }
    }
  }

  /** A guest leaves exactly its own grant, as if the owner had stopped it. */
  lemma LeavingExactly(s: Service, id: Id, p: Principal, saving: Saving)
    ensures !Holds(s.data, id, p) ==> GuestLeft(s, id, p, saving) == (s, Failed(Unauthorised))
    ensures Holds(s.data, id, p) ==> GuestLeft(s, id, p, saving) == OwnerStopped(s, id, saving)
  {
    hide OwnerStopped;
  }

  // ---------- Snapshots ----------

  /** A snapshot begins if and only if the guest holds the grant, it is active, the last read is a
      second ago, and a slot is free; it captures the view and remembers the read. */
  lemma BeginningExactly(s: Service, id: Id, p: Principal, slot: bool, now: int, stamp: int)
    ensures var (s', reply) := SnapshotBegun(s, id, p, slot, now, stamp);
            var rested := id in s.data.grants && (s.data.grants[id].lastRead == 0 || s.data.grants[id].lastRead + 1000 <= now);
            && (reply.Reading? <==> Holds(s.data, id, p) && IsActive(s.data, id) && rested && slot)
            && (reply == Failed(Unauthorised) <==> !Holds(s.data, id, p))
            && (reply == Failed(Gone) <==> Holds(s.data, id, p) && !IsActive(s.data, id))
            && (reply == Failed(RateLimited) <==> Holds(s.data, id, p) && IsActive(s.data, id) && !(rested && slot))
            && (!reply.Reading? ==> s' == s)
            && (reply.Reading? ==>
                  && reply.capture.view == s.data.grants[id].view && reply.capture.recipient == s.data.requests[s.data.grants[id].request].recipient
                  && reply.capture.source == SourceKey(s.data.issuer, s.data.grants[id].car)
                  && s' == s.(data := s.data.(grants := s.data.grants[id := s.data.grants[id].(lastRead := stamp)])))
  {
  }

  /** What the store needs to hand out the reading. */
  ghost predicate StoreShows(s: Service, c: Capture, source: SourceSnapshot, storeNow: int) {
    && c.recipient == c.view.binding.recipient && Known(s.store, c.view.binding, source.source)
    && At(s.store[c.view.binding.grant], c.view.revision)
    && S.ProjectedOnto(s.store[c.view.binding.grant], source, storeNow).1.Ok?
  }

  /** A snapshot is delivered if and only if the captured view is still active under the same
      revision, the source has answered, and the store hands the reading out; what is delivered is
      what the store's grant projects. */
  lemma FinishingExactly(s: Service, c: Capture, reading: Option<SourceSnapshot>, storeNow: int, stamp: int)
    ensures var (s', reply) := SnapshotFinished(s, c, reading, storeNow, stamp);
            var id := c.view.binding.grant;
            var current := IsActive(s.data, id) && s.data.grants[id].view.revision == c.view.revision;
            && (reply.Delivered? <==> current && reading.Some? && StoreShows(s, c, reading.value, storeNow))
            && (!IsActive(s.data, id) ==> reply == Failed(Gone) && s' == s)
            && (IsActive(s.data, id) && !current ==> reply == Failed(Conflict) && s' == s)
            && (current && reading.None? ==> reply == Failed(Unavailable) && s' == s)
            && (current && reading.Some? && !StoreShows(s, c, reading.value, storeNow) ==>
                  var r := S.ProjectedTo(s.store, c.recipient, c.view.binding, c.view.revision, reading.value, storeNow).result;
                  r.Err? && reply == Failed(StoreFailure(r.error)) && s'.data == s.data)
            && (reply.Delivered? ==>
                  && reply.snapshot == S.ProjectedOnto(s.store[id], reading.value, storeNow).1.value
                  && s'.data == s.data.(lastTime := stamp) && s'.healthy == s.healthy)
            && s'.data.grants == s.data.grants && s'.data.requests == s.data.requests && s'.data.invitations == s.data.invitations
  {
    hide S.ProjectedOnto, S.ProjectedTo, Known, At;
    if reading.Some? {
      ProjectedExactly(s.store, c.recipient, c.view.binding, c.view.revision, reading.value, storeNow);
    }
  }

  // ---------- Expiry ----------

  predicate Ended(g: GrantRecord, now: int) { g.view.status != Active || g.view.expires <= now }

  /** What the cleanup at the start of a request does, record by record: what is due expires, and
      ten minutes after its expiry what is over goes, but not a request whose grant stays nor an
      invitation whose request stays. */
  lemma CleaningExactly(d: Durable, now: int, id: Id)
    ensures var d' := Reclaimed(Lapsed(d, now), now - 600000);
            && (id in d'.grants <==> id in d.grants && !(Ended(d.grants[id], now) && d.grants[id].view.expires <= now - 600000))
            && (id in d'.grants ==>
                  d'.grants[id] == d.grants[id].(view := d.grants[id].view.(status :=
                    if d.grants[id].view.status == Active && d.grants[id].view.expires <= now then Expired else d.grants[id].view.status)))
            && (id in d'.requests <==>
                  id in d.requests && !(d.requests[id].expires <= now - 600000
                                        && (d.requests[id].grant.Some? ==> d.requests[id].grant.value !in d'.grants)))
            && (id in d'.requests ==>
                  d'.requests[id] == d.requests[id].(status :=
                    if d.requests[id].status == Pending && d.requests[id].expires <= now then Expired else d.requests[id].status))
            && (id in d'.invitations <==>
                  id in d.invitations && !(d.invitations[id].expires <= now - 600000
                                           && forall r :: r in d'.requests ==> d'.requests[r].invitation != id))
            && (id in d'.invitations ==> d'.invitations[id] == d.invitations[id])
  {
  }

  /** A restart takes over what is on file, if the file can be read and its clock has not gone back,
      and ends it all: nothing can be redeemed, decided or read again. */
  lemma RestartingExactly(disk: Option<Durable>, now: int, issuer: Id, saving: Saving)
    ensures var s := Restarted(disk, now, issuer, saving);
            var d := if disk.Some? then disk.value else NO_DATA;
            var stands := (disk.Some? ==> Loadable(disk.value)) && (d.issuer != 0 || issuer != 0) && d.lastTime <= now
                          && 0 <= saving.check <= 253402300799999 && d.lastTime <= saving.check && saving.disk == Stored;
            && (s.healthy <==> stands) && s.store == map[]
            && (!s.healthy ==> s.data == NO_DATA)
            && (s.healthy ==>
                  && s.disk == Some(s.data) && s.data.issuer == (if d.issuer != 0 then d.issuer else issuer) && s.data.lastTime == saving.stamp
                  && s.data.invitations.Keys == d.invitations.Keys && s.data.requests.Keys == d.requests.Keys && s.data.grants.Keys == d.grants.Keys
                  && (forall id :: id in d.invitations ==> s.data.invitations[id] == d.invitations[id].(used := true))
                  && (forall id :: id in d.requests ==> s.data.requests[id] == d.requests[id].(status := Expired))
                  && (forall id :: id in d.grants ==> IsEnded(d.grants[id], s.data.grants[id])))
  {
    hide Loadable;
  }

  predicate IsEnded(g: GrantRecord, g': GrantRecord) {
    && g'.lastRead == 0 && g'.car == g.car && g'.request == g.request
    && g'.view == (if g.view.status == Active then g.view.(status := Revoked, revision := g.view.revision + 1) else g.view)
  }

  /** The service works on if and only if it was healthy and the clock is valid and has not gone back;
      then the cleanup is done, and else no record is touched and every request fails. */
  lemma EnteringExactly(s: Service, entry: Entry, op: Operation)
    ensures var s' := Entered(s, entry);
            && (s'.healthy <==> s.healthy && 0 <= entry.check <= 253402300799999 && s.data.lastTime <= entry.check)
            && (!s'.healthy ==> s' == s.(healthy := false) && Step(s, Serve(entry, op)) == (s', Failed(Unavailable)))
            && (s'.healthy ==>
                  && s'.data == Reclaimed(Lapsed(s.data.(lastTime := entry.check), entry.expire), entry.expire - 600000)
                  && s'.store == S.Pruned(s.store, entry.expire - 600000, entry.prune) && s'.disk == s.disk
                  && Step(s, Serve(entry, op)) == Handled(s', op))
  {
    hide Reclaimed, Lapsed, S.Pruned, Handled;
  }

  // ---------- Owners ----------

  /** An owner who stops a grant is shown it as it then is, unless it is unknown or stopping failed. */
  lemma OwnerStoppingExactly(s: Service, id: Id, saving: Saving)
    ensures id !in s.data.grants ==> OwnerStopped(s, id, saving) == (s, Failed(NotFound))
    ensures id in s.data.grants ==>
              var (s1, failure) := RevokedIn(s, id, saving);
              var (s', reply) := OwnerStopped(s, id, saving);
              && s' == s1 && (reply.Shared? <==> failure.None?)
              && (reply.Shared? ==> id in s'.data.grants && reply.view == s'.data.grants[id].view && !IsActive(s'.data, id))
  {
    if id in s.data.grants {
      StoppingExactly(s, id, saving);
    }
    hide RevokedIn;
  }

  /** One turn of the owner's cancellation: the grant of a request of this invitation is stopped, and
      then the request rejected if it was pending; a request of another invitation is not touched. */
  lemma RequestCancellingExactly(s: Service, invitation: Id, id: Id, saving: Saving)
    ensures var (s', failure) := RequestCancelled(s, invitation, id, saving);
            var its := id in s.data.requests && s.data.requests[id].invitation == invitation;
            && (!its ==> s' == s && failure.None?)
            && (its ==>
                  var grant := s.data.requests[id].grant;
                  var (s1, stopped) := if grant.Some? && grant.value in s.data.grants then RevokedIn(s, grant.value, saving) else (s, None);
                  && failure == stopped
                  && (failure.None? && grant.Some? ==> !IsActive(s'.data, grant.value))
                  && s'.data.requests ==
                     (if failure.None? && s.data.requests[id].status == Pending
                      then s.data.requests[id := s.data.requests[id].(status := Rejected)] else s.data.requests)
                  && s'.data.grants == s1.data.grants && s'.data.invitations == s.data.invitations && s'.store == s1.store)
  {
    if id in s.data.requests && s.data.requests[id].grant.Some? && s.data.requests[id].grant.value in s.data.grants {
      StoppingExactly(s, s.data.requests[id].grant.value, saving);
    }
    hide RevokedIn, StoreFollows, SavesWell;
  }

  /** A cancellation is answered as done if and only if every turn went well and it is saved. */
  lemma InvitationCancellingExactly(s: Service, id: Id, order: seq<(Id, Saving)>, saving: Saving)
    ensures var used := s.(data := InvitationUsed(s.data, id));
            var (s1, failure) := RequestsCancelled(used, id, order);
            var (s', reply) := InvitationCancelled(s, id, order, saving);
            && (reply == Cancelled <==> failure.None? && SavesWell(s1, saving))
            && (failure.Some? ==> s' == s1 && reply == Failed(failure.value)) && SameRecords(s1, s')
  {
    hide RequestsCancelled, SavedOr, SavesWell;
    var s1 := RequestsCancelled(s.(data := InvitationUsed(s.data, id)), id, order).0;
    assert s1.(data := s1.data, store := s1.store) == s1;
    ChangeSaved(s1, s1.data, s1.store, saving, Cancelled);
  }

  /** The store's errors, as the handlers answer them. */
  lemma StoreFailureExactly(e: Error)
    ensures StoreFailure(e) == Gone <==> e == Inactive
    ensures StoreFailure(e) == Full <==> e == NoCapacity
    ensures StoreFailure(e) == Unauthorised <==> e == NotAuthorized
    ensures StoreFailure(e) == Conflict <==> e == RevisionMismatch
    ensures StoreFailure(e) == InvalidRequest <==> e == Invalid
    ensures StoreFailure(e) == Unavailable <==> e == OutOfOrder || e == Exhausted
  {
  }
}
