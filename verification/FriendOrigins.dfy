/** Where the records of the consent service come from: in every run, each request from a
    redemption with its invitation's secret, each grant from an approval of its request, and the
    terms of neither ever change. */
module FriendOrigins {
  import opened Wrappers
  import opened FriendTypes
  import opened FriendService
  import opened FriendIntegrity
  import opened FriendConsent
  import opened FriendRuns
  import opened FriendHistory
  import S = FriendStore

  // ---------- One step ----------

  predicate SameInvitation(i: Invitation, i': Invitation) { i' == i.(used := i'.used) }

  predicate SameRequest(r: Request, r': Request) { r' == r.(status := r'.status, grant := r'.grant) }

  predicate SameGrant(g: GrantRecord, g': GrantRecord) {
    g'.request == g.request && g'.car == g.car && g'.view.binding == g.view.binding && g'.view.owner == g.view.owner
  }

  /** The operation asks for this request and shows this secret. */
  predicate Asks(op: Operation, id: Id, r: Request, secret: Id) {
    && op.Redeem? && op.request == id && op.token == r.token && op.redeem.invitation == r.invitation
    && op.redeem.recipient == r.recipient && op.redeem.key == r.key && op.redeem.secret == secret
  }

  predicate Approves(op: Operation, id: Id, g: GrantRecord) { op.Decide? && op.approve && op.grant == id && op.request == g.request }

  ghost predicate InvitationsStem(op: Operation, d: Durable, d': Durable) {
    forall id :: id in d'.invitations ==>
                   || (id in d.invitations && SameInvitation(d.invitations[id], d'.invitations[id]))
                   || (op.MakeInvitation? && op.draw.invitation == id)
  }

  ghost predicate RequestsStem(op: Operation, d: Durable, d': Durable) {
    forall id :: id in d'.requests ==>
                   || (id in d.requests && SameRequest(d.requests[id], d'.requests[id]))
                   || (d'.requests[id].invitation in d.invitations
                       && Asks(op, id, d'.requests[id], d.invitations[d'.requests[id].invitation].secret))
  }

  ghost predicate GrantsStem(op: Operation, d: Durable, d': Durable) {
    forall id :: id in d'.grants ==> (id in d.grants && SameGrant(d.grants[id], d'.grants[id])) || Approves(op, id, d'.grants[id])
  }

  /** Every record is one there was, on the same terms, or the one that the operation asks for. */
  ghost predicate Stems(op: Operation, d: Durable, d': Durable) {
    InvitationsStem(op, d, d') && RequestsStem(op, d, d') && GrantsStem(op, d, d')
  }

  ghost predicate Stem(op: Operation, s: Service, s': Service) {
    Stems(op, s.data, s'.data) && (s'.disk == s.disk || (s'.disk.Some? && Stems(op, s.data, s'.disk.value)))
  }

  lemma StemsFromItself(op: Operation, d: Durable, d': Durable)
    requires d'.invitations == d.invitations && d'.requests == d.requests && d'.grants == d.grants
    ensures Stems(op, d, d')
  {
  }

  lemma StemsOn(op: Operation, d: Durable, mid: Durable, d': Durable)
    requires Stems(Look, d, mid) && Stems(op, mid, d')
    ensures Stems(op, d, d')
  {
    hide RequestsStem, GrantsStem;
    RequestsStemOn(op, d, mid, d');
    GrantsStemOn(op, d, mid, d');
  }

  lemma RequestsStemOn(op: Operation, d: Durable, mid: Durable, d': Durable)
    requires RequestsStem(Look, d, mid) && InvitationsStem(Look, d, mid) && RequestsStem(op, mid, d')
    ensures RequestsStem(op, d, d')
  {
  }

  lemma GrantsStemOn(op: Operation, d: Durable, mid: Durable, d': Durable)
    requires GrantsStem(Look, d, mid) && GrantsStem(op, mid, d')
    ensures GrantsStem(op, d, d')
  {
  }

  lemma SavedStem(op: Operation, s: Service, changed: Service, saving: Saving)
    requires changed.disk == s.disk && Stems(op, s.data, changed.data)
    ensures Stem(op, s, Saved(changed, saving).0)
  {
    hide Stems;
    SavingKeepsRecords(changed, saving);
    SameRecordsStem(op, s.data, changed.data, Saved(changed, saving).0.data);
  }

  lemma SavingKeepsRecords(s: Service, saving: Saving)
    ensures var s' := Saved(s, saving).0;
            && s'.data == s.data.(lastTime := s'.data.lastTime)
            && (s'.disk == s.disk || s'.disk == Some(s'.data))
  {
  }

  lemma SameRecordsStem(op: Operation, d: Durable, mid: Durable, d': Durable)
    requires Stems(op, d, mid) && d' == mid.(lastTime := d'.lastTime)
    ensures Stems(op, d, d')
  {
  }

  lemma StaysStem(op: Operation, s: Service, s': Service)
    requires s'.data == s.data && s'.disk == s.disk
    ensures Stem(op, s, s')
  {
  }

  lemma EnteringStems(s: Service, entry: Entry)
    ensures Stem(Look, s, Entered(s, entry))
  {
    hide HasRequest, Reclaimable;
  }

  // ---------- Handlers ----------

  lemma InvitingStems(s: Service, op: Operation)
    requires op.MakeInvitation?
    ensures Stem(op, s, InvitationMade(s, op.form, op.owns, op.draw, op.now, op.saving).0)
  {
    hide Saved, Stem, NewInvitation;
    StaysStem(op, s, s);
    var d := s.data.(invitations := s.data.invitations[op.draw.invitation := NewInvitation(s.data.issuer, op.form, op.draw, op.now)]);
    assert Stems(op, s.data, d);
    SavedStem(op, s, s.(data := d), op.saving);
  }

  lemma RedeemingStems(s: Service, op: Operation)
    requires op.Redeem?
    ensures Stem(op, s, Redeemed(s, op.redeem, op.request, op.token, op.now, op.created, op.saving).0)
  {
    hide Saved, Stem;
    StaysStem(op, s, s);
    var f := op.redeem;
    if RedeemRefused(s.data, f, op.now).None? {
      var inv := s.data.invitations[f.invitation];
      var r := Request(f.recipient, f.key, op.created, inv.expires, Pending, f.invitation, op.token, None);
      var d := s.data.(requests := s.data.requests[op.request := r], invitations := s.data.invitations[f.invitation := inv.(used := true)]);
      assert Stems(op, s.data, d);
      SavedStem(op, s, s.(data := d), op.saving);
    }
  }

  lemma GrantingStems(s: Service, op: Operation)
    requires op.Decide? && op.approve && op.request in s.data.requests && s.data.requests[op.request].invitation in s.data.invitations
    ensures Stem(op, s, GrantMade(s, op.request, op.owner, op.grant, op.at, op.saving).0)
  {
    hide Saved, Stem, CreationFor;
    var r, inv, o := s.data.requests[op.request], s.data.invitations[s.data.requests[op.request].invitation],
                     CreationFor(s, op.request, op.grant, op.at);
    StaysStem(op, s, s);
    StaysStem(op, s, s.(store := o.grants));
    if o.result.Ok? {
      var view := ViewOf(o.result.value, Active, OriginatingOwner(op.owner, inv.owner).0);
      var d := s.data.(grants := s.data.grants[op.grant := GrantRecord(view, inv.car, op.request, 0)],
                       requests := s.data.requests[op.request := r.(status := Approved, grant := Some(op.grant))]);
      assert Stems(op, s.data, d);
      SavedStem(op, s, s.(data := d, store := o.grants), op.saving);
    }
  }

  lemma DecidingStems(s: Service, op: Operation)
    requires op.Decide?
    ensures Stem(op, s, Decided(s, op.request, op.approve, op.owner, op.grant, op.at, op.saving).0)
  {
    hide Saved, Stem, GrantMade;
    StaysStem(op, s, s);
    if op.request in s.data.requests {
      if op.approve && s.data.requests[op.request].invitation in s.data.invitations {
        GrantingStems(s, op);
      }
      ClosingStems(op, s, op.request, Rejected, op.saving);
    }
  }

  lemma ClosingStems(op: Operation, s: Service, id: Id, status: Status, saving: Saving)
    requires id in s.data.requests
    ensures var d := s.data.(requests := s.data.requests[id := s.data.requests[id].(status := status)]);
            Stems(op, s.data, d) && Stem(op, s, Saved(s.(data := d), saving).0)
  {
    hide Saved, Stem;
    var d := s.data.(requests := s.data.requests[id := s.data.requests[id].(status := status)]);
    SavedStem(op, s, s.(data := d), saving);
  }

  /** A grant record under another view of the same binding and owner. */
  lemma ViewStems(op: Operation, s: Service, id: Id, g: GrantRecord, store: S.Grants, saving: Saving)
    requires id in s.data.grants && SameGrant(s.data.grants[id], g)
    ensures var d := s.data.(grants := s.data.grants[id := g]);
            Stems(op, s.data, d) && Stem(op, s, Saved(s.(data := d, store := store), saving).0)
  {
    hide Saved, Stem;
    var d := s.data.(grants := s.data.grants[id := g]);
    SavedStem(op, s, s.(data := d, store := store), saving);
  }

  lemma RestrictingStems(s: Service, op: Operation)
    requires op.Restrict?
    ensures Stem(op, s, RestrictedTo(s, op.grant, op.revision, op.permissions, op.expires, op.now, op.saving).0)
  {
    hide Saved, Stem, RestrictionFor, Stems;
    StaysStem(op, s, s);
    if op.grant in s.data.grants {
      var g, o := s.data.grants[op.grant], RestrictionFor(s, op.grant, op.revision, op.permissions, op.expires, op.now);
      StaysStem(op, s, s.(store := o.grants));
      if o.result.Ok? {
        var view := g.view.(revision := o.result.value.revision, permissions := op.permissions, expires := o.result.value.expires);
        ViewStems(op, s, op.grant, g.(view := view), o.grants, op.saving);
      }
    }
  }

  lemma RevokingStems(op: Operation, s: Service, id: Id, saving: Saving)
    requires id in s.data.grants
    ensures Stem(op, s, RevokedIn(s, id, saving).0)
  {
    hide Saved, Stem, RevocationFor, Stems;
    StaysStem(op, s, s);
    var g, o := s.data.grants[id], RevocationFor(s, id);
    StaysStem(op, s, s.(store := o.grants, healthy := false));
    if o.result.Ok? {
      ViewStems(op, s, id, g.(view := g.view.(status := Revoked, revision := o.result.value.revision)), o.grants, saving);
    }
  }

  lemma StemOn(op: Operation, s: Service, mid: Service, s': Service)
    requires Stem(Look, s, mid) && Stem(op, mid, s')
    ensures Stem(op, s, s')
  {
    hide Stems;
    StemsOn(op, s.data, mid.data, s'.data);
    if s'.disk != mid.disk {
      StemsOn(op, s.data, mid.data, s'.disk.value);
    } else if mid.disk != s.disk {
      LookStemsAny(op, s.data, mid.disk.value);
    }
  }

  lemma LookStemsAny(op: Operation, d: Durable, d': Durable)
    requires Stems(Look, d, d')
    ensures Stems(op, d, d')
  {
  }

  lemma RequestCancellingStems(s: Service, invitation: Id, id: Id, saving: Saving)
    ensures Stem(Look, s, RequestCancelled(s, invitation, id, saving).0)
  {
    hide RevokedIn, Stem, Stems;
    StaysStem(Look, s, s);
    if id in s.data.requests && s.data.requests[id].invitation == invitation {
      var r := s.data.requests[id];
      if r.grant.Some? && r.grant.value in s.data.grants {
        RevokingStems(Look, s, r.grant.value, saving);
      }
      var s1 := if r.grant.Some? && r.grant.value in s.data.grants then RevokedIn(s, r.grant.value, saving).0 else s;
      RejectingStems(s, s1, id);
    }
  }

  lemma RejectingStems(s: Service, s1: Service, id: Id)
    requires Stem(Look, s, s1) && id in s.data.requests
    ensures Stem(Look, s, s1.(data := s1.data.(requests := s1.data.requests[id := s.data.requests[id].(status := Rejected)])))
  {
  }

  lemma {:induction false} RequestsCancellingStems(s: Service, invitation: Id, order: seq<(Id, Saving)>)
    ensures Stem(Look, s, RequestsCancelled(s, invitation, order).0)
  {
    hide Stem, Stems, RequestCancelled;
    StaysStem(Look, s, s);
    if order != [] {
      var before, last := order[..|order| - 1], order[|order| - 1];
      RequestsCancellingStems(s, invitation, before);
      var mid := RequestsCancelled(s, invitation, before).0;
      RequestCancellingStems(mid, invitation, last.0, last.1);
      StemOn(Look, s, mid, RequestCancelled(mid, invitation, last.0, last.1).0);
    }
  }

  lemma InvitationCancellingStems(s: Service, op: Operation)
    requires op.CancelInvitation?
    ensures Stem(Look, s, InvitationCancelled(s, op.invitation, op.order, op.saving).0)
  {
    hide Stem, Stems, Saved, RequestsCancelled;
    var used := s.(data := InvitationUsed(s.data, op.invitation));
    UsingStems(s, op.invitation);
    RequestsCancellingStems(used, op.invitation, op.order);
    var mid := RequestsCancelled(used, op.invitation, op.order).0;
    StemOn(Look, s, used, mid);
    StemsFromItself(Look, mid.data, mid.data);
    SavedStem(Look, mid, mid, op.saving);
    StemOn(Look, s, mid, Saved(mid, op.saving).0);
  }

  lemma UsingStems(s: Service, id: Id)
    ensures Stem(Look, s, s.(data := InvitationUsed(s.data, id)))
  {
  }

  lemma GuestCancellingStems(s: Service, op: Operation)
    requires op.CancelRequest?
    ensures Stem(Look, s, GuestCancelled(s, op.request, op.guest, op.revoking, op.saving).0)
  {
    hide RevokedIn, Stem, Stems, Saved;
    StaysStem(Look, s, s);
    if op.request in s.data.requests {
      var r := s.data.requests[op.request];
      if r.grant.Some? && r.grant.value in s.data.grants {
        RevokingStems(Look, s, r.grant.value, op.revoking);
      }
      var s1 := if r.grant.Some? && r.grant.value in s.data.grants then RevokedIn(s, r.grant.value, op.revoking).0 else s;
      RejectingStems(s, s1, op.request);
      var s2 := s1.(data := s1.data.(requests := s1.data.requests[op.request := r.(status := Rejected)]));
      StemsFromItself(Look, s2.data, s2.data);
      SavedStem(Look, s2, s2, op.saving);
      StemOn(Look, s, s2, Saved(s2, op.saving).0);
    }
  }

  lemma SnapshotStems(s: Service, op: Operation)
    requires op.BeginSnapshot? || op.FinishSnapshot?
    ensures Stem(Look, s, Handled(s, op).0)
  {
    hide SnapshotBegun, SnapshotFinished, Stem;
    if op.BeginSnapshot? {
      BeginningAlone(s, op);
    } else {
      FinishingAlone(s, op);
    }
  }

  lemma BeginningAlone(s: Service, op: Operation)
    requires op.BeginSnapshot?
    ensures Stem(Look, s, SnapshotBegun(s, op.grant, op.guest, op.slot, op.now, op.stamp).0)
  {
  }

  lemma FinishingAlone(s: Service, op: Operation)
    requires op.FinishSnapshot?
    ensures Stem(Look, s, SnapshotFinished(s, op.capture, op.reading, op.now, op.stamp).0)
  {
    hide S.ProjectedTo;
  }

  lemma LookStemAny(op: Operation, s: Service, s': Service)
    requires Stem(Look, s, s')
    ensures Stem(op, s, s')
  {
    hide Stems;
    LookStemsAny(op, s.data, s'.data);
    if s'.disk != s.disk {
      LookStemsAny(op, s.data, s'.disk.value);
    }
  }

  lemma HandlingStems(s: Service, op: Operation)
    ensures Stem(op, s, Handled(s, op).0)
  {
    StaysStem(op, s, s);
    var s' := Handled(s, op).0;
    match op
    case MakeInvitation(_, _, _, _, _) => { hide Stem, InvitationMade; InvitingStems(s, op); }
    case Redeem(_, _, _, _, _, _) => { hide Stem, Redeemed; RedeemingStems(s, op); }
    case Decide(_, _, _, _, _, _) => { hide Stem, Decided; DecidingStems(s, op); }
    case Restrict(_, _, _, _, _, _) => { hide Stem, RestrictedTo; RestrictingStems(s, op); }
    case Stop(grant, saving) => { hide Stem, RevokedIn; if grant in s.data.grants { RevokingStems(op, s, grant, saving); } }
    case Leave(grant, _, saving) => { hide Stem, RevokedIn; if grant in s.data.grants { RevokingStems(op, s, grant, saving); } }
    case CancelInvitation(_, _, _) => { hide Stem, InvitationCancelled; InvitationCancellingStems(s, op); LookStemAny(op, s, s'); }
    case CancelRequest(_, _, _, _) => { hide Stem, GuestCancelled; GuestCancellingStems(s, op); LookStemAny(op, s, s'); }
    case Look =>
    case _ => { hide Stem, Handled; SnapshotStems(s, op); LookStemAny(op, s, s'); }
  }

  // ---------- Whole runs ----------

  /** Every record has its event: requests a redemption that showed the invitation's secret, grants
      an approval of their request. */
  ghost predicate Sourced(d: Durable, events: seq<Event>) {
    && (forall id :: id in d.requests ==>
                       && d.requests[id].invitation in d.invitations
                       && exists k :: 0 <= k < |events| && events[k].Serve?
                                      && Asks(events[k].op, id, d.requests[id], d.invitations[d.requests[id].invitation].secret))
    && (forall id :: id in d.grants ==>
                       exists k :: 0 <= k < |events| && events[k].Serve? && Approves(events[k].op, id, d.grants[id]))
  }

  ghost predicate AllSourced(s: Service, events: seq<Event>) {
    Sourced(s.data, events) && (s.disk.Some? ==> Sourced(s.disk.value, events))
  }

  /** Links and freshness: no request without its invitation, and no invitation drawn again. */
  lemma StemsAreSourced(op: Operation, e: Event, d: Durable, d': Durable, events: seq<Event>)
    requires Sourced(d, events) && Stems(op, d, d') && (op == Look || (e.Serve? && e.op == op))
    requires forall id :: id in d'.requests ==> d'.requests[id].invitation in d'.invitations
    requires op.MakeInvitation? ==> op.draw.invitation !in d.invitations
    ensures Sourced(d', events + [e])
  {
    var more := events + [e];
    assert more[|events|] == e;
    forall id | id in d'.requests
      ensures exists k :: 0 <= k < |more| && more[k].Serve?
                          && Asks(more[k].op, id, d'.requests[id], d'.invitations[d'.requests[id].invitation].secret)
    {
      var r' := d'.requests[id];
      if id in d.requests && SameRequest(d.requests[id], r') {
        var k :| 0 <= k < |events| && events[k].Serve?
                 && Asks(events[k].op, id, d.requests[id], d.invitations[d.requests[id].invitation].secret);
        assert more[k] == events[k];
      } else {
        assert Asks(e.op, id, r', d.invitations[r'.invitation].secret);
      }
    }
    forall id | id in d'.grants
      ensures exists k :: 0 <= k < |more| && more[k].Serve? && Approves(more[k].op, id, d'.grants[id])
    {
      if id in d.grants && SameGrant(d.grants[id], d'.grants[id]) {
        var k :| 0 <= k < |events| && events[k].Serve? && Approves(events[k].op, id, d.grants[id]);
        assert more[k] == events[k];
      }
    }
  }

  lemma StaysSourced(d: Durable, events: seq<Event>, e: Event)
    requires Sourced(d, events)
    ensures Sourced(d, events + [e])
  {
    var more := events + [e];
    forall id | id in d.requests
      ensures exists k :: 0 <= k < |more| && more[k].Serve?
                          && Asks(more[k].op, id, d.requests[id], d.invitations[d.requests[id].invitation].secret)
    {
      var k :| 0 <= k < |events| && events[k].Serve?
               && Asks(events[k].op, id, d.requests[id], d.invitations[d.requests[id].invitation].secret);
      assert more[k] == events[k];
    }
    forall id | id in d.grants
      ensures exists k :: 0 <= k < |more| && more[k].Serve? && Approves(more[k].op, id, d.grants[id])
    {
      var k :| 0 <= k < |events| && events[k].Serve? && Approves(events[k].op, id, d.grants[id]);
      assert more[k] == events[k];
    }
  }

  lemma RestartingStems(disk: Option<Durable>, now: int, issuer: Id, saving: Saving)
    ensures var s, d := Restarted(disk, now, issuer, saving), if disk.Some? then disk.value else NO_DATA;
            Stems(Look, d, s.data) && (s.disk == disk || (s.disk.Some? && Stems(Look, d, s.disk.value)))
  {
    hide Loadable, Saved, Stems;
    var d := Loaded(disk, issuer);
    NothingStems(if disk.Some? then disk.value else NO_DATA);
    if (disk.Some? ==> Loadable(disk.value)) && d.issuer != 0 && d.lastTime <= now {
      InvalidatedStems(if disk.Some? then disk.value else NO_DATA, d);
      var s := Service(Invalidated(d), map[], true, disk);
      SavingKeepsRecords(s, saving);
      SameRecordsStem(Look, if disk.Some? then disk.value else NO_DATA, s.data, Saved(s, saving).0.data);
    }
  }

  lemma NothingStems(d: Durable)
    ensures Stems(Look, d, NO_DATA)
  {
  }

  lemma InvalidatedStems(d: Durable, loaded: Durable)
    requires loaded == d.(issuer := loaded.issuer)
    ensures Stems(Look, d, Invalidated(loaded))
  {
  }

  /** In a sound state, no record lacks what it hangs on. */
  lemma SoundIsLinked(s: Service)
    requires Sound(s)
    ensures forall id :: id in s.data.requests ==> s.data.requests[id].invitation in s.data.invitations
    ensures s.disk.Some? ==> forall id :: id in s.disk.value.requests ==> s.disk.value.requests[id].invitation in s.disk.value.invitations
    ensures 0 !in s.data.invitations
  {
    hide GrantLinked, Agreement;
  }

  lemma EventStems(w: World, e: Event)
    requires e.Serve?
    ensures Stem(e.op, w.service, Step(w.service, e).0)
  {
    hide Stem, Entered, Handled;
    var s1 := Entered(w.service, e.entry);
    EnteringStems(w.service, e.entry);
    LookStemAny(e.op, w.service, s1);
    HandlingStems(s1, e.op);
    StemOn(e.op, w.service, s1, Handled(s1, e.op).0);
  }

  lemma EventKeepsSourced(w: World, e: Event, events: seq<Event>)
    requires Reachable(w) && FreshDraw(w, e) && AllSourced(w.service, events)
    ensures AllSourced(Step(w.service, e).0, events + [e])
  {
    StepMoves(w, e);
    hide Sourced, Stems, Sound, Moves, Entered, Handled, Restarted, JoinedOnce, GrantedOnce;
    var s, s' := w.service, Step(w.service, e).0;
    SoundIsLinked(s);
    SoundIsLinked(s');
    if s.disk.Some? {
      StaysSourced(s.disk.value, events, e);
    }
    match e
    case Serve(entry, op) =>
      EventStems(w, e);
      StemsAreSourced(op, e, s.data, s'.data, events);
      if s'.disk != s.disk {
        StemsAreSourced(op, e, s.data, s'.disk.value, events);
      }
    case Restart(now, issuer, saving) =>
      RestartingStems(s.disk, now, issuer, saving);
      NothingIsSourced(events);
      var d := if s.disk.Some? then s.disk.value else NO_DATA;
      StemsAreSourced(Look, e, d, s'.data, events);
      if s'.disk != s.disk {
        StemsAreSourced(Look, e, d, s'.disk.value, events);
      }
  }

  lemma NothingIsSourced(events: seq<Event>)
    ensures Sourced(NO_DATA, events)
  {
  }

  /** Main result on origins: over any run, with failed saves and restarts, every request in memory
      or on file was made by a redemption that showed the secret of its invitation, by the very
      device and token it names, and every grant by an approval of its request. */
  lemma {:induction false} EverythingHasItsEvent(events: seq<Event>)
    requires FreshRun(FIRST, events)
    ensures AllSourced(After(FIRST, events).service, events)
  {
    hide Reachable, Happens, FreshDraw, AllSourced;
    FirstIsReachable();
    if events == [] {
      FirstIsSourced();
    } else {
      var before, last := events[..|events| - 1], events[|events| - 1];
      FreshPrefix(FIRST, events);
      EverythingHasItsEvent(before);
      RunKeepsReachable(FIRST, before);
      EventKeepsSourced(After(FIRST, before), last, before);
      HappensSteps(After(FIRST, before), last);
      assert before + [last] == events;
    }
  }

  lemma HappensSteps(w: World, e: Event)
    ensures Happens(w, e).service == Step(w.service, e).0
  {
    hide Step;
  }

  lemma FirstIsSourced()
    ensures AllSourced(FIRST.service, [])
  {
  }
}
