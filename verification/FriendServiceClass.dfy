/** The consent service as it runs under its mutex, proved against the steps of FriendService.
    The clock readings of each stretch are parameters, and so is what happens to the file. */
module FriendServiceClass {
  import opened Wrappers
  import opened FriendTypes
  import opened FriendService
  import FriendReplay
  import S = FriendStore
  import FriendStoreClass

  class HTTPService {
    var issuer: Id
    var lastTime: int
    var invitations: map<Id, Invitation>
    var requests: map<Id, Request>
    var grants: map<Id, GrantRecord>
    const store: FriendStoreClass.Store
    var healthy: bool
    var file: Option<Durable>
    var nonces: map<Id, int>
    var proofs: map<Id, int>
    var windowStart: int
    var windowCount: int

    ghost function Data(): Durable
      reads this`issuer, this`lastTime, this`invitations, this`requests, this`grants
    {
      Durable(issuer, lastTime, invitations, requests, grants)
    }

    ghost function State(): Service
      reads this`issuer, this`lastTime, this`invitations, this`requests, this`grants, this`healthy, this`file, store, store.grants.Values
    {
      Service(Data(), store.Contents(), healthy, file)
    }

    ghost function Memory(): FriendReplay.Replay
      reads this`nonces, this`proofs, this`windowStart, this`windowCount
    {
      FriendReplay.Replay(nonces, proofs, windowStart, windowCount)
    }

    // ---------- Start ----------

    /** A new process on what the last one left on file; without service when it cannot start. */
    constructor (onFile: Option<Durable>, now: int, drawn: Id, saving: Saving)
      ensures State() == Restarted(onFile, now, drawn, saving) && Memory() == FriendReplay.NO_MEMORY
      ensures store.Valid() && fresh(store) && fresh(store.grants.Values)
    {
      var d := Loaded(onFile, drawn);
      issuer, lastTime, invitations, requests, grants := d.issuer, d.lastTime, d.invitations, d.requests, d.grants;
      healthy, file := false, onFile;
      nonces, proofs, windowStart, windowCount := map[], map[], 0, 0;
      store := new FriendStoreClass.Store();
      new;
      hide Loadable, Invalidated, FriendStoreClass.Store.Contents, Saved;
      if (onFile.Some? && !Loadable(onFile.value)) || issuer == 0 || lastTime > now {
        GiveUp();
      } else {
        StartUp(saving);
      }
    }

    /** Nothing of an earlier process is left open, and the file says so, or there is no service. */
    method StartUp(saving: Saving)
      modifies this`issuer, this`lastTime, this`invitations, this`requests, this`grants, this`healthy, this`file
      ensures var s := Saved(old(State()).(data := Invalidated(old(Data())), healthy := true), saving);
              State() == if s.1.Some? then s.0.(data := NO_DATA, healthy := false) else s.0
    {
      hide Invalidated, Saved, FriendStoreClass.Store.Contents;
      Invalidate();
      healthy := true;
      var failure := Save(saving);
      if failure.Some? {
        GiveUp();
      }
    }

    method GiveUp()
      modifies this`issuer, this`lastTime, this`invitations, this`requests, this`grants, this`healthy
      ensures Data() == NO_DATA && !healthy
    {
      issuer, lastTime, invitations, requests, grants, healthy := 0, 0, map[], map[], map[], false;
    }

    method Invalidate()
      modifies this`invitations, this`requests, this`grants
      ensures Data() == Invalidated(old(Data()))
    {
      hide AllUsed, AllExpired, AllRestarted;
      UseAll();
      ExpireAll();
      RevokeAll();
    }

    method UseAll()
      modifies this`invitations
      ensures invitations == AllUsed(old(invitations))
    {
      var ids := invitations.Keys;
      while ids != {}
        invariant ids <= invitations.Keys == old(invitations).Keys
        invariant forall id :: id in invitations ==>
                                 invitations[id] == if id in ids then old(invitations)[id] else AllUsed(old(invitations))[id]
        decreases |ids|
      {
        var id :| id in ids;
        ids := ids - {id};
        invitations := invitations[id := invitations[id].(used := true)];
      }
    }

    method ExpireAll()
      modifies this`requests
      ensures requests == AllExpired(old(requests))
    {
      var ids := requests.Keys;
      while ids != {}
        invariant ids <= requests.Keys == old(requests).Keys
        invariant forall id :: id in requests ==>
                                 requests[id] == if id in ids then old(requests)[id] else AllExpired(old(requests))[id]
        decreases |ids|
      {
        var id :| id in ids;
        ids := ids - {id};
        requests := requests[id := requests[id].(status := Expired)];
      }
    }

    method RevokeAll()
      modifies this`grants
      ensures grants == AllRestarted(old(grants))
    {
      var ids := grants.Keys;
      while ids != {}
        invariant ids <= grants.Keys == old(grants).Keys
        invariant forall id :: id in grants ==>
                                 grants[id] == if id in ids then old(grants)[id] else AllRestarted(old(grants))[id]
        decreases |ids|
      {
        var id :| id in ids;
        ids := ids - {id};
        var g := grants[id].(lastRead := 0);
        if g.view.status == Active {
          g := g.(view := g.view.(status := Revoked, revision := g.view.revision + 1));
        }
        grants := grants[id := g];
      }
    }

    // ---------- Clock and file ----------

    method ClockHealthy(now: int) returns (ok: bool)
      modifies this`healthy, this`lastTime
      ensures State() == ClockChecked(old(State()), now) && ok == healthy
    {
      if !ValidTime(now) || now < lastTime {
        healthy := false;
      }
      if healthy {
        lastTime := now;
      }
      return healthy;
    }

    method Save(saving: Saving) returns (failure: Option<Failure>)
      modifies this`healthy, this`lastTime, this`file
      ensures (State(), failure) == Saved(old(State()), saving)
    {
      hide ClockChecked, FriendStoreClass.Store.Contents;
      var ok := ClockHealthy(saving.check);
      if !ok {
        return Some(Gone);
      }
      lastTime := saving.stamp;
      if saving.disk != Untouched {
        file := Some(Durable(issuer, lastTime, invitations, requests, grants));
      }
      if saving.disk != Stored {
        healthy := false;
        return Some(Unavailable);
      }
      return None;
    }

    method SaveOr(saving: Saving, reply: Reply) returns (answer: Reply)
      modifies this`healthy, this`lastTime, this`file
      ensures (State(), answer) == SavedOr(old(State()), saving, reply)
    {
      hide Saved, FriendStoreClass.Store.Contents;
      var failure := Save(saving);
      return if failure.Some? then Failed(Unavailable) else reply;
    }

    // ---------- Expiry ----------

    static method SweepExpired(entries: map<Id, int>, now: int) returns (swept: map<Id, int>)
      ensures swept == FriendReplay.Unexpired(entries, now)
    {
      swept := entries;
      var ids := entries.Keys;
      while ids != {}
        invariant ids <= swept.Keys <= entries.Keys
        invariant forall id :: id in swept ==> swept[id] == entries[id] && (id in ids || entries[id] > now)
        invariant forall id :: id in entries && entries[id] > now ==> id in swept
        decreases |ids|
      {
        var id :| id in ids;
        ids := ids - {id};
        if swept[id] <= now {
          swept := swept - {id};
        }
      }
    }

    method LapseRequests(now: int)
      modifies this`requests
      ensures requests == LapsedRequests(old(requests), now)
    {
      var ids := requests.Keys;
      while ids != {}
        invariant ids <= requests.Keys == old(requests).Keys
        invariant forall id :: id in ids ==> requests[id] == old(requests)[id]
        invariant forall id :: id in requests && id !in ids ==> requests[id] == LapsedRequests(old(requests), now)[id]
        decreases |ids|
      {
        var id :| id in ids;
        ids := ids - {id};
        if requests[id].status == Pending && requests[id].expires <= now {
          requests := requests[id := requests[id].(status := Expired)];
        }
      }
    }

    method LapseGrants(now: int)
      modifies this`grants
      ensures grants == LapsedGrants(old(grants), now)
    {
      var ids := grants.Keys;
      while ids != {}
        invariant ids <= grants.Keys == old(grants).Keys
        invariant forall id :: id in ids ==> grants[id] == old(grants)[id]
        invariant forall id :: id in grants && id !in ids ==> grants[id] == LapsedGrants(old(grants), now)[id]
        decreases |ids|
      {
        var id :| id in ids;
        ids := ids - {id};
        var g := grants[id];
        if g.view.status == Active && g.view.expires <= now {
          grants := grants[id := g.(view := g.view.(status := Expired))];
        }
      }
    }

    method ReclaimGrants(cutoff: int)
      modifies this`grants
      ensures grants == KeptGrants(old(grants), cutoff)
    {
      var ids := grants.Keys;
      while ids != {}
        invariant ids <= grants.Keys <= old(grants).Keys
        invariant forall id :: id in grants ==> grants[id] == old(grants)[id] && (id in ids || id in KeptGrants(old(grants), cutoff))
        invariant forall id :: id in KeptGrants(old(grants), cutoff) ==> id in grants
        decreases |ids|
      {
        var id :| id in ids;
        ids := ids - {id};
        if grants[id].view.status != Active && grants[id].view.expires <= cutoff {
          grants := grants - {id};
        }
      }
    }

    method ReclaimRequests(cutoff: int)
      modifies this`requests
      ensures requests == KeptRequests(old(requests), grants, cutoff)
    {
      var ids := requests.Keys;
      while ids != {}
        invariant ids <= requests.Keys <= old(requests).Keys
        invariant forall id :: id in requests ==>
                                 && requests[id] == old(requests)[id]
                                 && (id in ids || id in KeptRequests(old(requests), grants, cutoff))
        invariant forall id :: id in KeptRequests(old(requests), grants, cutoff) ==> id in requests
        decreases |ids|
      {
        var id :| id in ids;
        ids := ids - {id};
        var r := requests[id];
        if r.status != Pending && r.expires <= cutoff && (r.grant.None? || r.grant.value !in grants) {
          requests := requests - {id};
        }
      }
    }

    method FindRequestOf(invitation: Id) returns (found: bool)
      ensures found <==> HasRequest(requests, invitation)
    {
      var ids := requests.Keys;
      while ids != {}
        invariant ids <= requests.Keys
        invariant forall id :: id in requests && id !in ids ==> requests[id].invitation != invitation
        decreases |ids|
      {
        var id :| id in ids;
        ids := ids - {id};
        if requests[id].invitation == invitation {
          return true;
        }
      }
      return false;
    }

    method ReclaimInvitations(cutoff: int)
      modifies this`invitations
      ensures invitations == KeptInvitations(old(invitations), requests, cutoff)
    {
      hide HasRequest;
      var ids := invitations.Keys;
      while ids != {}
        invariant ids <= invitations.Keys <= old(invitations).Keys
        invariant forall id :: id in invitations ==>
                                 && invitations[id] == old(invitations)[id]
                                 && (id in ids || id in KeptInvitations(old(invitations), requests, cutoff))
        invariant forall id :: id in KeptInvitations(old(invitations), requests, cutoff) ==> id in invitations
        decreases |ids|
      {
        var id :| id in ids;
        ids := ids - {id};
        if invitations[id].expires <= cutoff {
          var hasRequest := FindRequestOf(id);
          if !hasRequest {
            invitations := invitations - {id};
          }
        }
      }
    }

    method ExpireRecords(now: int)
      modifies this`requests, this`grants, this`invitations
      ensures Data() == Reclaimed(Lapsed(old(Data()), now), now - INVITATION_LIFE_MS)
    {
      hide LapsedRequests, LapsedGrants, KeptGrants, KeptRequests, KeptInvitations;
      LapseRequests(now);
      LapseGrants(now);
      ReclaimGrants(now - INVITATION_LIFE_MS);
      ReclaimRequests(now - INVITATION_LIFE_MS);
      ReclaimInvitations(now - INVITATION_LIFE_MS);
    }

    method Sweep(now: int)
      modifies this`nonces, this`proofs
      ensures Memory() == FriendReplay.Swept(old(Memory()), now)
    {
      hide FriendReplay.Unexpired;
      nonces := SweepExpired(nonces, now);
      proofs := SweepExpired(proofs, now);
    }

    method Expire(now: int, storeNow: int)
      requires store.Valid()
      modifies this`requests, this`grants, this`invitations, this`nonces, this`proofs, store
      ensures store.Valid() && State() == Cleaned(old(State()), now, storeNow)
      ensures Memory() == FriendReplay.Swept(old(Memory()), now)
      ensures store.grants.Values <= old(store.grants.Values)
    {
      hide Lapsed, Reclaimed, FriendReplay.Swept, S.Pruned, FriendStoreClass.Store.Contents;
      Sweep(now);
      ExpireRecords(now);
      store.PruneTerminalBefore(now - INVITATION_LIFE_MS, storeNow);
    }

    /** How every request begins; nothing further happens once the service is unhealthy. */
    method Enter(entry: Entry) returns (ok: bool)
      requires store.Valid()
      modifies this`lastTime, this`healthy, this`requests, this`grants, this`invitations, this`nonces, this`proofs, store
      ensures store.Valid() && State() == Entered(old(State()), entry) && ok == healthy
      ensures Memory() == if ok then FriendReplay.Swept(old(Memory()), entry.expire) else old(Memory())
      ensures store.grants.Values <= old(store.grants.Values)
    {
      hide Cleaned, ClockChecked, FriendStoreClass.Store.Contents;
      ok := ClockHealthy(entry.check);
      if ok {
        Expire(entry.expire, entry.prune);
      }
    }

    // ---------- Invitations ----------

    predicate Full()
      reads this`invitations, this`requests, this`grants
    {
      |invitations| >= MAX_RECORDS || |requests| >= MAX_RECORDS || |grants| >= MAX_GRANTS
    }

    /** Checked before the mutex is let go to ask who owns the car. */
    method CheckInvitation(form: InvitationForm) returns (refused: Option<Failure>)
      ensures refused == InvitationRefused(Data(), form)
    {
      if !ValidForm(form) {
        return Some(InvalidRequest);
      }
      if Full() {
        return Some(Failure.Full);
      }
      return None;
    }

    /** Once the mutex is held again and the service has been entered again. */
    method MakeInvitation(form: InvitationForm, owns: Option<bool>, draw: Draw, now: int, saving: Saving) returns (reply: Reply)
      requires ValidForm(form)
      modifies this`invitations, this`lastTime, this`healthy, this`file
      ensures (State(), reply) == InvitationMade(old(State()), form, owns, draw, now, saving)
    {
      hide SavedOr, ValidForm, FriendStoreClass.Store.Contents;
      if Full() {
        return Failed(Failure.Full);
      }
      if owns.None? {
        return Failed(Unavailable);
      }
      if !owns.value {
        return Failed(InvalidRequest);
      }
      if draw.invitation == 0 || draw.member == 0 || draw.session == 0 || draw.secret == 0 {
        return Failed(Unavailable);
      }
      var session := if form.session == 0 then draw.session else form.session;
      var invitation := Invitation(issuer, session, draw.member, now + INVITATION_LIFE_MS, form.duration, form.permissions,
                                   form.owner.recipient, draw.secret, form.car, form.expected, false);
      invitations := invitations[draw.invitation := invitation];
      reply := SaveOr(saving, Invited(draw.invitation, draw.secret));
    }

    method Redeem(form: RedeemForm, id: Id, token: Id, now: int, created: int, saving: Saving) returns (reply: Reply)
      modifies this`invitations, this`requests, this`lastTime, this`healthy, this`file
      ensures (State(), reply) == Redeemed(old(State()), form, id, token, now, created, saving)
    {
      hide SavedOr, RedeemRefused, FriendStoreClass.Store.Contents;
      var refused := CheckRedeem(form, now);
      if refused.Some? {
        return Failed(refused.value);
      }
      if id == 0 || token == 0 {
        return Failed(Unavailable);
      }
      RefusedUnlessKnown(form, now);
      var invitation := invitations[form.invitation];
      requests := requests[id := Request(form.recipient, form.key, created, invitation.expires, Pending, form.invitation, token, None)];
      invitations := invitations[form.invitation := invitation.(used := true)];
      reply := SaveOr(saving, Joined(id, token));
    }

    lemma RefusedUnlessKnown(form: RedeemForm, now: int)
      requires RedeemRefused(Data(), form, now).None?
      ensures form.invitation in invitations
    {
    }

    method CheckRedeem(form: RedeemForm, now: int) returns (refused: Option<Failure>)
      ensures refused == RedeemRefused(Data(), form, now)
    {
      if form.invitation == 0 || form.recipient == 0 {
        return Some(InvalidRequest);
      }
      if form.invitation !in invitations || invitations[form.invitation].secret != form.secret {
        return Some(Unauthorised);
      }
      var invitation := invitations[form.invitation];
      if invitation.used || invitation.expires <= now {
        return Some(Gone);
      }
      if invitation.expected.Some? && invitation.expected.value != Device(form.recipient, form.key) {
        return Some(Unauthorised);
      }
      if !form.returnable {
        return Some(InvalidRequest);
      }
      if |requests| >= MAX_RECORDS {
        return Some(Failure.Full);
      }
      return None;
    }

    // ---------- Decisions ----------

    method Decide(id: Id, approve: bool, owner: Id, grant: Id, at: Approval, saving: Saving) returns (reply: Reply)
      requires store.Valid()
      modifies this`requests, this`grants, this`lastTime, this`healthy, this`file, store
      ensures store.Valid() && fresh(store.grants.Values - old(store.grants.Values))
      ensures (State(), reply) == Decided(old(State()), id, approve, owner, grant, at, saving)
    {
      hide SavedOr, GrantMade, FriendStoreClass.Store.Contents;
      if id !in requests {
        return Failed(NotFound);
      }
      var r := requests[id];
      if r.status == Approved && approve {
        if r.grant.Some? && r.grant.value in grants && grants[r.grant.value].view.status == Active {
          return Shared(grants[r.grant.value].view);
        }
        return Failed(Gone);
      }
      if r.status == Rejected && !approve {
        return Declined;
      }
      if r.status != Pending || r.expires <= at.check {
        return Failed(Gone);
      }
      if !approve {
        requests := requests[id := r.(status := Rejected)];
        reply := SaveOr(saving, Declined);
        return;
      }
      if r.invitation !in invitations {
        return Failed(Gone);
      }
      if grant == 0 {
        return Failed(Unavailable);
      }
      reply := Approve(id, owner, grant, at, saving);
    }

    method Approve(id: Id, owner: Id, grant: Id, at: Approval, saving: Saving) returns (reply: Reply)
      requires store.Valid() && id in requests && requests[id].invitation in invitations
      modifies this`requests, this`grants, this`lastTime, this`healthy, this`file, store
      ensures store.Valid() && fresh(store.grants.Values - old(store.grants.Values))
      ensures (State(), reply) == GrantMade(old(State()), id, owner, grant, at, saving)
    {
      hide SavedOr, S.Created, FriendStoreClass.Store.Contents;
      var r := requests[id];
      var invitation := invitations[r.invitation];
      if at.at >= r.expires || at.at >= invitation.expires {
        return Failed(Gone);
      }
      var source := SourceKey(issuer, invitation.car);
      var binding := Binding(grant, issuer, invitation.session, invitation.member, r.recipient);
      var created := store.Create(Owner(issuer, source),
                                  GrantSpec(binding, source, invitation.permissions, at.at + invitation.duration * 1000, None), at.store);
      if created.Err? {
        return Failed(StoreFailure(created.error));
      }
      var (origin, consistent) := OriginatingOwner(owner, invitation.owner);
      if !consistent {
        return Failed(InvalidRequest);
      }
      var view := ViewOf(created.value, Active, origin);
      grants := grants[grant := GrantRecord(view, invitation.car, id, 0)];
      requests := requests[id := r.(status := Approved, grant := Some(grant))];
      reply := SaveOr(saving, Shared(view));
    }

    // ---------- Active grants ----------

    method Restrict(id: Id, revision: int, permissions: Permissions, expires: int, storeNow: int, saving: Saving) returns (reply: Reply)
      requires store.Valid()
      modifies this`grants, this`lastTime, this`healthy, this`file, store.grants.Values
      ensures store.Valid() && (State(), reply) == RestrictedTo(old(State()), id, revision, permissions, expires, storeNow, saving)
    {
      hide SavedOr, S.Restricted, FriendStoreClass.Store.Contents;
      if id !in grants {
        return Failed(NotFound);
      }
      var g := grants[id];
      if g.view.status != Active {
        return Failed(Gone);
      }
      var source := SourceKey(issuer, g.car);
      var m := store.Restrict(Owner(issuer, source), g.view.binding, source, revision, permissions, expires, storeNow);
      if m.Err? {
        return Failed(StoreFailure(m.error));
      }
      var view := g.view.(revision := m.value.revision, permissions := permissions, expires := m.value.expires);
      grants := grants[id := g.(view := view)];
      reply := SaveOr(saving, Shared(view));
    }

    method Revoke(id: Id, saving: Saving) returns (failure: Option<Failure>)
      requires store.Valid() && id in grants
      modifies this`grants, this`lastTime, this`healthy, this`file, store.grants.Values
      ensures store.Valid() && (State(), failure) == RevokedIn(old(State()), id, saving)
    {
      hide Saved, S.Revoked, FriendStoreClass.Store.Contents;
      var g := grants[id];
      if g.view.status != Active {
        return None;
      }
      var source := SourceKey(issuer, g.car);
      var m := store.Revoke(Owner(issuer, source), g.view.binding, source, g.view.revision);
      if m.Err? {
        healthy := false;
        return Some(StoreFailure(m.error));
      }
      grants := grants[id := g.(view := g.view.(status := Revoked, revision := m.value.revision))];
      failure := Save(saving);
    }

    method Stop(id: Id, saving: Saving) returns (reply: Reply)
      requires store.Valid()
      modifies this`grants, this`lastTime, this`healthy, this`file, store.grants.Values
      ensures store.Valid() && (State(), reply) == OwnerStopped(old(State()), id, saving)
    {
      hide RevokedIn, FriendStoreClass.Store.Contents;
      if id !in grants {
        return Failed(NotFound);
      }
      var failure := Revoke(id, saving);
      if failure.Some? {
        return Failed(failure.value);
      }
      return if id in grants then Shared(grants[id].view) else Failed(NotFound);
    }

    // ---------- Cancelling an invitation ----------

    method CancelRequestOf(invitation: Id, id: Id, saving: Saving) returns (failure: Option<Failure>)
      requires store.Valid()
      modifies this`requests, this`grants, this`lastTime, this`healthy, this`file, store.grants.Values
      ensures store.Valid() && (State(), failure) == RequestCancelled(old(State()), invitation, id, saving)
    {
      hide RevokedIn, FriendStoreClass.Store.Contents;
      if id !in requests || requests[id].invitation != invitation {
        return None;
      }
      var r := requests[id];
      if r.grant.Some? && r.grant.value in grants {
        failure := Revoke(r.grant.value, saving);
        if failure.Some? {
          return;
        }
      }
      if r.status == Pending {
        requests := requests[id := r.(status := Rejected)];
      }
      return None;
    }

    /** `order` is the order in which the map of requests happens to be visited. */
    method CancelInvitation(id: Id, order: seq<(Id, Saving)>, saving: Saving) returns (reply: Reply)
      requires store.Valid()
      modifies this`invitations, this`requests, this`grants, this`lastTime, this`healthy, this`file, store.grants.Values
      ensures store.Valid() && (State(), reply) == InvitationCancelled(old(State()), id, order, saving)
    {
      hide RequestCancelled, SavedOr, FriendStoreClass.Store.Contents;
      if id in invitations {
        invitations := invitations[id := invitations[id].(used := true)];
      }
      ghost var used := State();
      for i := 0 to |order|
        invariant store.Valid() && store.grants == old(store.grants)
        invariant (State(), None) == RequestsCancelled(used, id, order[..i])
      {
        assert order[..i + 1][..i] == order[..i];
        var failure := CancelRequestOf(id, order[i].0, order[i].1);
        if failure.Some? {
          FailurePersists(used, id, order, i + 1);
          return Failed(failure.value);
        }
      }
      assert order[..|order|] == order;
      reply := SaveOr(saving, Cancelled);
    }

    static lemma {:induction false} FailurePersists(s: Service, invitation: Id, order: seq<(Id, Saving)>, i: nat)
      requires i <= |order| && RequestsCancelled(s, invitation, order[..i]).1.Some?
      ensures RequestsCancelled(s, invitation, order) == RequestsCancelled(s, invitation, order[..i])
      decreases |order|
    {
      hide RequestCancelled;
      if i == |order| {
        assert order[..i] == order;
      } else {
        var rest := order[..|order| - 1];
        assert rest[..i] == order[..i];
        FailurePersists(s, invitation, rest, i);
      }
    }

    // ---------- Guests ----------

    /** The request window; the service's own, not the guest's. */
    method Admit(now: int) returns (ok: bool)
      modifies this`windowStart, this`windowCount
      ensures Memory() == FriendReplay.Counted(old(Memory()), now) && ok == FriendReplay.LetIn(Memory())
    {
      if now - windowStart >= FriendReplay.WINDOW_MS {
        windowStart, windowCount := now, 0;
      }
      windowCount := windowCount + 1;
      return windowCount <= FriendReplay.MAX_WINDOW;
    }

    method IssueNonce(nonce: Id, now: int) returns (ok: bool)
      modifies this`nonces
      ensures (Memory(), ok) == FriendReplay.NonceIssued(old(Memory()), nonce, now)
    {
      if |nonces| >= FriendReplay.MAX_NONCES || |proofs| >= FriendReplay.MAX_PROOFS || nonce == 0 {
        return false;
      }
      nonces := nonces[nonce := now + FriendReplay.NONCE_LIFE_MS];
      return true;
    }

    method AuthenticateGuest(nonce: Id, proof: Id, valid: bool, now: int) returns (ok: bool)
      modifies this`nonces, this`proofs
      ensures (Memory(), ok) == FriendReplay.Authenticated(old(Memory()), nonce, proof, valid, now)
    {
      if nonce !in nonces || nonces[nonce] <= now || (if proof in proofs then proofs[proof] else 0) > now {
        return false;
      }
      if !valid {
        return false;
      }
      nonces := nonces - {nonce};
      proofs := proofs[proof := now + FriendReplay.PROOF_MEMORY_MS];
      return true;
    }

    method CancelRequest(id: Id, guest: Principal, revoking: Saving, saving: Saving) returns (reply: Reply)
      requires store.Valid()
      modifies this`requests, this`grants, this`lastTime, this`healthy, this`file, store.grants.Values
      ensures store.Valid() && (State(), reply) == GuestCancelled(old(State()), id, guest, revoking, saving)
    {
      hide RevokedIn, SavedOr, FriendStoreClass.Store.Contents;
      if id !in requests || !MayActFor(requests[id], guest) {
        return Failed(Unauthorised);
      }
      var r := requests[id];
      if r.grant.Some? && r.grant.value in grants {
        var failure := Revoke(r.grant.value, revoking);
        if failure.Some? {
          return Failed(failure.value);
        }
      }
      requests := requests[id := r.(status := Rejected)];
      reply := SaveOr(saving, Cancelled);
    }

    method Leave(id: Id, guest: Principal, saving: Saving) returns (reply: Reply)
      requires store.Valid()
      modifies this`grants, this`lastTime, this`healthy, this`file, store.grants.Values
      ensures store.Valid() && (State(), reply) == GuestLeft(old(State()), id, guest, saving)
    {
      hide OwnerStopped, FriendStoreClass.Store.Contents;
      if id !in grants || grants[id].request !in requests || !MayActFor(requests[grants[id].request], guest) {
        return Failed(Unauthorised);
      }
      reply := Stop(id, saving);
    }

    method BeginSnapshot(id: Id, guest: Principal, slot: bool, now: int, stamp: int) returns (reply: Reply)
      modifies this`grants
      ensures (State(), reply) == SnapshotBegun(old(State()), id, guest, slot, now, stamp)
    {
      hide FriendStoreClass.Store.Contents;
      if id !in grants || grants[id].request !in requests || !MayActFor(requests[grants[id].request], guest) {
        return Failed(Unauthorised);
      }
      var g := grants[id];
      if g.view.status != Active {
        return Failed(Gone);
      }
      if (g.lastRead != 0 && now - g.lastRead < 1000) || !slot {
        return Failed(RateLimited);
      }
      grants := grants[id := g.(lastRead := stamp)];
      return Reading(Capture(g.view, requests[g.request].recipient, SourceKey(issuer, g.car)));
    }

    method FinishSnapshot(c: Capture, reading: Option<SourceSnapshot>, storeNow: int, stamp: int) returns (reply: Reply)
      requires store.Valid()
      modifies this`lastTime, store.grants.Values
      ensures store.Valid() && (State(), reply) == SnapshotFinished(old(State()), c, reading, storeNow, stamp)
    {
      hide S.ProjectedTo, FriendStoreClass.Store.Contents;
      var id := c.view.binding.grant;
      if id !in grants || grants[id].view.status != Active {
        return Failed(Gone);
      }
      if grants[id].view.revision != c.view.revision {
        return Failed(Conflict);
      }
      if reading.None? {
        return Failed(Unavailable);
      }
      var out := store.Project(c.recipient, c.view.binding, c.view.revision, reading.value, storeNow);
      if out.Err? {
        return Failed(StoreFailure(out.error));
      }
      lastTime := stamp;
      return Delivered(out.value);
    }
  }
}
