/** Referential integrity of the consent records, and why every change keeps it. */
module FriendIntegrity {
  import opened Collections
  import opened Wrappers
  import opened FriendTypes
  import opened FriendService

  predicate InvitationOk(issuer: Id, id: Id, inv: Invitation) {
    && id != 0 && inv.issuer == issuer && inv.car >= 1 && inv.permissions.location && ValidDuration(inv.duration) && inv.owner != 0
  }

  predicate RequestOk(id: Id, r: Request) {
    && id != 0 && r.recipient != 0
    && (r.status == Pending || r.status == Approved || r.status == Rejected || r.status == Expired)
    && (r.status == Pending ==> r.grant.None?) && (r.status == Approved ==> r.grant.Some?)
  }

  predicate GrantOk(issuer: Id, id: Id, g: GrantRecord) {
    && ValidBinding(g.view.binding) && g.view.binding.grant == id && g.view.binding.issuer == issuer && g.car >= 1
    && g.view.revision >= 1 && g.view.permissions.location && (g.view.owner.Some? ==> g.view.owner.value != 0)
    && (g.view.status == Active || g.view.status == Revoked || g.view.status == Expired)
  }

  predicate Within(p: Permissions, q: Permissions) {
    && (p.location ==> q.location) && (p.navigation ==> q.navigation) && (p.battery ==> q.battery) && (p.trajectory ==> q.trajectory)
  }

  predicate RequestLinked(d: Durable, id: Id)
    requires id in d.requests
  {
    var r := d.requests[id];
    r.invitation in d.invitations && d.invitations[r.invitation].used && r.expires == d.invitations[r.invitation].expires
  }

  /** A grant and its request name each other; the grant stays inside its invitation. */
  predicate GrantLinked(d: Durable, id: Id)
    requires id in d.grants
  {
    var g := d.grants[id];
    && g.request in d.requests
    && var r := d.requests[g.request];
       && r.grant == Some(id) && g.view.binding.recipient == r.recipient && (g.view.status == Active ==> r.status == Approved)
       && r.invitation in d.invitations
       && var inv := d.invitations[r.invitation];
          && g.car == inv.car && Within(g.view.permissions, inv.permissions)
          && g.view.expires < inv.expires + inv.duration * 1000
  }

  ghost predicate InvitationsOk(d: Durable) { forall id :: id in d.invitations ==> InvitationOk(d.issuer, id, d.invitations[id]) }
  ghost predicate RequestsOk(d: Durable) { forall id :: id in d.requests ==> RequestOk(id, d.requests[id]) && RequestLinked(d, id) }
  ghost predicate GrantsOk(d: Durable) { forall id :: id in d.grants ==> GrantOk(d.issuer, id, d.grants[id]) && GrantLinked(d, id) }

  ghost predicate OneRequestEach(requests: map<Id, Request>) {
    forall a, b :: a in requests && b in requests && requests[a].invitation == requests[b].invitation ==> a == b
  }

  ghost predicate Sized(d: Durable) { |d.invitations| <= MAX_RECORDS && |d.requests| <= MAX_RECORDS }

  ghost predicate Integrity(d: Durable) {
    InvitationsOk(d) && RequestsOk(d) && GrantsOk(d) && OneRequestEach(d.requests) && Sized(d)
  }

  // ---------- What integrity gives ----------

  lemma {:induction false} BackLinksAreNotMore(requests: map<Id, Request>, grants: map<Id, GrantRecord>)
    requires forall id :: id in grants ==> grants[id].request in requests && requests[grants[id].request].grant == Some(id)
    ensures |grants| <= |requests|
    decreases |grants|
  {
    if grants != map[] {
      var id :| id in grants;
      var r := grants[id].request;
      BackLinksAreNotMore(requests - {r}, grants - {id});
      assert (grants - {id}).Keys == grants.Keys - {id} && (requests - {r}).Keys == requests.Keys - {r};
    }
  }

  /** No check anywhere bounds the grants by the requests; their links do. */
  lemma IntegrityBounds(d: Durable)
    requires Integrity(d)
    ensures |d.grants| <= |d.requests| <= MAX_RECORDS && |d.invitations| <= MAX_RECORDS
  {
    hide InvitationsOk, RequestsOk, OneRequestEach;
    BackLinksAreNotMore(d.requests, d.grants);
  }

  /** Whatever has integrity is accepted when it is loaded again. */
  lemma IntegrityIsLoadable(d: Durable)
    requires Integrity(d)
    ensures Loadable(d)
  {
    IntegrityBounds(d);
    hide RequestLinked, GrantLinked, OneRequestEach;
  }

  // ---------- Changes ----------

  lemma TimeKeepsIntegrity(d: Durable, time: int)
    requires Integrity(d)
    ensures Integrity(d.(lastTime := time))
  {
    hide RequestOk, GrantOk, InvitationOk;
  }

  lemma InvitingKeepsIntegrity(d: Durable, id: Id, inv: Invitation)
    requires Integrity(d) && |d.invitations| < MAX_RECORDS && id !in d.invitations && InvitationOk(d.issuer, id, inv)
    ensures Integrity(d.(invitations := d.invitations[id := inv]))
  {
    hide RequestOk, GrantOk, InvitationOk;
  }

  lemma UsingKeepsIntegrity(d: Durable, id: Id)
    requires Integrity(d)
    ensures Integrity(InvitationUsed(d, id))
  {
    hide RequestOk, GrantOk;
  }

  lemma JoiningKeepsIntegrity(d: Durable, id: Id, r: Request)
    requires Integrity(d) && |d.requests| < MAX_RECORDS && id !in d.requests && RequestOk(id, r) && r.status == Pending
    requires r.invitation in d.invitations && !d.invitations[r.invitation].used && r.expires == d.invitations[r.invitation].expires
    ensures Integrity(d.(requests := d.requests[id := r],
                         invitations := d.invitations[r.invitation := d.invitations[r.invitation].(used := true)]))
  {
    hide RequestsOk, GrantsOk, InvitationsOk, OneRequestEach, RequestLinked;
    UsingKeepsIntegrity(d, r.invitation);
    AddingKeepsLinks(InvitationUsed(d, r.invitation), id, r);
    AddingKeepsOneEach(d, id, r);
  }

  lemma AddingKeepsLinks(d: Durable, id: Id, r: Request)
    requires InvitationsOk(d) && RequestsOk(d) && GrantsOk(d) && id !in d.requests && RequestOk(id, r)
    requires r.invitation in d.invitations && d.invitations[r.invitation].used && r.expires == d.invitations[r.invitation].expires
    ensures var d' := d.(requests := d.requests[id := r]); InvitationsOk(d') && RequestsOk(d') && GrantsOk(d')
  {
    hide RequestOk, GrantOk, InvitationOk, Within;
  }

  lemma AddingKeepsOneEach(d: Durable, id: Id, r: Request)
    requires RequestsOk(d) && OneRequestEach(d.requests) && id !in d.requests && r.invitation in d.invitations
    requires !d.invitations[r.invitation].used
    ensures OneRequestEach(d.requests[id := r])
  {
    hide RequestOk;
    assert forall other :: other in d.requests ==> RequestLinked(d, other) && d.requests[other].invitation != r.invitation;
  }

  /** A request is closed while no active grant hangs on it. */
  predicate Closable(d: Durable, id: Id) {
    && id in d.requests
    && var r := d.requests[id];
       r.grant.Some? && r.grant.value in d.grants ==> d.grants[r.grant.value].view.status != Active
  }

  lemma ClosingKeepsIntegrity(d: Durable, id: Id, status: Status)
    requires Integrity(d) && Closable(d, id) && (status == Rejected || status == Expired)
    ensures Integrity(d.(requests := d.requests[id := d.requests[id].(status := status)]))
  {
    hide GrantOk, InvitationOk;
  }

  lemma GrantingKeepsIntegrity(d: Durable, id: Id, grant: Id, g: GrantRecord)
    requires Integrity(d) && id in d.requests && d.requests[id].status == Pending && grant !in d.grants
    requires GrantOk(d.issuer, grant, g) && g.request == id && g.view.binding.recipient == d.requests[id].recipient
    requires d.requests[id].invitation in d.invitations
    requires var inv := d.invitations[d.requests[id].invitation];
             g.car == inv.car && Within(g.view.permissions, inv.permissions) && g.view.expires < inv.expires + inv.duration * 1000
    ensures Integrity(d.(grants := d.grants[grant := g],
                         requests := d.requests[id := d.requests[id].(status := Approved, grant := Some(grant))]))
  {
    hide GrantOk, InvitationOk, Within;
    assert RequestOk(id, d.requests[id]);
  }

  /** Grants only get narrower, sooner over, or closed. */
  predicate Narrowed(before: GrantRecord, after: GrantRecord) {
    && after.car == before.car && after.request == before.request && after.view.binding == before.view.binding
    && after.view.owner == before.view.owner && after.view.revision >= 1
    && (before.view.permissions.location ==> after.view.permissions.location)
    && after.view.expires <= before.view.expires && Within(after.view.permissions, before.view.permissions)
    && (after.view.status == Active ==> before.view.status == Active)
    && (after.view.status == Active || after.view.status == Revoked || after.view.status == Expired)
  }

  lemma NarrowingKeepsLink(d: Durable, d': Durable, id: Id)
    requires id in d.grants && GrantOk(d.issuer, id, d.grants[id]) && GrantLinked(d, id)
    requires d'.issuer == d.issuer && d'.requests == d.requests && d'.invitations == d.invitations
    requires id in d'.grants && Narrowed(d.grants[id], d'.grants[id])
    ensures GrantOk(d'.issuer, id, d'.grants[id]) && GrantLinked(d', id)
  {
  }

  lemma NarrowingKeepsIntegrity(d: Durable, d': Durable)
    requires Integrity(d)
    requires d'.issuer == d.issuer && d'.requests == d.requests && d'.invitations == d.invitations
    requires d'.grants.Keys <= d.grants.Keys && forall id :: id in d'.grants ==> Narrowed(d.grants[id], d'.grants[id])
    ensures Integrity(d')
  {
    hide GrantOk, GrantLinked, Narrowed, InvitationOk, RequestOk;
    forall id | id in d'.grants
      ensures GrantOk(d'.issuer, id, d'.grants[id]) && GrantLinked(d', id)
    {
      NarrowingKeepsLink(d, d', id);
    }
    assert forall id :: id in d.requests ==> RequestLinked(d, id) ==> RequestLinked(d', id);
  }

  // ---------- Expiry, cleanup and restart ----------

  lemma LapsingKeepsIntegrity(d: Durable, now: int)
    requires Integrity(d)
    ensures Integrity(Lapsed(d, now))
  {
    hide Integrity;
    var d1 := d.(grants := LapsedGrants(d.grants, now));
    NarrowingKeepsIntegrity(d, d1) by { LapsedGrantsNarrow(d, now); }
    LapsingRequestsKeepsIntegrity(d1, now);
  }

  lemma LapsedGrantsNarrow(d: Durable, now: int)
    requires Integrity(d)
    ensures forall id :: id in d.grants ==> Narrowed(d.grants[id], LapsedGrants(d.grants, now)[id])
  {
    hide GrantLinked;
  }

  lemma LapsingRequestsKeepsIntegrity(d: Durable, now: int)
    requires Integrity(d)
    ensures Integrity(d.(requests := LapsedRequests(d.requests, now)))
  {
    hide RequestsOk, GrantsOk, InvitationsOk, OneRequestEach, LapsedRequests;
    LapsedRequestsAreOk(d, now);
    LapsedRequestsAreOneEach(d.requests, now);
    LapsedRequestsKeepLinks(d, now);
  }

  lemma LapsedRequestsAreOk(d: Durable, now: int)
    requires RequestsOk(d) && InvitationsOk(d)
    ensures var requests := LapsedRequests(d.requests, now);
            && RequestsOk(d.(requests := requests)) && |requests| == |d.requests|
            && InvitationsOk(d.(requests := requests))
  {
    hide InvitationOk, OneRequestEach;
    var requests := LapsedRequests(d.requests, now);
    assert requests.Keys == d.requests.Keys;
    assert |requests| == |requests.Keys| && |d.requests| == |d.requests.Keys|;
  }

  lemma LapsedRequestsAreOneEach(requests: map<Id, Request>, now: int)
    requires OneRequestEach(requests)
    ensures OneRequestEach(LapsedRequests(requests, now))
  {
  }

  lemma LapsedRequestsKeepLinks(d: Durable, now: int)
    requires GrantsOk(d)
    ensures GrantsOk(d.(requests := LapsedRequests(d.requests, now)))
  {
    hide GrantOk, Within;
  }

  /** Dropping records keeps integrity as long as nothing kept refers to something dropped. */
  lemma DroppingKeepsIntegrity(d: Durable, d': Durable)
    requires Integrity(d) && d'.issuer == d.issuer
    requires d'.grants.Keys <= d.grants.Keys && forall id :: id in d'.grants ==> d'.grants[id] == d.grants[id]
    requires d'.requests.Keys <= d.requests.Keys && forall id :: id in d'.requests ==> d'.requests[id] == d.requests[id]
    requires d'.invitations.Keys <= d.invitations.Keys && forall id :: id in d'.invitations ==> d'.invitations[id] == d.invitations[id]
    requires forall id :: id in d'.grants ==> d'.grants[id].request in d'.requests
    requires forall id :: id in d'.requests ==> d'.requests[id].invitation in d'.invitations
    ensures Integrity(d')
  {
    hide GrantOk, InvitationOk, RequestOk, Within;
    SubsetIsNotLarger(d'.requests.Keys, d.requests.Keys);
    SubsetIsNotLarger(d'.invitations.Keys, d.invitations.Keys);
    assert |d'.requests| == |d'.requests.Keys| && |d.requests| == |d.requests.Keys|;
    assert |d'.invitations| == |d'.invitations.Keys| && |d.invitations| == |d.invitations.Keys|;
  }

  /** Cleanup never takes a request from under its grant or an invitation from under its request. */
  lemma ReclaimingKeepsIntegrity(d: Durable, cutoff: int)
    requires Integrity(d)
    ensures Integrity(Reclaimed(d, cutoff))
  {
    hide GrantOk, InvitationOk, RequestOk, OneRequestEach, Sized, Integrity;
    var d' := Reclaimed(d, cutoff);
    assert GrantsOk(d) && RequestsOk(d) by { IntegrityParts(d); }
    RequestsKeepInvitations(d, cutoff);
    DroppingKeepsIntegrity(d, d');
  }

  lemma RequestsKeepInvitations(d: Durable, cutoff: int)
    requires RequestsOk(d)
    ensures forall id :: id in Reclaimed(d, cutoff).requests ==> Reclaimed(d, cutoff).requests[id].invitation in Reclaimed(d, cutoff).invitations
  {
    hide RequestOk, KeptGrants;
    var d' := Reclaimed(d, cutoff);
    forall id | id in d'.requests
      ensures d'.requests[id].invitation in d'.invitations
    {
      assert RequestLinked(d, id);
      assert HasRequest(d'.requests, d'.requests[id].invitation);
    }
  }

  lemma IntegrityParts(d: Durable)
    requires Integrity(d)
    ensures InvitationsOk(d) && RequestsOk(d) && GrantsOk(d) && OneRequestEach(d.requests) && Sized(d)
  {
  }

  /** After a restart nothing can be redeemed, approved or shared any more. */
  predicate AllOver(d: Durable) {
    && (forall id :: id in d.invitations ==> d.invitations[id].used)
    && (forall id :: id in d.requests ==> d.requests[id].status == Expired)
    && (forall id :: id in d.grants ==> d.grants[id].view.status != Active)
  }

  lemma ClosingAllKeepsIntegrity(d: Durable)
    requires Integrity(d) && forall id :: id in d.grants ==> d.grants[id].view.status != Active
    ensures Integrity(d.(requests := AllExpired(d.requests)))
  {
    hide Within, GrantOk, InvitationOk;
    var requests := AllExpired(d.requests);
    assert requests.Keys == d.requests.Keys;
    assert |requests| == |requests.Keys| && |d.requests| == |d.requests.Keys|;
  }

  lemma UsingAllKeepsIntegrity(d: Durable)
    requires Integrity(d)
    ensures Integrity(d.(invitations := AllUsed(d.invitations)))
  {
    hide Within, GrantOk, RequestOk;
    var invitations := AllUsed(d.invitations);
    assert invitations.Keys == d.invitations.Keys;
    assert |invitations| == |invitations.Keys| && |d.invitations| == |d.invitations.Keys|;
  }

  lemma RestartedGrantsNarrow(d: Durable)
    requires Integrity(d)
    ensures forall id :: id in d.grants ==> Narrowed(d.grants[id], RestartedGrant(d.grants[id]))
    ensures forall id :: id in d.grants ==> RestartedGrant(d.grants[id]).view.status != Active
  {
    hide GrantLinked;
  }

  lemma InvalidatingKeepsIntegrity(d: Durable)
    requires Integrity(d)
    ensures Integrity(Invalidated(d)) && AllOver(Invalidated(d))
  {
    RestartedGrantsNarrow(d);
    hide Integrity, RestartedGrant, Narrowed;
    var d1 := d.(grants := AllRestarted(d.grants));
    NarrowingKeepsIntegrity(d, d1);
    ClosingAllKeepsIntegrity(d1);
    UsingAllKeepsIntegrity(d1.(requests := AllExpired(d1.requests)));
  }

  lemma NoDataHasIntegrity(issuer: Id)
    ensures Integrity(NO_DATA.(issuer := issuer))
  {
  }
}
