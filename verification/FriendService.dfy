/** The consent service: invitations, requests and grants as its handlers see them, the store
    behind them and the file they are saved to. One step is one stretch under the mutex; the
    two handlers that let the mutex go are split there. */
module FriendService {
  import opened Wrappers
  import opened FriendTypes
  import S = FriendStore

  const INVITATION_LIFE_MS := 10 * 60 * 1000
  const MAX_RECORDS := 64

  datatype Status = Pending | Approved | Rejected | Expired | Active | Revoked

  datatype Device = Device(recipient: Id, key: Id)

  datatype Invitation = Invitation(issuer: Id, session: Id, member: Id, expires: int, duration: int, permissions: Permissions,
                                   owner: Id, secret: Id, car: int, expected: Option<Device>, used: bool)

  datatype Request = Request(recipient: Id, key: Id, created: int, expires: int, status: Status, invitation: Id, token: Id,
                             grant: Option<Id>)

  datatype View = View(binding: Binding, revision: int, consentStarted: int, expires: int, permissions: Permissions, status: Status,
                       owner: Option<Id>)

  datatype GrantRecord = GrantRecord(view: View, car: int, request: Id, lastRead: int)

  datatype Durable = Durable(issuer: Id, lastTime: int, invitations: map<Id, Invitation>, requests: map<Id, Request>,
                             grants: map<Id, GrantRecord>)

  datatype Service = Service(data: Durable, store: S.Grants, healthy: bool, disk: Option<Durable>)

  datatype Failure = InvalidRequest | NotFound | Unauthorised | Gone | Full | Conflict | Unavailable | RateLimited

  /** What a snapshot remembers while the vehicle source is read without the mutex. */
  datatype Capture = Capture(view: View, recipient: Id, source: SourceKey)

  datatype Reply =
    | Failed(failure: Failure)
    | Invited(invitation: Id, secret: Id)
    | Joined(request: Id, token: Id)
    | Declined
    | Cancelled
    | Shared(view: View)
    | Reading(capture: Capture)
    | Delivered(snapshot: Snapshot)

  /** The file after an attempt to replace it: replaced, left alone, or replaced although the
      attempt is reported as failed. */
  datatype Disk = Stored | Untouched | Torn

  /** The environment's part in saving: two clock readings and what happens to the file. */
  datatype Saving = Saving(check: int, stamp: int, disk: Disk)

  // ---------- Clock and file ----------

  /** A clock that is invalid or has gone back makes the service unhealthy for good. */
  function ClockChecked(s: Service, now: int): Service {
    if !s.healthy || !ValidTime(now) || now < s.data.lastTime then s.(healthy := false)
    else s.(data := s.data.(lastTime := now))
  }

  function Saved(s: Service, saving: Saving): (Service, Option<Failure>) {
    var c := ClockChecked(s, saving.check);
    if !c.healthy then (c, Some(Gone))
    else
      var d := c.data.(lastTime := saving.stamp);
      match saving.disk
      case Stored => (c.(data := d, disk := Some(d)), None)
      case Untouched => (c.(data := d, healthy := false), Some(Unavailable))
      case Torn => (c.(data := d, disk := Some(d), healthy := false), Some(Unavailable))
  }

  /** Handlers that report every failure to save alike. */
  function SavedOr(s: Service, saving: Saving, reply: Reply): (Service, Reply) {
    var (s', failure) := Saved(s, saving);
    (s', if failure.Some? then Failed(Unavailable) else reply)
  }

  // ---------- Expiry ----------

  function LapsedRequests(requests: map<Id, Request>, now: int): map<Id, Request> {
    map id | id in requests ::
      if requests[id].status == Pending && requests[id].expires <= now then requests[id].(status := Expired) else requests[id]
  }

  function LapsedGrants(grants: map<Id, GrantRecord>, now: int): map<Id, GrantRecord> {
    map id | id in grants ::
      if grants[id].view.status == Active && grants[id].view.expires <= now
      then grants[id].(view := grants[id].view.(status := Expired)) else grants[id]
  }

  function KeptGrants(grants: map<Id, GrantRecord>, cutoff: int): map<Id, GrantRecord> {
    map id | id in grants && !(grants[id].view.status != Active && grants[id].view.expires <= cutoff) :: grants[id]
  }

  predicate Reclaimable(r: Request, grants: map<Id, GrantRecord>, cutoff: int) {
    r.status != Pending && r.expires <= cutoff && (r.grant.None? || r.grant.value !in grants)
  }

  function KeptRequests(requests: map<Id, Request>, grants: map<Id, GrantRecord>, cutoff: int): map<Id, Request> {
    map id | id in requests && !Reclaimable(requests[id], grants, cutoff) :: requests[id]
  }

  predicate HasRequest(requests: map<Id, Request>, invitation: Id) {
    exists id :: id in requests && requests[id].invitation == invitation
  }

  function KeptInvitations(invitations: map<Id, Invitation>, requests: map<Id, Request>, cutoff: int): map<Id, Invitation> {
    map id | id in invitations && !(invitations[id].expires <= cutoff && !HasRequest(requests, id)) :: invitations[id]
  }

  function Lapsed(d: Durable, now: int): Durable {
    d.(requests := LapsedRequests(d.requests, now), grants := LapsedGrants(d.grants, now))
  }

  function Reclaimed(d: Durable, cutoff: int): Durable {
    var grants := KeptGrants(d.grants, cutoff);
    var requests := KeptRequests(d.requests, grants, cutoff);
    d.(grants := grants, requests := requests, invitations := KeptInvitations(d.invitations, requests, cutoff))
  }

  /** Pending requests and active grants that are due expire; terminal records are reclaimed ten
      minutes after their expiry, and so are the store's, by the store's own clock. */
  function Cleaned(s: Service, now: int, storeNow: int): Service {
    s.(data := Reclaimed(Lapsed(s.data, now), now - INVITATION_LIFE_MS),
       store := S.Pruned(s.store, now - INVITATION_LIFE_MS, storeNow))
  }

  /** The clock readings with which every request begins. */
  datatype Entry = Entry(check: int, expire: int, prune: int)

  function Entered(s: Service, entry: Entry): Service {
    var c := ClockChecked(s, entry.check);
    if c.healthy then Cleaned(c, entry.expire, entry.prune) else c
  }

  // ---------- Invitations ----------

  datatype InvitationForm = InvitationForm(car: int, duration: int, permissions: Permissions, owner: Device, session: Id,
                                           expected: Option<Device>)

  predicate ValidDuration(seconds: int) { seconds == 3600 || seconds == 7200 || seconds == 14400 || seconds == 28800 }

  predicate ValidForm(f: InvitationForm) {
    && f.car > 0 && f.permissions.location && ValidDuration(f.duration) && f.owner.recipient != 0
    && (f.expected.Some? ==> f.expected.value.recipient != 0)
  }

  predicate AtCapacity(d: Durable) {
    |d.invitations| >= MAX_RECORDS || |d.requests| >= MAX_RECORDS || |d.grants| >= MAX_GRANTS
  }

  /** Before the vehicle source is asked who owns the car. */
  function InvitationRefused(d: Durable, f: InvitationForm): Option<Failure> {
    if !ValidForm(f) then Some(InvalidRequest) else if AtCapacity(d) then Some(Full) else None
  }

  /** Random values for a new invitation; zero where generation failed. */
  datatype Draw = Draw(invitation: Id, member: Id, session: Id, secret: Id)

  function NewInvitation(issuer: Id, f: InvitationForm, draw: Draw, now: int): Invitation {
    Invitation(issuer, if f.session == 0 then draw.session else f.session, draw.member, now + INVITATION_LIFE_MS, f.duration,
               f.permissions, f.owner.recipient, draw.secret, f.car, f.expected, false)
  }

  /** After the source has answered: whether it owns the car, or nothing when it failed. */
  function InvitationMade(s: Service, f: InvitationForm, owns: Option<bool>, draw: Draw, now: int, saving: Saving): (Service, Reply) {
    if !ValidForm(f) then (s, Failed(InvalidRequest))
    else if AtCapacity(s.data) then (s, Failed(Full))
    else if owns.None? then (s, Failed(Unavailable))
    else if !owns.value then (s, Failed(InvalidRequest))
    else if draw.invitation == 0 || draw.member == 0 || draw.session == 0 || draw.secret == 0 then (s, Failed(Unavailable))
    else
      var d := s.data.(invitations := s.data.invitations[draw.invitation := NewInvitation(s.data.issuer, f, draw, now)]);
      SavedOr(s.(data := d), saving, Invited(draw.invitation, draw.secret))
  }

  datatype RedeemForm = RedeemForm(invitation: Id, secret: Id, recipient: Id, key: Id, returnable: bool)

  function RedeemRefused(d: Durable, f: RedeemForm, now: int): Option<Failure> {
    if f.invitation == 0 || f.recipient == 0 then Some(InvalidRequest)
    else if f.invitation !in d.invitations || d.invitations[f.invitation].secret != f.secret then Some(Unauthorised)
    else
      var inv := d.invitations[f.invitation];
      if inv.used || inv.expires <= now then Some(Gone)
      else if inv.expected.Some? && inv.expected.value != Device(f.recipient, f.key) then Some(Unauthorised)
      else if !f.returnable then Some(InvalidRequest)
      else if |d.requests| >= MAX_RECORDS then Some(Full)
      else None
  }

  function Redeemed(s: Service, f: RedeemForm, id: Id, token: Id, now: int, created: int, saving: Saving): (Service, Reply) {
    var refused := RedeemRefused(s.data, f, now);
    if refused.Some? then (s, Failed(refused.value))
    else if id == 0 || token == 0 then (s, Failed(Unavailable))
    else
      var inv := s.data.invitations[f.invitation];
      var r := Request(f.recipient, f.key, created, inv.expires, Pending, f.invitation, token, None);
      var d := s.data.(requests := s.data.requests[id := r], invitations := s.data.invitations[f.invitation := inv.(used := true)]);
      SavedOr(s.(data := d), saving, Joined(id, token))
  }

  // ---------- Decisions ----------

  function StoreFailure(e: Error): Failure {
    match e
    case Inactive => Gone
    case NoCapacity => Full
    case NotAuthorized => Unauthorised
    case RevisionMismatch => Conflict
    case Invalid => InvalidRequest
    case _ => Unavailable
  }

  function SourceOf(issuer: Id, car: int): SourceKey { SourceKey(issuer, car) }

  function OwnerOf(issuer: Id, car: int): Owner { Owner(issuer, SourceOf(issuer, car)) }

  /** The clock readings of an approval: the pending check, the approval instant, the store's own. */
  datatype Approval = Approval(check: int, at: int, store: int)

  function SpecFor(issuer: Id, inv: Invitation, r: Request, grant: Id, at: int): GrantSpec {
    GrantSpec(Binding(grant, issuer, inv.session, inv.member, r.recipient), SourceOf(issuer, inv.car), inv.permissions,
              at + inv.duration * 1000, None)
  }

  function ViewOf(m: Metadata, status: Status, owner: Option<Id>): View {
    View(m.binding, m.revision, m.consentStarted, m.expires, m.permissions, status, owner)
  }

  /** The device that approved must be the one that invited, where both are known; the second
      component is false when they differ. */
  function OriginatingOwner(requested: Id, inviting: Id): (Option<Id>, bool) {
    if requested != 0 && inviting != 0 && requested != inviting then (None, false)
    else if requested == 0 && inviting == 0 then (None, true)
    else (Some(if requested == 0 then inviting else requested), true)
  }

  function Decided(s: Service, id: Id, approve: bool, owner: Id, grant: Id, a: Approval, saving: Saving): (Service, Reply) {
    if id !in s.data.requests then (s, Failed(NotFound))
    else
      var r := s.data.requests[id];
      if r.status == Approved && approve then
        if r.grant.Some? && r.grant.value in s.data.grants && s.data.grants[r.grant.value].view.status == Active
        then (s, Shared(s.data.grants[r.grant.value].view))
        else (s, Failed(Gone))
      else if r.status == Rejected && !approve then (s, Declined)
      else if r.status != Pending || r.expires <= a.check then (s, Failed(Gone))
      else if !approve then
        SavedOr(s.(data := s.data.(requests := s.data.requests[id := r.(status := Rejected)])), saving, Declined)
      else if r.invitation !in s.data.invitations then (s, Failed(Gone))
      else if grant == 0 then (s, Failed(Unavailable))
      else GrantMade(s, id, owner, grant, a, saving)
  }

  /** What the store makes of an approval. */
  function CreationFor(s: Service, id: Id, grant: Id, a: Approval): S.Outcome<Metadata>
    requires id in s.data.requests && s.data.requests[id].invitation in s.data.invitations
  {
    var inv := s.data.invitations[s.data.requests[id].invitation];
    S.Created(s.store, OwnerOf(s.data.issuer, inv.car), SpecFor(s.data.issuer, inv, s.data.requests[id], grant, a.at), a.store)
  }

  function GrantMade(s: Service, id: Id, owner: Id, grant: Id, a: Approval, saving: Saving): (Service, Reply)
    requires id in s.data.requests && s.data.requests[id].invitation in s.data.invitations
  {
    var d := s.data;
    var r := d.requests[id];
    var inv := d.invitations[r.invitation];
    if a.at >= r.expires || a.at >= inv.expires then (s, Failed(Gone))
    else
      var o := CreationFor(s, id, grant, a);
      if o.result.Err? then (s.(store := o.grants), Failed(StoreFailure(o.result.error)))
      else
        var (origin, consistent) := OriginatingOwner(owner, inv.owner);
        if !consistent then (s.(store := o.grants), Failed(InvalidRequest))
        else
          var view := ViewOf(o.result.value, Active, origin);
          var d' := d.(grants := d.grants[grant := GrantRecord(view, inv.car, id, 0)],
                       requests := d.requests[id := r.(status := Approved, grant := Some(grant))]);
          SavedOr(s.(data := d', store := o.grants), saving, Shared(view))
  }

  // ---------- Active grants ----------

  /** What the store makes of a restriction. */
  function RestrictionFor(s: Service, id: Id, revision: int, permissions: Permissions, expires: int, storeNow: int): S.Outcome<Metadata>
    requires id in s.data.grants
  {
    var g := s.data.grants[id];
    S.Restricted(s.store, OwnerOf(s.data.issuer, g.car), g.view.binding, SourceOf(s.data.issuer, g.car), revision, permissions,
                 expires, storeNow)
  }

  function RestrictedTo(s: Service, id: Id, revision: int, permissions: Permissions, expires: int, storeNow: int, saving: Saving)
    : (Service, Reply)
  {
    if id !in s.data.grants then (s, Failed(NotFound))
    else
      var g := s.data.grants[id];
      if g.view.status != Active then (s, Failed(Gone))
      else
        var o := RestrictionFor(s, id, revision, permissions, expires, storeNow);
        if o.result.Err? then (s.(store := o.grants), Failed(StoreFailure(o.result.error)))
        else
          var view := g.view.(revision := o.result.value.revision, permissions := permissions, expires := o.result.value.expires);
          SavedOr(s.(data := s.data.(grants := s.data.grants[id := g.(view := view)]), store := o.grants), saving, Shared(view))
  }

  /** What the store makes of a revocation. */
  function RevocationFor(s: Service, id: Id): S.Outcome<Metadata>
    requires id in s.data.grants
  {
    var g := s.data.grants[id];
    S.Revoked(s.store, OwnerOf(s.data.issuer, g.car), g.view.binding, SourceOf(s.data.issuer, g.car), g.view.revision)
  }

  /** Stopping a grant; nothing to do for one that is no longer active. A refusal by the store
      makes the service unhealthy. */
  function RevokedIn(s: Service, id: Id, saving: Saving): (Service, Option<Failure>)
    requires id in s.data.grants
  {
    var g := s.data.grants[id];
    if g.view.status != Active then (s, None)
    else
      var o := RevocationFor(s, id);
      if o.result.Err? then (s.(store := o.grants, healthy := false), Some(StoreFailure(o.result.error)))
      else
        var view := g.view.(status := Revoked, revision := o.result.value.revision);
        Saved(s.(data := s.data.(grants := s.data.grants[id := g.(view := view)]), store := o.grants), saving)
  }

  function ViewIn(s: Service, id: Id): Reply {
    if id in s.data.grants then Shared(s.data.grants[id].view) else Failed(NotFound)
  }

  /** The owner stops a grant. */
  function OwnerStopped(s: Service, id: Id, saving: Saving): (Service, Reply) {
    if id !in s.data.grants then (s, Failed(NotFound))
    else
      var (s', failure) := RevokedIn(s, id, saving);
      (s', if failure.Some? then Failed(failure.value) else ViewIn(s', id))
  }

  // ---------- Cancelling an invitation ----------

  /** One turn of the owner's cancellation: stop the grant of a request of this invitation, then
      reject the request if it is pending. */
  function RequestCancelled(s: Service, invitation: Id, id: Id, saving: Saving): (Service, Option<Failure>) {
    if id !in s.data.requests || s.data.requests[id].invitation != invitation then (s, None)
    else
      var r := s.data.requests[id];
      var (s1, failure) := if r.grant.Some? && r.grant.value in s.data.grants then RevokedIn(s, r.grant.value, saving) else (s, None);
      if failure.Some? then (s1, failure)
      else if r.status == Pending then
        (s1.(data := s1.data.(requests := s1.data.requests[id := r.(status := Rejected)])), None)
      else (s1, None)
  }

  /** The requests are visited in the order given, with one saving each. */
  function RequestsCancelled(s: Service, invitation: Id, order: seq<(Id, Saving)>): (Service, Option<Failure>) {
    if order == [] then (s, None)
    else
      var (s', failure) := RequestsCancelled(s, invitation, order[..|order| - 1]);
      if failure.Some? then (s', failure) else RequestCancelled(s', invitation, order[|order| - 1].0, order[|order| - 1].1)
  }

  function InvitationUsed(d: Durable, id: Id): Durable {
    if id in d.invitations then d.(invitations := d.invitations[id := d.invitations[id].(used := true)]) else d
  }

  function InvitationCancelled(s: Service, id: Id, order: seq<(Id, Saving)>, saving: Saving): (Service, Reply) {
    var (s', failure) := RequestsCancelled(s.(data := InvitationUsed(s.data, id)), id, order);
    if failure.Some? then (s', Failed(failure.value)) else SavedOr(s', saving, Cancelled)
  }

  // ---------- Guests ----------

  /** What an authenticated guest presents: the request's token and the key of its proof. */
  datatype Principal = Principal(token: Id, key: Id)

  predicate MayActFor(r: Request, p: Principal) { r.token == p.token && r.key == p.key }

  function GuestCancelled(s: Service, id: Id, p: Principal, revoking: Saving, saving: Saving): (Service, Reply) {
    if id !in s.data.requests || !MayActFor(s.data.requests[id], p) then (s, Failed(Unauthorised))
    else
      var r := s.data.requests[id];
      var (s1, failure) := if r.grant.Some? && r.grant.value in s.data.grants then RevokedIn(s, r.grant.value, revoking) else (s, None);
      if failure.Some? then (s1, Failed(failure.value))
      else SavedOr(s1.(data := s1.data.(requests := s1.data.requests[id := r.(status := Rejected)])), saving, Cancelled)
  }

  predicate GuestOwns(d: Durable, id: Id, p: Principal) {
    id in d.grants && d.grants[id].request in d.requests && MayActFor(d.requests[d.grants[id].request], p)
  }

  function GuestLeft(s: Service, id: Id, p: Principal, saving: Saving): (Service, Reply) {
    if !GuestOwns(s.data, id, p) then (s, Failed(Unauthorised)) else OwnerStopped(s, id, saving)
  }

  /** Up to the point where the mutex is let go for the vehicle source. */
  function SnapshotBegun(s: Service, id: Id, p: Principal, slot: bool, now: int, stamp: int): (Service, Reply) {
    if !GuestOwns(s.data, id, p) then (s, Failed(Unauthorised))
    else
      var g := s.data.grants[id];
      if g.view.status != Active then (s, Failed(Gone))
      else if (g.lastRead != 0 && now - g.lastRead < 1000) || !slot then (s, Failed(RateLimited))
      else (s.(data := s.data.(grants := s.data.grants[id := g.(lastRead := stamp)])),
            Reading(Capture(g.view, s.data.requests[g.request].recipient, SourceOf(s.data.issuer, g.car))))
  }

  /** After the source has answered, with the mutex held again. */
  function SnapshotFinished(s: Service, c: Capture, reading: Option<SourceSnapshot>, storeNow: int, stamp: int): (Service, Reply) {
    var id := c.view.binding.grant;
    if id !in s.data.grants || s.data.grants[id].view.status != Active then (s, Failed(Gone))
    else if s.data.grants[id].view.revision != c.view.revision then (s, Failed(Conflict))
    else if reading.None? then (s, Failed(Unavailable))
    else
      var o := S.ProjectedTo(s.store, c.recipient, c.view.binding, c.view.revision, reading.value, storeNow);
      if o.result.Err? then (s.(store := o.grants), Failed(StoreFailure(o.result.error)))
      else (s.(store := o.grants, data := s.data.(lastTime := stamp)), Delivered(o.result.value))
  }

  // ---------- Restart ----------

  const NO_DATA := Durable(0, 0, map[], map[], map[])

  predicate Loadable(d: Durable) {
    && |d.invitations| <= MAX_RECORDS && |d.requests| <= MAX_RECORDS && |d.grants| <= MAX_RECORDS
    && (forall id :: id in d.invitations ==> id != 0 && d.invitations[id].issuer == d.issuer && d.invitations[id].car >= 1)
    && (forall id :: id in d.requests ==> id != 0 && d.requests[id].recipient != 0)
    && (forall id :: id in d.grants ==>
                       && id != 0 && d.grants[id].view.binding.grant == id && d.grants[id].view.binding.issuer == d.issuer
                       && d.grants[id].car >= 1 && (d.grants[id].view.owner.Some? ==> d.grants[id].view.owner.value != 0))
  }

  function RestartedGrant(g: GrantRecord): GrantRecord {
    if g.view.status == Active
    then g.(lastRead := 0, view := g.view.(status := Revoked, revision := g.view.revision + 1))
    else g.(lastRead := 0)
  }

  function AllUsed(invitations: map<Id, Invitation>): map<Id, Invitation> {
    map id | id in invitations :: invitations[id].(used := true)
  }

  function AllExpired(requests: map<Id, Request>): map<Id, Request> {
    map id | id in requests :: requests[id].(status := Expired)
  }

  function AllRestarted(grants: map<Id, GrantRecord>): map<Id, GrantRecord> {
    map id | id in grants :: RestartedGrant(grants[id])
  }

  /** A restart continues nothing: every invitation is used up, every request expired, every
      active grant revoked. */
  function Invalidated(d: Durable): Durable {
    d.(invitations := AllUsed(d.invitations), requests := AllExpired(d.requests), grants := AllRestarted(d.grants))
  }

  /** No service: it could not start. */
  function Down(disk: Option<Durable>): Service { Service(NO_DATA, map[], false, disk) }

  /** What is on file, or nothing yet under a new issuer. */
  function Loaded(disk: Option<Durable>, issuer: Id): Durable {
    var d := if disk.Some? then disk.value else NO_DATA;
    if d.issuer == 0 then d.(issuer := issuer) else d
  }

  function Resumed(d: Durable, disk: Option<Durable>, saving: Saving): Service {
    var (s, failure) := Saved(Service(Invalidated(d), map[], true, disk), saving);
    if failure.Some? then Down(s.disk) else s
  }

  function Restarted(disk: Option<Durable>, now: int, issuer: Id, saving: Saving): Service {
    if disk.Some? && !Loadable(disk.value) then Down(disk)
    else
      var d := Loaded(disk, issuer);
      if d.issuer == 0 || d.lastTime > now then Down(disk) else Resumed(d, disk, saving)
  }

  // ---------- Steps ----------

  datatype Operation =
    | Look
    | MakeInvitation(form: InvitationForm, owns: Option<bool>, draw: Draw, now: int, saving: Saving)
    | Redeem(redeem: RedeemForm, request: Id, token: Id, now: int, created: int, saving: Saving)
    | Decide(request: Id, approve: bool, owner: Id, grant: Id, at: Approval, saving: Saving)
    | Restrict(grant: Id, revision: int, permissions: Permissions, expires: int, now: int, saving: Saving)
    | Stop(grant: Id, saving: Saving)
    | CancelInvitation(invitation: Id, order: seq<(Id, Saving)>, saving: Saving)
    | CancelRequest(request: Id, guest: Principal, revoking: Saving, saving: Saving)
    | Leave(grant: Id, guest: Principal, saving: Saving)
    | BeginSnapshot(grant: Id, guest: Principal, slot: bool, now: int, stamp: int)
    | FinishSnapshot(capture: Capture, reading: Option<SourceSnapshot>, now: int, stamp: int)

  function Handled(s: Service, op: Operation): (Service, Reply) {
    match op
    case Look => (s, Declined)
    case MakeInvitation(form, owns, draw, now, saving) => InvitationMade(s, form, owns, draw, now, saving)
    case Redeem(redeem, request, token, now, created, saving) => Redeemed(s, redeem, request, token, now, created, saving)
    case Decide(request, approve, owner, grant, at, saving) => Decided(s, request, approve, owner, grant, at, saving)
    case Restrict(grant, revision, permissions, expires, now, saving) =>
      RestrictedTo(s, grant, revision, permissions, expires, now, saving)
    case Stop(grant, saving) => OwnerStopped(s, grant, saving)
    case CancelInvitation(invitation, order, saving) => InvitationCancelled(s, invitation, order, saving)
    case CancelRequest(request, guest, revoking, saving) => GuestCancelled(s, request, guest, revoking, saving)
    case Leave(grant, guest, saving) => GuestLeft(s, grant, guest, saving)
    case BeginSnapshot(grant, guest, slot, now, stamp) => SnapshotBegun(s, grant, guest, slot, now, stamp)
    case FinishSnapshot(capture, reading, now, stamp) => SnapshotFinished(s, capture, reading, now, stamp)
  }

  /** Every stretch under the mutex checks the clock and expires what is due before it acts; a
      restart replaces the process. */
  datatype Event = Serve(entry: Entry, op: Operation) | Restart(now: int, issuer: Id, saving: Saving)

  function Step(s: Service, e: Event): (Service, Reply) {
    match e
    case Serve(entry, op) =>
      var s' := Entered(s, entry);
      if s'.healthy then Handled(s', op) else (s', Failed(Unavailable))
    case Restart(now, issuer, saving) => (Restarted(s.disk, now, issuer, saving), Declined)
  }
}
