/** Whole runs of the consent service: any handlers in any order, with any clock readings, any
    failures to save and any restarts. */
module FriendHistory {
  import opened Wrappers
  import opened FriendTypes
  import opened FriendService
  import opened FriendIntegrity
  import opened FriendConsent
  import opened FriendRuns
  import S = FriendStore
  import P = FriendProjection

  /** The service, the identifiers drawn so far, and which invitations have become requests and
      which requests grants. */
  datatype World = World(service: Service, issued: set<Id>, joined: seq<(Id, Id)>, granted: seq<(Id, Id)>)

  const FIRST := World(Down(None), {}, [], [])

  /** The identifier an operation draws for a new record; zero for none. */
  function Drawn(op: Operation): Id {
    match op
    case MakeInvitation(_, _, draw, _, _) => draw.invitation
    case Redeem(_, request, _, _, _, _) => request
    case Decide(_, _, _, grant, _, _) => grant
    case _ => 0
  }

  function DrawnBy(e: Event): Id { if e.Serve? then Drawn(e.op) else 0 }

  /** The one assumption on randomness: what is drawn has not been drawn before. */
  predicate FreshDraw(w: World, e: Event) { DrawnBy(e) == 0 || DrawnBy(e) !in w.issued }

  function Happens(w: World, e: Event): World {
    var s' := Step(w.service, e).0;
    World(s', w.issued + {DrawnBy(e)},
          if e.Serve? && e.op.Redeem? && e.op.request in s'.data.requests
          then w.joined + [(e.op.redeem.invitation, e.op.request)] else w.joined,
          if e.Serve? && e.op.Decide? && e.op.grant in s'.data.grants
          then w.granted + [(e.op.request, e.op.grant)] else w.granted)
  }

  function After(w: World, events: seq<Event>): World {
    if events == [] then w else Happens(After(w, events[..|events| - 1]), events[|events| - 1])
  }

  ghost predicate FreshRun(w: World, events: seq<Event>) {
    forall i :: 0 <= i < |events| ==> FreshDraw(After(w, events[..i]), events[i])
  }

  // ---------- One step ----------

  /** Nobody has become something twice. */
  ghost predicate OneShot(pairs: seq<(Id, Id)>) {
    forall i, j :: 0 <= i < j < |pairs| ==> pairs[i].0 != pairs[j].0 && pairs[i].1 != pairs[j].1
  }

  ghost predicate JoinedOnce(joined: seq<(Id, Id)>, issued: set<Id>, d: Durable) {
    && OneShot(joined)
    && forall k :: 0 <= k < |joined| ==>
                     && joined[k].0 in issued && joined[k].1 in issued
                     && (joined[k].0 in d.invitations ==> d.invitations[joined[k].0].used)
  }

  ghost predicate GrantedOnce(granted: seq<(Id, Id)>, issued: set<Id>, d: Durable) {
    && OneShot(granted)
    && forall k :: 0 <= k < |granted| ==>
                     && granted[k].0 in issued && granted[k].1 in issued
                     && (granted[k].0 in d.requests ==> d.requests[granted[k].0].status != Pending)
  }

  ghost predicate Reachable(w: World) {
    && Sound(w.service) && AllIssued(w.service, w.issued)
    && JoinedOnce(w.joined, w.issued, w.service.data) && GrantedOnce(w.granted, w.issued, w.service.data)
  }

  lemma HandlingKeepsSound(s: Service, op: Operation, issued: set<Id>)
    requires Sound(s) && AllIssued(s, issued) && (Drawn(op) == 0 || Drawn(op) !in issued)
    ensures Sound(Handled(s, op).0)
  {
    hide Sound, InvitationMade, Redeemed, Decided, RestrictedTo, OwnerStopped, InvitationCancelled, GuestCancelled,
      SnapshotBegun, SnapshotFinished;
    match op
    case MakeInvitation(form, owns, draw, now, saving) => InvitingKeepsSound(s, form, owns, draw, now, saving);
    case Redeem(redeem, request, token, now, created, saving) => RedeemingKeepsSound(s, redeem, request, token, now, created, saving);
    case Decide(request, approve, owner, grant, at, saving) => DecidingKeepsSound(s, request, approve, owner, grant, at, saving);
    case Restrict(grant, revision, permissions, expires, now, saving) =>
      RestrictingKeepsSound(s, grant, revision, permissions, expires, now, saving);
    case Stop(grant, saving) => StoppingKeepsSound(s, grant, saving);
    case CancelInvitation(invitation, order, saving) => InvitationCancellingKeepsSound(s, invitation, order, saving);
    case CancelRequest(request, guest, revoking, saving) => GuestCancellingKeepsSound(s, request, guest, revoking, saving);
    case Leave(grant, guest, saving) => StoppingKeepsSound(s, grant, saving);
    case BeginSnapshot(grant, guest, slot, now, stamp) => BeginningKeepsSound(s, grant, guest, slot, now, stamp);
    case FinishSnapshot(capture, reading, now, stamp) => FinishingKeepsSound(s, capture, reading, now, stamp);
    case Look =>
  }

  lemma HandlingMoves(s: Service, op: Operation, issued: set<Id>)
    requires Sound(s) && AllIssued(s, issued) && (Drawn(op) == 0 || Drawn(op) !in issued)
    ensures Moves(issued, Drawn(op), s, Handled(s, op).0)
  {
    hide Sound, AllIssued, Moves, Keeps, InvitationMade, Redeemed, Decided, RestrictedTo, OwnerStopped, InvitationCancelled,
      GuestCancelled, SnapshotBegun, SnapshotFinished;
    StayingKeeps(issued, s, s.store, s.healthy);
    var s' := Handled(s, op).0;
    if Keeps(issued, s, s') {
      KeepsMoves(issued, Drawn(op), s, s');
    }
    match op
    case MakeInvitation(form, owns, draw, now, saving) => InvitingMoves(issued, s, form, owns, draw, now, saving);
    case Redeem(redeem, request, token, now, created, saving) => RedeemingMoves(issued, s, redeem, request, token, now, created, saving);
    case Decide(request, approve, owner, grant, at, saving) => DecidingMoves(issued, s, request, approve, owner, grant, at, saving);
    case Restrict(grant, revision, permissions, expires, now, saving) =>
      RestrictingKeeps(issued, s, grant, revision, permissions, expires, now, saving);
    case Stop(grant, saving) => StoppingKeeps(issued, s, grant, saving);
    case CancelInvitation(invitation, order, saving) => InvitationCancellingKeeps(issued, s, invitation, order, saving);
    case CancelRequest(request, guest, revoking, saving) => GuestCancellingKeeps(issued, s, request, guest, revoking, saving);
    case Leave(grant, guest, saving) => StoppingKeeps(issued, s, grant, saving);
    case BeginSnapshot(grant, guest, slot, now, stamp) => BeginningKeeps(issued, s, grant, guest, slot, now, stamp);
    case FinishSnapshot(capture, reading, now, stamp) => FinishingKeeps(issued, s, capture, reading, now, stamp);
    case Look =>
  }

  lemma StepMoves(w: World, e: Event)
    requires Sound(w.service) && AllIssued(w.service, w.issued) && FreshDraw(w, e)
    ensures Sound(Step(w.service, e).0) && Moves(w.issued, DrawnBy(e), w.service, Step(w.service, e).0)
  {
    hide Sound, Progress, KeysIn, Handled, Entered, Restarted;
    var s := w.service;
    match e
    case Serve(entry, op) =>
      var s1 := Entered(s, entry);
      EnteringKeepsSound(s, entry);
      EnteringMoves(w.issued, s, entry);
      KeepsMoves(w.issued, DrawnBy(e), s, s1);
      if s1.healthy {
        HandlingKeepsSound(s1, op, w.issued);
        HandlingMoves(s1, op, w.issued);
        ProgressIsTransitive(w.issued, w.issued, s.data, s1.data, Handled(s1, op).0.data);
      }
    case Restart(now, issuer, saving) =>
      RestartingKeepsSound(s, now, issuer, saving);
      RestartingKeeps(w.issued, s, now, issuer, saving);
      KeepsMoves(w.issued, 0, s, Restarted(s.disk, now, issuer, saving));
  }

  // ---------- One use each ----------

  lemma RedeemingUses(s: Service, f: RedeemForm, id: Id, token: Id, now: int, created: int, saving: Saving)
    requires id !in s.data.requests && id in Redeemed(s, f, id, token, now, created, saving).0.data.requests
    ensures f.invitation in s.data.invitations && !s.data.invitations[f.invitation].used
    ensures var d := Redeemed(s, f, id, token, now, created, saving).0.data;
            f.invitation in d.invitations && d.invitations[f.invitation].used
  {
  }

  lemma DecidingUses(s: Service, id: Id, approve: bool, owner: Id, grant: Id, a: Approval, saving: Saving)
    requires grant !in s.data.grants && grant in Decided(s, id, approve, owner, grant, a, saving).0.data.grants
    ensures id in s.data.requests && s.data.requests[id].status == Pending
    ensures var d := Decided(s, id, approve, owner, grant, a, saving).0.data;
            id in d.requests && d.requests[id].status == Approved
  {
    hide S.Created;
  }

  lemma JoinedStaysOnce(joined: seq<(Id, Id)>, issued: set<Id>, more: set<Id>, d: Durable, d': Durable)
    requires JoinedOnce(joined, issued, d) && Progress(issued, d, d') && issued <= more
    ensures JoinedOnce(joined, more, d')
  {
    hide RequestProgress, GrantProgress, OneShot;
    forall k | 0 <= k < |joined|
      ensures joined[k].0 in d'.invitations ==> d'.invitations[joined[k].0].used
    {
      assert InvitationProgress(d, d', joined[k].0);
    }
  }

  lemma JoiningOnce(joined: seq<(Id, Id)>, issued: set<Id>, d: Durable, d1: Durable, d': Durable, pair: (Id, Id))
    requires JoinedOnce(joined, issued, d) && Progress(issued, d, d1)
    requires pair.0 in issued && pair.1 !in issued && pair.0 in d1.invitations && !d1.invitations[pair.0].used
    requires JoinedOnce(joined, issued + {pair.1}, d') && pair.0 in d'.invitations && d'.invitations[pair.0].used
    ensures JoinedOnce(joined + [pair], issued + {pair.1}, d')
  {
    hide RequestProgress, GrantProgress;
    assert InvitationProgress(d, d1, pair.0);
  }

  lemma GrantedStaysOnce(granted: seq<(Id, Id)>, issued: set<Id>, more: set<Id>, d: Durable, d': Durable)
    requires GrantedOnce(granted, issued, d) && Progress(issued, d, d') && issued <= more
    ensures GrantedOnce(granted, more, d')
  {
    hide InvitationProgress, GrantProgress, OneShot;
    forall k | 0 <= k < |granted|
      ensures granted[k].0 in d'.requests ==> d'.requests[granted[k].0].status != Pending
    {
      assert RequestProgress(d, d', granted[k].0);
    }
  }

  lemma GrantingOnce(granted: seq<(Id, Id)>, issued: set<Id>, d: Durable, d1: Durable, d': Durable, pair: (Id, Id))
    requires GrantedOnce(granted, issued, d) && Progress(issued, d, d1)
    requires pair.0 in issued && pair.1 !in issued && pair.0 in d1.requests && d1.requests[pair.0].status == Pending
    requires GrantedOnce(granted, issued + {pair.1}, d') && pair.0 in d'.requests && d'.requests[pair.0].status != Pending
    ensures GrantedOnce(granted + [pair], issued + {pair.1}, d')
  {
    hide InvitationProgress, GrantProgress;
    assert RequestProgress(d, d1, pair.0);
  }

  lemma NothingJoinsUnserved(w: World, e: Event)
    requires Sound(w.service) && AllIssued(w.service, w.issued) && FreshDraw(w, e)
    requires e.Serve? && e.op.Redeem? && e.op.request in Step(w.service, e).0.data.requests
    ensures Entered(w.service, e.entry).healthy && e.op.request !in w.issued
  {
    NotZero(w, e);
    EnteringMoves(w.issued, w.service, e.entry);
    hide Progress, Entered, Handled, Sound;
  }

  lemma NotZero(w: World, e: Event)
    requires Sound(w.service) && AllIssued(w.service, w.issued) && FreshDraw(w, e)
    ensures 0 !in Step(w.service, e).0.data.requests && 0 !in Step(w.service, e).0.data.grants
  {
    StepMoves(w, e);
  }

  lemma JoiningKeepsOnce(w: World, e: Event)
    requires Reachable(w) && FreshDraw(w, e)
    ensures JoinedOnce(Happens(w, e).joined, Happens(w, e).issued, Happens(w, e).service.data)
  {
    StepMoves(w, e);
    hide Sound, Progress, Entered, Handled, Restarted, OneShot;
    var s' := Step(w.service, e).0;
    JoinedStaysOnce(w.joined, w.issued, w.issued + {DrawnBy(e)}, w.service.data, s'.data);
    if e.Serve? && e.op.Redeem? && e.op.request in s'.data.requests {
      var op := e.op;
      NothingJoinsUnserved(w, e);
      var s1 := Entered(w.service, e.entry);
      EnteringMoves(w.issued, w.service, e.entry);
      RedeemStep(s1, op);
      JoiningOnce(w.joined, w.issued, w.service.data, s1.data, s'.data, (op.redeem.invitation, op.request));
    }
  }

  lemma RedeemStep(s: Service, op: Operation)
    requires op.Redeem? && op.request !in s.data.requests && op.request in Handled(s, op).0.data.requests
    ensures op.redeem.invitation in s.data.invitations && !s.data.invitations[op.redeem.invitation].used
    ensures var d := Handled(s, op).0.data; op.redeem.invitation in d.invitations && d.invitations[op.redeem.invitation].used
  {
    hide Redeemed;
    RedeemingUses(s, op.redeem, op.request, op.token, op.now, op.created, op.saving);
  }

  lemma DecideStep(s: Service, op: Operation)
    requires op.Decide? && op.grant !in s.data.grants && op.grant in Handled(s, op).0.data.grants
    ensures op.request in s.data.requests && s.data.requests[op.request].status == Pending
    ensures var d := Handled(s, op).0.data; op.request in d.requests && d.requests[op.request].status == Approved
  {
    hide Decided;
    DecidingUses(s, op.request, op.approve, op.owner, op.grant, op.at, op.saving);
  }

  lemma NothingIsGrantedUnserved(w: World, e: Event)
    requires Sound(w.service) && AllIssued(w.service, w.issued) && FreshDraw(w, e)
    requires e.Serve? && e.op.Decide? && e.op.grant in Step(w.service, e).0.data.grants
    ensures Entered(w.service, e.entry).healthy && e.op.grant !in w.issued
  {
    NotZero(w, e);
    EnteringMoves(w.issued, w.service, e.entry);
    hide Progress, Entered, Handled, Sound;
  }

  lemma GrantingKeepsOnce(w: World, e: Event)
    requires Reachable(w) && FreshDraw(w, e)
    ensures GrantedOnce(Happens(w, e).granted, Happens(w, e).issued, Happens(w, e).service.data)
  {
    StepMoves(w, e);
    hide Sound, Progress, Entered, Handled, Restarted, OneShot;
    var s' := Step(w.service, e).0;
    GrantedStaysOnce(w.granted, w.issued, w.issued + {DrawnBy(e)}, w.service.data, s'.data);
    if e.Serve? && e.op.Decide? && e.op.grant in s'.data.grants {
      var op := e.op;
      NothingIsGrantedUnserved(w, e);
      var s1 := Entered(w.service, e.entry);
      EnteringMoves(w.issued, w.service, e.entry);
      DecideStep(s1, op);
      GrantingOnce(w.granted, w.issued, w.service.data, s1.data, s'.data, (op.request, op.grant));
    }
  }

  lemma EventKeepsReachable(w: World, e: Event)
    requires Reachable(w) && FreshDraw(w, e)
    ensures Reachable(Happens(w, e)) && Progress(w.issued, w.service.data, Happens(w, e).service.data)
  {
    StepMoves(w, e);
    JoiningKeepsOnce(w, e);
    GrantingKeepsOnce(w, e);
    hide Sound, Progress, KeysIn, Step, JoinedOnce, GrantedOnce;
  }

  // ---------- Main results ----------

  lemma FirstIsReachable()
    ensures Reachable(FIRST)
  {
    DownIsSound(None);
  }

  lemma {:induction false} RunKeepsReachable(w: World, events: seq<Event>)
    requires Reachable(w) && FreshRun(w, events)
    ensures Reachable(After(w, events)) && w.issued <= After(w, events).issued
    ensures Progress(w.issued, w.service.data, After(w, events).service.data)
  {
    hide Reachable, Progress, Happens, FreshDraw;
    if events == [] {
      SameRecordsProgress(w.issued, w.service.data, w.service.data);
    } else {
      var before := events[..|events| - 1];
      var mid := After(w, before);
      assert FreshRun(w, before) && FreshDraw(mid, events[|events| - 1]) by { FreshPrefix(w, events); }
      RunKeepsReachable(w, before);
      EventKeepsReachable(mid, events[|events| - 1]);
      assert mid.issued <= Happens(mid, events[|events| - 1]).issued by { IssuedGrows(mid, events[|events| - 1]); }
      ProgressIsTransitive(w.issued, mid.issued, w.service.data, mid.service.data, After(w, events).service.data);
    }
  }

  lemma IssuedGrows(w: World, e: Event)
    ensures w.issued <= Happens(w, e).issued
  {
    hide Step;
  }

  lemma FreshPrefix(w: World, events: seq<Event>)
    requires FreshRun(w, events) && events != []
    ensures FreshRun(w, events[..|events| - 1]) && FreshDraw(After(w, events[..|events| - 1]), events[|events| - 1])
  {
    hide After, FreshDraw;
    var before := events[..|events| - 1];
    forall i | 0 <= i < |before|
      ensures FreshDraw(After(w, before[..i]), before[i])
    {
      assert before[..i] == events[..i];
    }
  }

  /** In every reachable state the two layers agree, the grants are bounded by the requests and
      these by 64 although approving tests no capacity, and both the records and whatever is on
      file would be accepted at the next start. */
  lemma {:induction false} RunsAreBoundedAndLoadable(events: seq<Event>)
    requires FreshRun(FIRST, events)
    ensures var s := After(FIRST, events).service;
            && Agreement(s.data, s.store)
            && |s.data.grants| <= |s.data.requests| <= MAX_RECORDS && |s.data.invitations| <= MAX_RECORDS
            && Loadable(s.data) && (s.disk.Some? ==> Loadable(s.disk.value))
  {
    FirstIsReachable();
    RunKeepsReachable(FIRST, events);
    var w := After(FIRST, events);
    assert Sound(w.service);
    hide After, Integrity, Loadable;
    IntegrityBounds(w.service.data);
    IntegrityIsLoadable(w.service.data);
    if w.service.disk.Some? {
      IntegrityIsLoadable(w.service.disk.value);
    }
  }

  /** After any run, stopping a grant that is shown active revokes it in the store too. */
  lemma StopAlwaysReachesStore(events: seq<Event>, id: Id, saving: Saving)
    requires FreshRun(FIRST, events) && id in After(FIRST, events).service.data.grants
    requires After(FIRST, events).service.data.grants[id].view.status == Active
    ensures var s := RevokedIn(After(FIRST, events).service, id, saving).0;
            && id in s.store && s.store[id].revoked && id in s.data.grants && s.data.grants[id].view.status == Revoked
  {
    FirstIsReachable();
    RunKeepsReachable(FIRST, events);
    StopReachesStore(After(FIRST, events).service, id, saving);
    hide After, RevokedIn;
  }

  /** The one-shot chain: over any run with restarts, an invitation becomes at most one request
      and a request at most one grant. */
  lemma {:induction false} EverythingIsUsedOnce(events: seq<Event>)
    requires FreshRun(FIRST, events)
    ensures OneShot(After(FIRST, events).joined) && OneShot(After(FIRST, events).granted)
  {
    FirstIsReachable();
    RunKeepsReachable(FIRST, events);
  }

  /** Nothing left is entered again, from any point of a run on: not by any handler, cleanup,
      failed save or restart. */
  lemma NothingIsEnteredAgain(events: seq<Event>, more: seq<Event>)
    requires FreshRun(FIRST, events) && FreshRun(After(FIRST, events), more)
    ensures var w := After(FIRST, events);
            Progress(w.issued, w.service.data, After(w, more).service.data)
  {
    FirstIsReachable();
    RunKeepsReachable(FIRST, events);
    RunKeepsReachable(After(FIRST, events), more);
  }

  /** A grant ends before its invitation's expiry plus the sharing duration, whatever it shows. */
  lemma GrantsStayInsideInvitation(events: seq<Event>, id: Id)
    requires FreshRun(FIRST, events) && id in After(FIRST, events).service.data.grants
    ensures var d := After(FIRST, events).service.data;
            && d.grants[id].request in d.requests && d.requests[d.grants[id].request].invitation in d.invitations
            && var inv := d.invitations[d.requests[d.grants[id].request].invitation];
               d.grants[id].view.expires < inv.expires + inv.duration * 1000 && Within(d.grants[id].view.permissions, inv.permissions)
  {
    FirstIsReachable();
    RunKeepsReachable(FIRST, events);
    IntegrityParts(After(FIRST, events).service.data);
    hide After;
  }

  // ---------- The race between a snapshot and a stop or restriction ----------

  lemma {:induction false} AfterSplit(w: World, events: seq<Event>, k: nat)
    requires k <= |events|
    ensures After(w, events) == After(After(w, events[..k]), events[k..])
  {
    hide Happens;
    if k == |events| {
      assert events[..k] == events && events[k..] == [];
    } else {
      var before := events[..|events| - 1];
      AfterSplit(w, before, k);
      assert before[..k] == events[..k] && events[k..][..|events[k..]| - 1] == before[k..];
    }
  }

  lemma FreshSuffix(w: World, events: seq<Event>, k: nat)
    requires FreshRun(w, events) && k <= |events|
    ensures FreshRun(w, events[..k]) && FreshRun(After(w, events[..k]), events[k..])
  {
    hide After, FreshDraw;
    forall i | 0 <= i < |events[..k]|
      ensures FreshDraw(After(w, events[..k][..i]), events[..k][i])
    {
      assert events[..k][..i] == events[..i];
    }
    forall i | 0 <= i < |events[k..]|
      ensures FreshDraw(After(After(w, events[..k]), events[k..][..i]), events[k..][i])
    {
      var prefix := events[..k + i];
      assert prefix[..k] == events[..k] && prefix[k..] == events[k..][..i];
      AfterSplit(w, prefix, k);
    }
  }

  lemma BeginningCaptures(s: Service, id: Id, p: Principal, slot: bool, now: int, stamp: int, c: Capture)
    requires Sound(s) && SnapshotBegun(s, id, p, slot, now, stamp).1 == Reading(c)
    ensures var d := SnapshotBegun(s, id, p, slot, now, stamp).0.data;
            && c.view.binding.grant == id && id in d.grants && d.grants[id].view == c.view && c.view.status == Active
            && c.recipient == c.view.binding.recipient && c.source == SourceOf(d.issuer, d.grants[id].car)
  {
    hide Agreement;
    assert GrantOk(s.data.issuer, id, s.data.grants[id]) && GrantLinked(s.data, id) by { IntegrityParts(s.data); }
  }

  function MetadataOf(v: View): Metadata { Metadata(v.binding, v.revision, v.consentStarted, v.expires, v.permissions) }

  lemma FinishingDelivers(s: Service, c: Capture, reading: Option<SourceSnapshot>, now: int, stamp: int, out: Snapshot)
    requires Sound(s) && SnapshotFinished(s, c, reading, now, stamp).1 == Delivered(out)
    ensures var id := c.view.binding.grant;
            && id in s.data.grants && s.data.grants[id].view.status == Active && s.data.grants[id].view.revision == c.view.revision
            && P.WithinConsent(out, MetadataOf(s.data.grants[id].view)) && out.serverTime == now
            && s.data.grants[id].view.consentStarted <= now < s.data.grants[id].view.expires
  {
    hide P.WithinConsent, S.ProjectedTo, Integrity, DiskOk;
    S.SnapshotIsAuthorised(s.store, c.recipient, c.view.binding, c.view.revision, reading.value, now);
    assert Agrees(s.data.issuer, c.view.binding.grant, s.data.grants[c.view.binding.grant], s.store);
  }

  /** A snapshot as two steps of a run with anything in between. */
  ghost predicate SnapshotAcross(w: World, begin: Event, c: Capture, events: seq<Event>, finish: Event, out: Snapshot) {
    && Reachable(w) && begin.Serve? && begin.op.BeginSnapshot? && Step(w.service, begin).1 == Reading(c)
    && FreshRun(Happens(w, begin), events)
    && finish.Serve? && finish.op.FinishSnapshot? && finish.op.capture == c
    && Step(After(Happens(w, begin), events).service, finish).1 == Delivered(out)
  }

  lemma CapturedIsShown(w: World, begin: Event, c: Capture)
    requires Reachable(w) && begin.Serve? && begin.op.BeginSnapshot? && Step(w.service, begin).1 == Reading(c)
    ensures var w' := Happens(w, begin);
            && Reachable(w') && c.view.binding.grant in w'.issued && c.view.binding.grant in w'.service.data.grants
            && w'.service.data.grants[c.view.binding.grant].view == c.view && c.view.status == Active
  {
    EventKeepsReachable(w, begin);
    EnteringKeepsSound(w.service, begin.entry);
    hide Sound, Entered, JoinedOnce, GrantedOnce, SnapshotBegun;
    var op := begin.op;
    BeginningCaptures(Entered(w.service, begin.entry), op.grant, op.guest, op.slot, op.now, op.stamp, c);
  }

  lemma FinishStep(s: Service, finish: Event, out: Snapshot)
    requires finish.Serve? && finish.op.FinishSnapshot? && Step(s, finish).1 == Delivered(out)
    ensures SnapshotFinished(Entered(s, finish.entry), finish.op.capture, finish.op.reading, finish.op.now, finish.op.stamp).1 == Delivered(out)
  {
    hide Entered, SnapshotFinished;
  }

  lemma DeliveredIsShown(w: World, finish: Event, c: Capture, out: Snapshot)
    requires Reachable(w) && finish.Serve? && finish.op.FinishSnapshot? && finish.op.capture == c
    requires Step(w.service, finish).1 == Delivered(out)
    ensures var d := Entered(w.service, finish.entry).data;
            var id := c.view.binding.grant;
            && Progress(w.issued, w.service.data, d)
            && id in d.grants && d.grants[id].view.status == Active && d.grants[id].view.revision == c.view.revision
            && P.WithinConsent(out, MetadataOf(d.grants[id].view)) && out.serverTime == finish.op.now
            && d.grants[id].view.consentStarted <= out.serverTime < d.grants[id].view.expires
  {
    hide Sound, Entered, Progress, SnapshotFinished, P.WithinConsent, Step, JoinedOnce, GrantedOnce, AllIssued;
    EnteringMoves(w.issued, w.service, finish.entry);
    EnteringKeepsSound(w.service, finish.entry);
    FinishStep(w.service, finish, out);
    var op := finish.op;
    FinishingDelivers(Entered(w.service, finish.entry), c, op.reading, op.now, op.stamp, out);
  }

  lemma SameRevisionSameView(issued: set<Id>, more: set<Id>, a: Durable, b: Durable, c: Durable, id: Id)
    requires id in issued && issued <= more && Progress(issued, a, b) && Progress(more, b, c)
    requires id in a.grants && id in c.grants && c.grants[id].view.status == Active
    requires a.grants[id].view.revision == c.grants[id].view.revision
    ensures id in b.grants && b.grants[id].view == a.grants[id].view == c.grants[id].view
  {
    assert GrantProgress(a, b, id) && GrantProgress(b, c, id);
  }

  /** Stop, restriction and expiry always win: a snapshot is handed out only if at every moment
      while the vehicle source was being read the grant was active with exactly the view that
      was captured, and only within the consent of that view. */
  lemma SnapshotNeverOutlivesConsent(w: World, begin: Event, c: Capture, events: seq<Event>, finish: Event, out: Snapshot, k: nat)
    requires SnapshotAcross(w, begin, c, events, finish, out) && k <= |events|
    ensures P.WithinConsent(out, MetadataOf(c.view)) && c.view.consentStarted <= out.serverTime < c.view.expires
    ensures var d := After(Happens(w, begin), events[..k]).service.data;
            c.view.binding.grant in d.grants && d.grants[c.view.binding.grant].view == c.view && c.view.status == Active
  {
    hide Reachable, Progress, Happens, Step, Entered, After, P.WithinConsent;
    var id := c.view.binding.grant;
    var w1 := Happens(w, begin);
    CapturedIsShown(w, begin, c);
    var wk := After(w1, events[..k]);
    FreshSuffix(w1, events, k);
    AfterSplit(w1, events, k);
    RunKeepsReachable(w1, events[..k]);
    RunKeepsReachable(wk, events[k..]);
    var w2 := After(wk, events[k..]);
    DeliveredIsShown(w2, finish, c, out);
    var d := Entered(w2.service, finish.entry).data;
    ProgressIsTransitive(wk.issued, w2.issued, wk.service.data, w2.service.data, d);
    SameRevisionSameView(w1.issued, wk.issued, w1.service.data, wk.service.data, d, id);
  }
}
