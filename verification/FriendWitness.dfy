/** Concrete runs of the consent service from the start: one that ends in a delivered snapshot,
    so that the results about snapshots are not about nothing, and two that leave a store grant
    without a view. */
module FriendWitness {
  import opened Wrappers
  import opened FriendTypes
  import opened FriendService
  import opened FriendHistory
  import opened FriendOrphans
  import S = FriendStore

  const NOW := Entry(0, 0, 0)
  const SAVED := Saving(0, 0, Stored)
  const LOCATION := Permissions(true, false, false, false)
  const GUEST := Principal(11, 9)

  const FORM := InvitationForm(1, 3600, LOCATION, Device(5, 6), 0, None)
  const INVITATION := Invitation(1, 4, 3, INVITATION_LIFE_MS, 3600, LOCATION, 5, 7, 1, None, false)
  const REQUEST := Request(8, 9, 0, INVITATION_LIFE_MS, Pending, 2, 11, None)
  const SPEC := GrantSpec(Binding(12, 1, 4, 3, 8), SourceKey(1, 1), LOCATION, 3600000, None)
  const VIEW := View(SPEC.binding, 1, 0, 3600000, LOCATION, Active, Some(5))
  const READING := SourceSnapshot(SourceKey(1, 1), Unknown, None, None, None, [])

  const STARTED := Durable(1, 0, map[], map[], map[])
  const INVITED := STARTED.(invitations := map[2 := INVITATION])
  const JOINED := INVITED.(invitations := map[2 := INVITATION.(used := true)], requests := map[10 := REQUEST])
  const SHARED := JOINED.(requests := map[10 := REQUEST.(status := Approved, grant := Some(12))],
                          grants := map[12 := GrantRecord(VIEW, 1, 10, 0)])

  /** A healthy service that has saved what it holds. */
  function At(d: Durable, store: S.Grants): Service { Service(d, store, true, Some(d)) }

  lemma Starts()
    ensures Step(FIRST.service, Restart(0, 1, SAVED)).0 == At(STARTED, map[])
  {
  }

  predicate NothingDue(d: Durable) {
    && (forall id :: id in d.requests ==> d.requests[id].expires > 0) && (forall id :: id in d.grants ==> d.grants[id].view.expires > 0)
    && (forall id :: id in d.invitations ==> d.invitations[id].expires > 0)
  }

  lemma NothingLapses(d: Durable)
    requires NothingDue(d)
    ensures Lapsed(d, 0) == d
  {
    assert LapsedRequests(d.requests, 0) == d.requests;
    assert LapsedGrants(d.grants, 0) == d.grants;
  }

  lemma Enters(d: Durable, store: S.Grants)
    requires NothingDue(d) && d.lastTime == 0
    ensures Entered(At(d, store), NOW) == At(d, store)
  {
    NothingLapses(d);
    hide Lapsed, Reclaimed;
  }

  lemma Serves(d: Durable, store: S.Grants, op: Operation)
    requires NothingDue(d) && d.lastTime == 0
    ensures Step(At(d, store), Serve(NOW, op)) == Handled(At(d, store), op)
  {
    Enters(d, store);
    hide Entered, Handled;
  }

  lemma Invites()
    ensures Step(At(STARTED, map[]), Serve(NOW, MakeInvitation(FORM, Some(true), Draw(2, 3, 4, 7), 0, SAVED))) ==
            (At(INVITED, map[]), Invited(2, 7))
  {
    Serves(STARTED, map[], MakeInvitation(FORM, Some(true), Draw(2, 3, 4, 7), 0, SAVED));
    hide Step;
  }

  lemma Joins()
    ensures Step(At(INVITED, map[]), Serve(NOW, Redeem(RedeemForm(2, 7, 8, 9, true), 10, 11, 0, 0, SAVED))) ==
            (At(JOINED, map[]), Joined(10, 11))
  {
    Serves(INVITED, map[], Redeem(RedeemForm(2, 7, 8, 9, true), 10, 11, 0, 0, SAVED));
    hide Step, Handled;
    Redeems();
  }

  lemma Redeems()
    ensures Handled(At(INVITED, map[]), Redeem(RedeemForm(2, 7, 8, 9, true), 10, 11, 0, 0, SAVED)) ==
            (At(JOINED, map[]), Joined(10, 11))
  {
    assert INVITED.invitations[2 := INVITATION.(used := true)] == JOINED.invitations;
    assert INVITED.requests[10 := REQUEST] == JOINED.requests;
  }

  lemma Creates()
    ensures S.Created(map[], OwnerOf(1, 1), SPEC, 0) == S.Outcome(map[12 := S.NewGrant(SPEC, 0)], Ok(S.NewGrant(SPEC, 0).metadata))
  {
  }

  lemma Approves()
    ensures Step(At(JOINED, map[]), Serve(NOW, Decide(10, true, 0, 12, Approval(0, 0, 0), SAVED))) ==
            (At(SHARED, map[12 := S.NewGrant(SPEC, 0)]), Shared(VIEW))
  {
    Serves(JOINED, map[], Decide(10, true, 0, 12, Approval(0, 0, 0), SAVED));
    hide Step, Handled;
    Decides();
  }

  lemma Decides()
    ensures Handled(At(JOINED, map[]), Decide(10, true, 0, 12, Approval(0, 0, 0), SAVED)) ==
            (At(SHARED, map[12 := S.NewGrant(SPEC, 0)]), Shared(VIEW))
  {
    hide GrantMade, S.NewGrant;
    Grants();
  }

  lemma Grants()
    ensures GrantMade(At(JOINED, map[]), 10, 0, 12, Approval(0, 0, 0), SAVED) ==
            (At(SHARED, map[12 := S.NewGrant(SPEC, 0)]), Shared(VIEW))
  {
    hide S.Created;
    assert JOINED.requests[10 := REQUEST.(status := Approved, grant := Some(12))] == SHARED.requests;
    assert JOINED.grants[12 := GrantRecord(VIEW, 1, 10, 0)] == SHARED.grants;
    assert SpecFor(1, JOINED.invitations[2], REQUEST, 12, 0) == SPEC;
    Creates();
  }

  const STORE := map[12 := S.NewGrant(SPEC, 0)]
  const CAPTURE := Capture(VIEW, 8, SourceKey(1, 1))
  const BEGIN := Serve(NOW, BeginSnapshot(12, GUEST, true, 0, 0))
  const FINISH := Serve(NOW, FinishSnapshot(CAPTURE, Some(READING), 0, 0))

  lemma Begins()
    ensures Step(At(SHARED, STORE), BEGIN) == (At(SHARED, STORE), Reading(CAPTURE))
  {
    Serves(SHARED, STORE, BEGIN.op);
    hide Step;
    Reads(STORE);
  }

  lemma Reads(store: S.Grants)
    ensures Handled(At(SHARED, store), BEGIN.op) == (At(SHARED, store), Reading(CAPTURE))
  {
    assert SHARED.grants[12 := SHARED.grants[12].(lastRead := 0)] == SHARED.grants;
  }

  lemma Projects()
    ensures S.ProjectedTo(STORE, 8, VIEW.binding, 1, READING, 0).result.Ok?
  {
  }

  lemma Finishes()
    ensures Step(At(SHARED, STORE), FINISH).1.Delivered?
  {
    Serves(SHARED, STORE, FINISH.op);
    Projects();
    hide Step, Handled, S.ProjectedTo, S.NewGrant;
    Delivers(STORE);
  }

  lemma Delivers(store: S.Grants)
    requires S.ProjectedTo(store, 8, VIEW.binding, 1, READING, 0).result.Ok?
    ensures Handled(At(SHARED, store), FINISH.op).1.Delivered?
  {
    hide S.ProjectedTo;
  }

  // ---------- The run ----------

  const RUN := [Restart(0, 1, SAVED),
                Serve(NOW, MakeInvitation(FORM, Some(true), Draw(2, 3, 4, 7), 0, SAVED)),
                Serve(NOW, Redeem(RedeemForm(2, 7, 8, 9, true), 10, 11, 0, 0, SAVED)),
                Serve(NOW, Decide(10, true, 0, 12, Approval(0, 0, 0), SAVED))]

  const FRESH_START := World(At(STARTED, map[]), {0}, [], [])
  const AFTER_INVITING := World(At(INVITED, map[]), {0, 2}, [], [])
  const AFTER_JOINING := World(At(JOINED, map[]), {0, 2, 10}, [(2, 10)], [])
  const AFTER_APPROVING := World(At(SHARED, STORE), {0, 2, 10, 12}, [(2, 10)], [(10, 12)])

  lemma HappensFirst()
    ensures Happens(FIRST, RUN[0]) == FRESH_START && Happens(FRESH_START, RUN[1]) == AFTER_INVITING
  {
    Starts();
    Invites();
    hide Step;
  }

  lemma HappensThen()
    ensures Happens(AFTER_INVITING, RUN[2]) == AFTER_JOINING && Happens(AFTER_JOINING, RUN[3]) == AFTER_APPROVING
  {
    Joins();
    Approves();
    hide Step;
  }

  lemma RunUnfolds()
    ensures After(FIRST, RUN[..1]) == FRESH_START && After(FIRST, RUN[..2]) == AFTER_INVITING
    ensures After(FIRST, RUN[..3]) == AFTER_JOINING && After(FIRST, RUN) == AFTER_APPROVING
  {
    HappensFirst();
    HappensThen();
    hide Happens;
    assert RUN[..1][..0] == [] && RUN[..2][..1] == RUN[..1] && RUN[..3][..2] == RUN[..2] && RUN[..3] == RUN[..|RUN| - 1];
    assert After(FIRST, RUN[..1]) == Happens(FIRST, RUN[0]) == FRESH_START;
    assert After(FIRST, RUN[..2]) == Happens(FRESH_START, RUN[1]) == AFTER_INVITING;
    assert After(FIRST, RUN[..3]) == Happens(AFTER_INVITING, RUN[2]) == AFTER_JOINING;
    assert After(FIRST, RUN) == Happens(AFTER_JOINING, RUN[3]) == AFTER_APPROVING;
  }

  lemma RunIsFresh()
    ensures FreshRun(FIRST, RUN)
  {
    RunUnfolds();
    hide Happens;
    assert RUN[..0] == [];
    forall i | 0 <= i < |RUN|
      ensures FreshDraw(After(FIRST, RUN[..i]), RUN[i])
    {
      if i == 0 {
        assert FreshDraw(FIRST, RUN[0]);
      }
    }
  }

  lemma BeginningChangesNothing()
    ensures Happens(AFTER_APPROVING, BEGIN) == AFTER_APPROVING
  {
    Begins();
    hide Step;
  }

  lemma NothingIsFresh(w: World)
    ensures FreshRun(w, []) && After(w, []) == w
  {
  }

  /** A run without surprises delivers a snapshot. */
  lemma SnapshotsHappen()
    ensures FreshRun(FIRST, RUN)
    ensures exists out :: SnapshotAcross(After(FIRST, RUN), BEGIN, CAPTURE, [], FINISH, out)
  {
    hide Step, Reachable, Happens, FreshRun, After;
    RunIsFresh();
    FirstIsReachable();
    RunKeepsReachable(FIRST, RUN);
    RunUnfolds();
    Begins();
    Finishes();
    BeginningChangesNothing();
    NothingIsFresh(AFTER_APPROVING);
    assert SnapshotAcross(AFTER_APPROVING, BEGIN, CAPTURE, [], FINISH, Step(AFTER_APPROVING.service, FINISH).1.snapshot);
  }

  // ---------- Grants that nobody sees ----------

  /** The service's clock is far ahead of the store's for one cleanup. */
  const AHEAD := Serve(Entry(0, 3600000 + INVITATION_LIFE_MS, 0), Look)

  /** The approving device is not the inviting one. */
  const ESTRANGED := Serve(NOW, Decide(10, true, 13, 12, Approval(0, 0, 0), SAVED))

  lemma RunIsCovered()
    ensures Covered(AFTER_APPROVING.service) && Timed(AFTER_APPROVING.service)
    ensures Covered(AFTER_JOINING.service) && Timed(AFTER_JOINING.service)
  {
  }

  lemma AheadOutpaces()
    ensures Breaks(AFTER_APPROVING.service, AHEAD) && FreshDraw(AFTER_APPROVING, AHEAD)
  {
    hide Entered;
    assert 12 in AFTER_APPROVING.service.store;
  }

  lemma EstrangedMismatches()
    ensures Breaks(AFTER_JOINING.service, ESTRANGED) && FreshDraw(AFTER_JOINING, ESTRANGED)
  {
    Enters(JOINED, map[]);
    hide Entered, StoreAccepts;
    Accepts();
  }

  lemma Accepts()
    ensures StoreAccepts(At(JOINED, map[]), 10, 12, Approval(0, 0, 0))
  {
  }

  /** An ordinary approval, and then one cleanup ahead of the store's clock: the grant is still
      in the store and no longer in the records. */
  lemma CleanupLeavesOrphan()
    ensures FreshRun(FIRST, RUN) && FreshDraw(After(FIRST, RUN), AHEAD)
    ensures !Covered(Happens(After(FIRST, RUN), AHEAD).service)
  {
    hide Reachable, Happens, FreshRun, After, Breaks, FreshDraw, Covered, Timed;
    RunIsFresh();
    FirstIsReachable();
    RunKeepsReachable(FIRST, RUN);
    RunUnfolds();
    RunIsCovered();
    AheadOutpaces();
    EventCovers(AFTER_APPROVING, AHEAD);
  }

  /** An approval from another device than the invitation's, on a healthy service. */
  lemma MismatchLeavesOrphan()
    ensures FreshRun(FIRST, RUN[..3]) && FreshDraw(After(FIRST, RUN[..3]), ESTRANGED)
    ensures !Covered(Happens(After(FIRST, RUN[..3]), ESTRANGED).service)
  {
    hide Reachable, Happens, FreshRun, After, Breaks, FreshDraw, Covered, Timed;
    RunIsFresh();
    FreshSuffix(FIRST, RUN, 3);
    FirstIsReachable();
    RunKeepsReachable(FIRST, RUN[..3]);
    RunUnfolds();
    RunIsCovered();
    EstrangedMismatches();
    EventCovers(AFTER_JOINING, ESTRANGED);
  }
}
