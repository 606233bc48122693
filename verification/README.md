# Companion service: verified models

The companion service shares a vehicle with friends under consent, pushes charging and
low-battery notifications, logs parking events and renders where a car has been. This project
models the parts of it that are protocols or algorithms and proves what they are for. Each part
has a specification on values (what every step does to the state), results about whole runs of
those steps, and, where the service rewrites objects under a mutex, a class whose methods carry
the steps out and are proved equal to them. What the steps themselves do is stated a second time,
by when they succeed, what they answer and what they change, in numbers and without the functions
that define them: those results carry `Exactly` in their names.

| part | files |
|---|---|
| consent service: invitations, requests, grants, saving, restart | `FriendService`, `FriendIntegrity`, `FriendConsent`, `FriendRuns`, `FriendHistory`, `FriendAnswers`, `FriendOrigins`, `FriendOrphans`, `FriendWitness`, `FriendServiceClass` |
| replay memory of the guest endpoint | `FriendReplay` |
| grant store and projection | `FriendTypes`, `FriendProjection`, `FriendStore`, `FriendStoreExact`, `FriendStoreClass` |
| navigation source and its agreement with the store | `NavigationSource`, `NavigationExact`, `NavigationSourceClass`, `NavigationComposition`, `NavigationRecovery`, `NavigationWitness` |
| charging episodes and their delivery | `ChargingMonitor`, `ChargingEpisodes`, `ChargingMonitorClass`, `ChargingDelivery`, `ChargingExact`, `ChargingWitness`, `PushOutbox`, `PushOutboxExact` |
| road coverage | `RoadSimplify`, `RoadCoverage`, `RoadSegments`, `RoadCoverageBuilder` |
| parking event log | `ParkingLog`, `ParkingLogExact`, `ParkingLogClass` |
| low-battery notifications | `LowBattery`, `LowBatteryExact`, `LowBatteryWitness`, `LowBatteryClass` |

Conventions. Times are integers, in the unit of the source (milliseconds, or nanoseconds for the
monitors); every clock reading is a parameter, so the clock may do anything unless a result says
otherwise. Identifiers are numbers; drawing a random one is a parameter, and the only assumption
on it, where one is needed, is that it has not been drawn before. Hashes, signatures and secrets
are compared as numbers. Floating-point values are reals, and haversine distance, distance from a
segment, rounding and the cell of a position are function-valued parameters. Reading the vehicle,
querying the database, posting to the relay and writing the file are parameters that say how they
turned out; a file may be replaced, left alone, or replaced although the attempt is reported as
failed. Maps that the source visits in arbitrary order are visited in an arbitrary order here.

Three claims that look natural are false of the code. For each there is a concrete run from the
start in which it fails and a result that says for all inputs when it does:

- every store grant has a view: `CleanupLeavesOrphan` and `MismatchLeavesOrphan` in
  `FriendWitness`; exactly when, `FriendOrphans.CoveredExactlyUnlessBroken`;
- navigation is never refused: `RemovalIsRefused` and `BlindReadIsRefused` in `NavigationWitness`;
  exactly which events can bring it about, `NavigationComposition.HarmlessRunsStayInStep`; exactly
  which routes are refused after them and until when, `NavigationRecovery.RefusedUntilCaughtUp`;
- an episode has at most one severe low-battery alert: `LowBatteryWitness.SevereTwice`; exactly
  when, `RebaselineForgetsSevere` and `RebaselineRepeatsSevere`.

## Model

| member | source | states |
|---|---|---|
| `FriendHistory.SnapshotNeverOutlivesConsent` | internal/friendtogether/http_service.go:753-793 | A snapshot that is delivered after an unlocked source read was preceded, at every moment of that read, by exactly the captured view, still active; its content lies within that view's permissions and its consent window. Stop, restriction and expiry always win |
| `FriendHistory.EverythingIsUsedOnce` | internal/friendtogether/http_service.go:815-875 | Over any run with failed saves and restarts, an invitation becomes at most one request and a request at most one grant |
| `FriendHistory.NothingIsEnteredAgain` | internal/friendtogether/http_service.go:89-103 | From any point of a run on, no used invitation is usable again, no decided or removed request pending again, no left approval approved again, no ended grant active again; a running grant's revision, expiry and permissions only move one way |
| `FriendHistory.RunsAreBoundedAndLoadable` | internal/friendtogether/http_service.go:904-984 | In every reachable state the layers agree, grants ≤ requests ≤ 64 and invitations ≤ 64, and both memory and file pass the checks of the next start |
| `FriendHistory.StopAlwaysReachesStore` | internal/friendtogether/http_service.go:588-602 | After any run, stopping a grant shown active revokes it in the store, whatever happens to the file |
| `FriendHistory.GrantsStayInsideInvitation` | internal/friendtogether/http_service.go:475-546 | Every grant keeps its own request and invitation, ends before the invitation's expiry plus the sharing duration and never exceeds the invited permissions |
| `FriendHistory.StepMoves` | internal/friendtogether/http_service.go:225-402 | One stretch under the mutex, whatever it is, keeps all invariants and never re-enters a state that was left |
| `FriendHistory.JoiningKeepsOnce` | internal/friendtogether/http_service.go:815-875 | The record of redeemed invitations stays without repetition through every event |
| `FriendHistory.GrantingKeepsOnce` | internal/friendtogether/http_service.go:475-546 | The record of approved requests stays without repetition through every event |
| `FriendHistory.RunKeepsReachable` | internal/friendtogether/http_service.go:65-109 | Invariants and one-way progress over any run from any reachable state |
| `FriendHistory.BeginningCaptures` | internal/friendtogether/http_service.go:753-764 | What a snapshot captures is the active view of the guest's own grant, its recipient and its source |
| `FriendHistory.FinishingDelivers` | internal/friendtogether/http_service.go:766-793 | A delivery happens only under the active view with the captured revision, inside its consent and window |
| `FriendWitness.SnapshotsHappen` | internal/friendtogether/http_service.go:475-793 | A concrete run from an empty start to a delivered snapshot: the results about snapshots are not empty |
| `FriendConsent.StopReachesStore` | internal/friendtogether/http_service.go:588-602 | In a sound state the store never refuses the revocation of a grant shown active, and afterwards record and store agree that it is revoked |
| `FriendConsent.CleaningKeepsAgreement` | internal/friendtogether/http_service.go:880-933 | Expiry and cleanup, with the store pruned by its own clock, never remove the store grant behind an active view |
| `FriendConsent.CreationMatches` | internal/friendtogether/http_service.go:511-538 | The view of a new grant equals the store's metadata, belongs to the request's recipient and stays inside the invitation |
| `FriendConsent.RestrictionMatches` | internal/friendtogether/http_service.go:554-587 | After a restriction view and store agree again, one revision later and no wider; a refused one changes nothing that matters |
| `FriendConsent.RevokingKeepsSound` | internal/friendtogether/http_service.go:588-602 | Revocation keeps integrity and agreement and touches nothing but its grant |
| `FriendConsent.EnteringKeepsSound` | internal/friendtogether/http_service.go:121-131 | The clock check and cleanup before every request keep integrity and agreement |
| `FriendConsent.SavingKeepsSound` | internal/friendtogether/http_service.go:987-1035 | Whether the file is replaced, left alone or torn, both memory and file stay sound |
| `FriendConsent.InvitingKeepsSound` | internal/friendtogether/http_service.go:403-474 | A new invitation keeps all invariants |
| `FriendConsent.RedeemingKeepsSound` | internal/friendtogether/http_service.go:815-875 | A redemption keeps all invariants |
| `FriendConsent.DecidingKeepsSound` | internal/friendtogether/http_service.go:475-546 | An approval or rejection keeps all invariants, including an approval that fails after the store has created the grant |
| `FriendConsent.RestrictingKeepsSound` | internal/friendtogether/http_service.go:554-587 | A restriction keeps all invariants |
| `FriendConsent.InvitationCancellingKeepsSound` | internal/friendtogether/http_service.go:290-326 | The owner's cancellation keeps all invariants also where it stops half way |
| `FriendConsent.GuestCancellingKeepsSound` | internal/friendtogether/http_service.go:694-717 | The guest's cancellation keeps all invariants |
| `FriendConsent.RestartingKeepsSound` | internal/friendtogether/http_service.go:65-109 | Whatever was on file is accepted and starts a sound service, or none |
| `FriendConsent.CancellationIsComplete` | internal/friendtogether/http_service.go:290-326 | A cancellation answered as done has left no pending request and no active grant of the invitation, and the invitation used up |
| `FriendConsent.CheckedInvitationIsMade` | internal/friendtogether/http_service.go:403-474 | An invitation that passed the check before the unlock, and finds no more records after it, is refused only by the source, by a failed draw or by a failed save; too many records are reported exactly when there are too many, and only records made in between can cause it |
| `FriendAnswers.RedeemingExactly` | internal/friendtogether/http_service.go:815-875 | A redemption is answered if and only if the identifiers are valid, the secret is that of an unused invitation in time, the device is the one expected if one is, the return invitation is in order, there are fewer than 64 requests, both draws succeed and it is saved; every refusal has its own failure and changes nothing |
| `FriendAnswers.InvitingExactly` | internal/friendtogether/http_service.go:437-474 | An invitation is made if and only if the form stands, there is room, the source owns the car, the draws succeed and it is saved; the invitation in full |
| `FriendAnswers.DecidingExactly` | internal/friendtogether/http_service.go:475-546 | What is declined and what is shared, exactly, and that nothing else changes a record |
| `FriendAnswers.GrantingExactly` | internal/friendtogether/http_service.go:499-546 | When an approval makes a grant, and the grant in full: recipient, terms, end and owner device |
| `FriendAnswers.RestrictingExactly` | internal/friendtogether/http_service.go:554-587 | A restriction is answered if and only if the grant is active, the store narrows it and it is saved; the view then |
| `FriendAnswers.StoppingExactly` | internal/friendtogether/http_service.go:588-602 | Stopping, exactly: nothing for a grant that is over, an unhealthy service if the store does not follow, else revoked in both |
| `FriendAnswers.OwnerStoppingExactly` | internal/friendtogether/http_service.go:374-385 | What the owner is answered |
| `FriendAnswers.RequestCancellingExactly` | internal/friendtogether/http_service.go:300-318 | One turn of a cancellation touches its own request and grant alone |
| `FriendAnswers.InvitationCancellingExactly` | internal/friendtogether/http_service.go:290-326 | A cancellation is answered as done if and only if every turn went well and it is saved |
| `FriendAnswers.GuestCancellingExactly` | internal/friendtogether/http_service.go:694-717 | A guest cancels its own request and no other, and its grant is over then |
| `FriendAnswers.LeavingExactly` | internal/friendtogether/http_service.go:741-752 | A guest leaves its own grant and no other |
| `FriendAnswers.BeginningExactly` | internal/friendtogether/http_service.go:753-764 | A snapshot begins if and only if the guest holds the active grant, the last read is a second ago and a slot is free; what is captured |
| `FriendAnswers.FinishingExactly` | internal/friendtogether/http_service.go:766-793 | A snapshot is delivered if and only if the captured view is current, the source has answered and the store hands the reading out |
| `FriendAnswers.EnteringExactly` | internal/friendtogether/http_service.go:121-131 | The service works on if and only if its clock is valid and has not gone back; else every request fails |
| `FriendAnswers.CleaningExactly` | internal/friendtogether/http_service.go:880-933 | What expires and what is reclaimed, record by record |
| `FriendAnswers.RestartingExactly` | internal/friendtogether/http_service.go:65-109 | What a restart takes over and what it ends, in full |
| `FriendAnswers.SavedExactly` | internal/friendtogether/http_service.go:987-1035 | Saving succeeds if and only if the clock stands and the file is replaced, and changes no record |
| `FriendAnswers.StoreFailureExactly` | internal/friendtogether/http_auth.go:371-387 | The store's errors as the handlers answer them |
| `FriendOrigins.EverythingHasItsEvent` | internal/friendtogether/http_service.go:815-875 | Over any run, every request in memory or on file was made by a redemption that showed the secret of its invitation, for the device and token it names, and every grant by an approval of its request |
| `FriendOrigins.EventStems` | internal/friendtogether/http_service.go:225-402 | One event changes the terms of no invitation, request or grant, and adds none but the one it asks for |
| `FriendOrphans.CoveredExactlyUnlessBroken` | internal/friendtogether/http_service.go:880-933 | In any run from the start, every store grant has a view at every moment if and only if no event breaks it: no cleanup whose cutoff lies ahead of the clock the store prunes by while a grant in the store ended before that cutoff, and no approval that the store accepts from a known device other than the invitation's |
| `FriendOrphans.EventCovers` | internal/friendtogether/http_service.go:225-402 | From a covered reachable state, an event leaves a store grant without a view if and only if its inputs and the state before it meet one of these two conditions |
| `FriendOrphans.EnteringCovers` | internal/friendtogether/http_service.go:880-933 | The cleanup before a request, exactly: it uncovers a grant if and only if it reclaims views further back than the store prunes |
| `FriendOrphans.DecidingCovers` | internal/friendtogether/http_service.go:511-538 | A decision, exactly: it uncovers a grant if and only if it is an approval in time, of a scope and end the store accepts while it has room, and two known owner devices differ |
| `FriendOrphans.AcceptedIsCreated` | internal/friendtogether/store.go:73-103 | The store creates the grant of an approval if and only if binding, source, permissions and end are valid at its own clock, the identifier is unused and there are fewer than 64 grants |
| `FriendOrphans.CarefulRunsAreCovered` | internal/friendtogether/http_service.go:925-933 | In particular coverage holds throughout when every store reading is at least its cutoff and no accepted approval names another device |
| `FriendWitness.CleanupLeavesOrphan` | internal/friendtogether/http_service.go:880-933 | A run from an empty start, an ordinary approval, then one cleanup ahead of the store's clock: a store grant without a view |
| `FriendWitness.MismatchLeavesOrphan` | internal/friendtogether/http_service.go:515-536 | A run from an empty start to an approval by another device: a store grant without a view |
| `FriendIntegrity.IntegrityBounds` | internal/friendtogether/http_service.go:843-866 | The links alone bound the grants by the requests |
| `FriendIntegrity.IntegrityIsLoadable` | internal/friendtogether/http_service.go:964-984 | Records with integrity pass every structural check of loading |
| `FriendIntegrity.ReclaimingKeepsIntegrity` | internal/friendtogether/http_service.go:904-933 | Cleanup never takes a request from under its grant or an invitation from under its request |
| `FriendIntegrity.LapsingKeepsIntegrity` | internal/friendtogether/http_service.go:892-903 | Expiry keeps every link and status rule |
| `FriendIntegrity.JoiningKeepsIntegrity` | internal/friendtogether/http_service.go:843-866 | One request per invitation, and the invitation used by it |
| `FriendIntegrity.GrantingKeepsIntegrity` | internal/friendtogether/http_service.go:511-546 | One grant per request, linked both ways |
| `FriendIntegrity.NarrowingKeepsIntegrity` | internal/friendtogether/http_service.go:554-602 | Restricting, stopping or ending grants keeps integrity |
| `FriendIntegrity.InvalidatingKeepsIntegrity` | internal/friendtogether/http_service.go:89-103 | A restart leaves nothing redeemable, pending, approved or active, and keeps integrity |
| `FriendRuns.CleaningProgresses` | internal/friendtogether/http_service.go:880-933 | Expiry and cleanup re-enter nothing |
| `FriendRuns.DecidingMoves` | internal/friendtogether/http_service.go:475-546 | A decision moves a pending request on and re-enters nothing |
| `FriendRuns.RestrictingKeeps` | internal/friendtogether/http_service.go:554-587 | A restriction only narrows the running view, with a new revision |
| `FriendRuns.InvitationCancellingKeeps` | internal/friendtogether/http_service.go:290-326 | The owner's cancellation re-enters nothing |
| `FriendRuns.RestartingKeeps` | internal/friendtogether/http_service.go:65-109 | A restart, even from an older file, re-enters nothing |
| `FriendServiceClass.HTTPService.constructor` | internal/friendtogether/http_service.go:65-109 | Equals its step of the specification on the whole state: a new process is what restarting from the file gives, with an empty replay memory |
| `FriendServiceClass.HTTPService.ClockHealthy` | internal/friendtogether/http_service.go:121-131 | Equals its step of the specification on the whole state: clock check |
| `FriendServiceClass.HTTPService.Save` | internal/friendtogether/http_service.go:987-1035 | Equals its step of the specification on the whole state: saving: memory, file, health and outcome |
| `FriendServiceClass.HTTPService.LapseRequests` | internal/friendtogether/http_service.go:892-897 | Equals its step of the specification on the whole state: the loop over requests |
| `FriendServiceClass.HTTPService.LapseGrants` | internal/friendtogether/http_service.go:898-903 | Equals its step of the specification on the whole state: the loop over grants |
| `FriendServiceClass.HTTPService.ReclaimGrants` | internal/friendtogether/http_service.go:904-910 | Equals its step of the specification on the whole state: the loop that reclaims grants |
| `FriendServiceClass.HTTPService.ReclaimRequests` | internal/friendtogether/http_service.go:911-916 | Equals its step of the specification on the whole state: the loop that reclaims requests |
| `FriendServiceClass.HTTPService.ReclaimInvitations` | internal/friendtogether/http_service.go:917-931 | Equals its step of the specification on the whole state: the nested loops that reclaim invitations |
| `FriendServiceClass.HTTPService.SweepExpired` | internal/friendtogether/http_service.go:880-891 | The loops that drop expired nonces and proofs keep exactly the unexpired |
| `FriendServiceClass.HTTPService.Expire` | internal/friendtogether/http_service.go:880-933 | Equals its step of the specification on the whole state: the whole of expiry and cleanup, replay memory included |
| `FriendServiceClass.HTTPService.Enter` | internal/friendtogether/http_service.go:225-270 | Equals its step of the specification on the whole state: how every request begins |
| `FriendServiceClass.HTTPService.CheckInvitation` | internal/friendtogether/http_service.go:403-426 | Answers, before the mutex is let go, whether the form is refused and why, exactly as the check that `FriendConsent.CheckedInvitationIsMade` starts from |
| `FriendServiceClass.HTTPService.MakeInvitation` | internal/friendtogether/http_service.go:437-474 | Equals its step of the specification on the whole state: the second half, with capacity tested again |
| `FriendServiceClass.HTTPService.Redeem` | internal/friendtogether/http_service.go:815-875 | Equals its step of the specification on the whole state: redemption with all its refusals |
| `FriendServiceClass.HTTPService.Decide` | internal/friendtogether/http_service.go:475-546 | Equals its step of the specification on the whole state: approval and rejection, idempotent where the source is |
| `FriendServiceClass.HTTPService.Approve` | internal/friendtogether/http_service.go:499-546 | Equals its step of the specification on the whole state: the approval proper, through the store |
| `FriendServiceClass.HTTPService.Restrict` | internal/friendtogether/http_service.go:554-587 | Equals its step of the specification on the whole state: restriction, through the store |
| `FriendServiceClass.HTTPService.Revoke` | internal/friendtogether/http_service.go:588-602 | Equals its step of the specification on the whole state: revocation, through the store |
| `FriendServiceClass.HTTPService.Stop` | internal/friendtogether/http_service.go:374-385 | Equals its step of the specification on the whole state: the owner's stop |
| `FriendServiceClass.HTTPService.CancelInvitation` | internal/friendtogether/http_service.go:290-326 | Equals its step of the specification on the whole state: the cancellation loop with its early return |
| `FriendServiceClass.HTTPService.CancelRequest` | internal/friendtogether/http_service.go:694-717 | Equals its step of the specification on the whole state: the guest's cancellation |
| `FriendServiceClass.HTTPService.Leave` | internal/friendtogether/http_service.go:741-752 | Equals its step of the specification on the whole state: the guest's leave |
| `FriendServiceClass.HTTPService.BeginSnapshot` | internal/friendtogether/http_service.go:753-764 | Equals its step of the specification on the whole state: up to the unlock |
| `FriendServiceClass.HTTPService.FinishSnapshot` | internal/friendtogether/http_service.go:766-793 | Equals its step of the specification on the whole state: from the relock on |
| `FriendServiceClass.HTTPService.UseAll` | internal/friendtogether/http_service.go:89-91 | Equals its step of the specification on the whole state: the restart's loop over invitations |
| `FriendServiceClass.HTTPService.ExpireAll` | internal/friendtogether/http_service.go:92-95 | Equals its step of the specification on the whole state: the restart's loop over requests |
| `FriendServiceClass.HTTPService.RevokeAll` | internal/friendtogether/http_service.go:96-101 | Equals its step of the specification on the whole state: the restart's loop over grants |
| `FriendServiceClass.HTTPService.Admit` | internal/friendtogether/http_service.go:630-638 | Equals its step of the replay runs: whether the request is let in and the whole memory |
| `FriendServiceClass.HTTPService.IssueNonce` | internal/friendtogether/http_service.go:640-657 | Nonce issue with both limits |
| `FriendServiceClass.HTTPService.AuthenticateGuest` | internal/friendtogether/http_auth.go:341-351 | Nonce and proof bookkeeping of an authentication |
| `FriendReplay.NonceAuthenticatesOnce` | internal/friendtogether/http_auth.go:341-351 | Each nonce authenticates at most one request, before its minute is over, whatever the clock does and however often the process restarts |
| `FriendReplay.MemoryIsBounded` | internal/friendtogether/http_service.go:640-657 | Live nonces ≤ 256 and nonces plus remembered proofs ≤ 1279 in every run, though limits are tested at issue only |
| `FriendReplay.WindowLimitsRequests` | internal/friendtogether/http_service.go:630-638 | Over any run, at most 64 requests are let in from the start of one window to the start of the next, also when the clock goes back; with a clock that does not, all of them lie within one second and windows are at least a second apart |
| `FriendReplay.AuthenticatingExactly` | internal/friendtogether/http_auth.go:341-351 | A proof is accepted if and only if all else about it is valid, its nonce is live and its identifier not remembered; what is remembered then |
| `FriendReplay.IssuingExactly` | internal/friendtogether/http_service.go:640-657 | A nonce is issued for a minute if and only if it was drawn and there is room |
| `FriendReplay.AdmittingExactly` | internal/friendtogether/http_service.go:630-638 | Which request begins a window and which is let in |
| `FriendReplay.SweepingExactly` | internal/friendtogether/http_service.go:880-891 | A sweep keeps exactly what has not expired |
| `FriendReplay.ProofsAreApart` | internal/friendtogether/http_auth.go:341-351 | Within one process and a clock that does not go back, one proof identifier is accepted at most once in two minutes |
| `FriendStore.SnapshotsAreOrdered` | internal/friendtogether/store.go:175-283 | Over any run of the store: consecutive sequence numbers, no regress of server time or of any category, equal navigation revisions show the same destination with no withdrawal between |
| `FriendStore.SnapshotIsAuthorised` | internal/friendtogether/store.go:175-224 | A snapshot is for the exact recipient, scope and revision, from a grant that is neither revoked nor expired, within consent |
| `FriendStore.RefusalMovesNothing` | internal/friendtogether/store.go:175-224 | A refused projection moves no counter and no watermark; at most it notes the expiry |
| `FriendStore.ConsentOnlyNarrows` | internal/friendtogether/store.go:136-170 | No operation widens a permission, prolongs a grant or revives it |
| `FriendStore.OwnerGrant` | internal/friendtogether/store.go:226-240 | Found if and only if identifiers are valid, the grant exists and binding, source and revision are exactly its own |
| `FriendStoreClass.GrantRecord.constructor` | internal/friendtogether/store.go:88-102 | in place, the record becomes what the specification says: a new grant |
| `FriendStoreClass.GrantRecord.CheckActive` | internal/friendtogether/store.go:242-254 | in place, the record becomes what the specification says: whether a grant may act, and the note of its expiry |
| `FriendStoreClass.GrantRecord.Revoke` | internal/friendtogether/store.go:109-131 | in place, the record becomes what the specification says: revocation of a record |
| `FriendStoreClass.GrantRecord.Restrict` | internal/friendtogether/store.go:136-170 | in place, the record becomes what the specification says: narrowing of a record |
| `FriendStoreClass.GrantRecord.CheckOrder` | internal/friendtogether/store.go:256-283 | The order check answers yes exactly when nothing is out of order |
| `FriendStoreClass.GrantRecord.Accept` | internal/friendtogether/store.go:195-223 | in place, the record becomes what the specification says: counters and watermarks of an accepted projection |
| `FriendStoreClass.GrantRecord.ProjectOnto` | internal/friendtogether/store.go:175-224 | in place, the record becomes what the specification says: projection onto a record |
| `FriendStoreClass.Store.Create` | internal/friendtogether/store.go:73-103 | The contents change as the specification says and no record is shared: creation |
| `FriendStoreClass.Store.Revoke` | internal/friendtogether/store.go:109-131 | The contents change as the specification says and no record is shared: revocation |
| `FriendStoreClass.Store.Restrict` | internal/friendtogether/store.go:136-170 | The contents change as the specification says and no record is shared: restriction |
| `FriendStoreClass.Store.Project` | internal/friendtogether/store.go:175-224 | The contents change as the specification says and no record is shared: projection |
| `FriendStoreClass.Store.PruneTerminalBefore` | internal/friendtogether/store.go:52-64 | The contents change as the specification says and no record is shared: the pruning loop |
| `FriendProjection.ProjectionWithinConsent` | internal/friendtogether/projection.go:5-97 | Nothing outside the permissions, nothing observed before consent or after server time, undated motion withheld, at most 500 strictly ordered points |
| `FriendProjection.DeniedDataHasNoInfluence` | internal/friendtogether/projection.go:5-97 | Data that is not permitted changes neither the result nor the errors |
| `FriendProjection.EligibleIsGoodTrack` | internal/friendtogether/projection.go:66-96 | The accepted points are in the window and strictly increasing |
| `FriendProjection.FilterTrajectory` | internal/friendtogether/projection.go:66-96 | The loop over points computes exactly the filtered and bounded track, or its first error |
| `FriendProjection.Project` | internal/friendtogether/projection.go:5-97 | The category-by-category projection equals its specification |
| `FriendProjection.ProjectionIsExact` | internal/friendtogether/projection.go:5-97 | A reading is shown if and only if everything in it that is permitted is acceptable, in numbers; then state and motion, route, battery and the latest 500 points are shown exactly as far as they were observed since consent |
| `FriendProjection.FirstFaultExactly` | internal/friendtogether/projection.go:72-86 | The first point at fault decides the error: its order if there is nothing else against it |
| `FriendStoreExact.CreatedExactly` | internal/friendtogether/store.go:73-103 | A grant is created if and only if owner, scope, end and alias stand, the identifier is unused and there are fewer than 64; each refusal has its own error; the new grant in full |
| `FriendStoreExact.RevokedExactly` | internal/friendtogether/store.go:109-131 | A revocation succeeds if and only if the owner names the grant as it stands, and what it changes |
| `FriendStoreExact.RestrictedExactly` | internal/friendtogether/store.go:136-170 | A restriction succeeds if and only if the owner names a living grant and narrows it; its errors and what it changes |
| `FriendStoreExact.ProjectsExactly` | internal/friendtogether/store.go:184-223 | A grant projects if and only if it is alive, has numbers left, and the reading is acceptable and in sequence, where times may stand still; the snapshot then shows all of it, and every mark moves |
| `FriendStoreExact.ProjectedExactly` | internal/friendtogether/store.go:175-190 | A snapshot is handed out only to the grant's recipient, for the grant as it stands and from its own source; the errors otherwise |
| `FriendStoreExact.OrderExactly` | internal/friendtogether/store.go:256-283 | The order check refuses exactly a reading that lies behind what the grant was shown |
| `FriendStoreExact.ActiveExactly` | internal/friendtogether/store.go:242-254 | What keeps a grant from acting, and the note of its expiry |
| `FriendStoreExact.PrunedExactly` | internal/friendtogether/store.go:52-64 | Pruning takes exactly the grants that ended by a cutoff which the clock has reached |
| `NavigationComposition.HarmlessRunsStayInStep` | friend_together.go:479-518 | Over any run, the store's watermarks stay at or behind the source at every moment if and only if no event is harmful: no read misses the car while the route the grant was shown is held, and the car does not leave the fleet once the grant has been shown a route or while a read holds one |
| `NavigationComposition.HarmlessNavigationIsNeverRefused` | internal/friendtogether/store.go:256-283 | From a new grant, over any run of harmless events, the order check never refuses the source's navigation |
| `NavigationComposition.DropKeepsStep` | mqtt_monitor_lifecycle.go:89-97 | A removal, exactly: it breaks step if and only if navigation is permitted and the grant has been shown a route or a read holds one |
| `NavigationComposition.BlindKeepsStep` | friend_together.go:163-170 | A read that misses the car, exactly: it breaks step if and only if navigation is permitted and the route held is no newer than the last one shown |
| `NavigationComposition.SteadyNavigationIsNeverRefused` | friend_together.go:479-518 | In particular, with sequential reads that find the car, and the car staying in the fleet, no run of reconnects, withdrawals, reroutes and narrowings makes the order check refuse the source's navigation |
| `NavigationComposition.RemovalRestartsNumbering` | mqtt_monitor_lifecycle.go:89-97 | When the car leaves the fleet its numbering restarts: whatever route comes next is refused if and only if the grant has been shown one before, except for the very route shown last if that was the first shown and has not been withdrawn |
| `NavigationComposition.BlindReadBreaksStep` | friend_together.go:163-170 | After a read that misses the car, the next read is refused if and only if the source still holds the route the grant was shown |
| `NavigationWitness.RemovalIsRefused` | mqtt_monitor_lifecycle.go:89-97 | A run from a new grant: a route is shown, the car leaves the fleet, its next route is refused |
| `NavigationWitness.BlindReadIsRefused` | friend_together.go:163-170 | A run from a new grant: a route is shown, a read misses the car, the next read of the same route is refused |
| `NavigationExact.RoutedExactly` | friend_together.go:509-518 | A route is shown with its own place, kilometres for miles, minutes and time, under a new number unless its destination continues |
| `NavigationExact.ObservingExactly` | friend_together.go:483-518 | Which message counts, that a route is then shown and anything else withdraws what was, and that other cars are not touched |
| `NavigationExact.BeginningExactly` | friend_together.go:343-351 | A connection begins a generation and withdraws every route, unless the source is stopped |
| `NavigationExact.EndingExactly` | friend_together.go:391-396 | A lost connection takes no more messages, ends generation and epoch, and withdraws every route |
| `NavigationExact.FinishingExactly` | friend_together.go:368-383 | A subscription connects or ends the connection exactly in its own generation and epoch |
| `NavigationExact.ReconcilingExactly` | mqtt_monitor_lifecycle.go:89-97 | Exactly the cars of the fleet stay, as they are |
| `NavigationRecovery.RefusedUntilCaughtUp` | internal/friendtogether/store.go:256-283 | Once a grant has fallen behind, over any further run of harmless events: a route is refused if and only if it was observed before the last one shown, or its number is lower, or equal while that route was withdrawn or led elsewhere; as soon as the numbering has passed the last revision shown, or the grant is shown a higher one, the two are in step again |
| `NavigationRecovery.AnyEventRecovers` | friend_together.go:343-404 | Every event that breaks step, but a removal under a read that holds a route, leaves the grant exactly so far behind |
| `NavigationRecovery.RemovalDuringReadRecovers` | mqtt_monitor_lifecycle.go:89-97 | And so does a removal under such a read, once the read has ended |
| `NavigationRecovery.RemovalDuringReadRestartsNumbering` | mqtt_monitor_lifecycle.go:89-97 | A removal under a read: the first route after it is refused if and only if the grant has been shown one by then, by the rule of `RemovalRestartsNumbering` |
| `NavigationRecovery.HarmlessKeepsRecovering` | friend_together.go:479-518 | No harmless event takes a grant that has fallen behind any further behind |
| `NavigationComposition.EventKeepsStep` | friend_together.go:343-404 | An event keeps the store's watermarks at or behind the source if and only if it is harmless |
| `NavigationComposition.EndKeepsStep` | internal/friendtogether/store.go:256-283 | A projection, successful or not, keeps the watermarks at or behind the source |
| `NavigationSource.LostGenerationStaysLost` | friend_together.go:343-404 | Once a connection is lost, ended or replaced, its handlers' messages are never observed again |
| `NavigationSource.LateSubscriptionIsInert` | mqtt_source.go:178-206 | A subscription result requested in an earlier epoch never changes the source |
| `NavigationSource.StaleHandlersAreInert` | friend_together.go:479-491 | A handler of an older generation changes nothing |
| `NavigationSourceClass.FriendNavigationSource.ClearNavigation` | friend_together.go:398-404 | The whole state becomes what the specification says: the clearing loop |
| `NavigationSourceClass.FriendNavigationSource.RecordConnection` | mqtt_source.go:178-193 | The whole state becomes what the specification says: connection bookkeeping |
| `NavigationSourceClass.FriendNavigationSource.BeginConnection` | friend_together.go:343-351 | The whole state becomes what the specification says: a new generation |
| `NavigationSourceClass.FriendNavigationSource.OnConnect` | friend_together.go:235-258 | The whole state becomes what the specification says: a broker connect opens generation and epoch |
| `NavigationSourceClass.FriendNavigationSource.FinishSubscription` | friend_together.go:368-383 | The whole state becomes what the specification says: the subscription result |
| `NavigationSourceClass.FriendNavigationSource.InvalidateConnection` | friend_together.go:391-396 | The whole state becomes what the specification says: a lost connection |
| `NavigationSourceClass.FriendNavigationSource.Start` | friend_together.go:223-226 | The whole state becomes what the specification says: starting |
| `NavigationSourceClass.FriendNavigationSource.Stop` | friend_together.go:424-437 | The whole state becomes what the specification says: stopping |
| `NavigationSourceClass.FriendNavigationSource.ObserveNavigation` | friend_together.go:479-518 | The whole state becomes what the specification says: an active-route message and its numbering |
| `NavigationSourceClass.FriendNavigationSource.ReconcileFleet` | mqtt_monitor_lifecycle.go:89-97 | The whole state becomes what the specification says: the fleet loop |
| `NavigationSourceClass.FriendNavigationSource.ReadNavigation` | friend_together.go:163-170 | What a read reports |
| `ChargingDelivery.EndIsNeverOvertaken` | push_subscribers.go:1110-1167 | In every interleaving of monitors, worker, outbox and others, whatever state is reached: at most one POST is in flight, no start or update was begun after the end of its episode, and none that is in flight comes after that end |
| `ChargingDelivery.RunsAreOrderly` | charging_notification.go:850-863 | One holder of the gate at a time, over any run |
| `ChargingWitness.EndIsPosted` | push_subscribers.go:1110-1167 | A run from rest in which an episode starts, ends while its start is being posted, and has its end posted next |
| `ChargingWitness.LateStartIsRefused` | push_subscribers.go:273-307 | The same run going on: a start taken up again waits for the end's POST and is then refused |
| `ChargingDelivery.CurrentHasNoEnd` | push_subscribers.go:273-307 | What passes the eligibility check belongs to an episode whose end has not been created, let alone posted |
| `ChargingDelivery.MonitorKeepsOrder` | charging_notification.go:526-629 | Whatever a monitor does while a POST is under way, the order of posts is kept |
| `ChargingEpisodes.EpisodesAreDisciplined` | charging_notification.go:526-690 | Over any run: numbers rise strictly within an episode, every update has a strictly later sample than the event before it, every episode that stops has exactly one end and nothing after it |
| `ChargingEpisodes.TerminalTakesPrecedence` | charging_observation.go:261-328 | Once the bound process is known to have ended, nothing late or stale creates a start or update from it until the car leaves the fleet or another bound process has ended |
| `ChargingEpisodes.BoundEndIsKnown` | charging_observation.go:296-317 | Seeing the bound process end closes its episode with one event and makes the end known |
| `ChargingEpisodes.RestartNeedsLaterEvidence` | charging_observation.go:378-410 | After an MQTT end, the same process starts again only on a sample and both live receipts strictly later; until then nothing is created |
| `ChargingEpisodes.StepTransition` | charging_notification.go:439-690 | Every step either says nothing, opens, continues or closes the episode, with the right event |
| `ChargingEpisodes.StepRespects` | charging_observation.go:378-410 | No step creates a start or update from the process known to have ended, and only an ended bound snapshot or removal changes which that is |
| `ChargingExact.SchedulingExactly` | charging_notification.go:631-657 | For a publishable, ready car whose start is delivered and whose sample is new, exactly one update is queued if nothing was queued before or 45 seconds, 15 when charging fast, have passed since, and else a timer is left; without such evidence nothing happens |
| `ChargingExact.FlushingExactly` | charging_notification.go:659-672 | A timer that fires under the same evidence queues exactly one update, due or not |
| `ChargingExact.ReconcilingExactly` | charging_notification.go:526-629 | The common rules in full: when a start, an end, a retried start after 45 seconds or an update follows, and that nothing does otherwise |
| `ChargingExact.BeginningExactly` | charging_notification.go:536-583 | A new episode is bound to the observed process under a new identifier, with its first event |
| `ChargingExact.MadeExactly` | charging_notification.go:674-693 | An event carries the next number and the sample it shows, an end the time it is noticed; the car remembers both |
| `ChargingExact.PublishableExactly` | charging_observation.go:378-411 | What may be shown, in numbers: a process sampled in the last three minutes and checked in the last one, the one bound, not known to have ended, or evidenced again |
| `ChargingExact.ReadyExactly` | charging_notification.go:777-782 | All four baselines received, the primary states not in contradiction, the companion alive |
| `ChargingExact.MessagingExactly` | charging_notification.go:439-521 | A receipt is counted topic by topic, and the common rules follow if the car is ready or, live, if it tells the end of a running episode |
| `ChargingExact.SettlingExactly` | charging_observation.go:272-289 | A known end is not undone by a later open snapshot, and keeps its first confirmation |
| `ChargingExact.SnappingExactly` | charging_observation.go:261-328 | Only a later snapshot replaces the one that holds; the end of the bound process ends the episode at the time the database gives; one seen now lets the common rules follow |
| `ChargingExact.AcknowledgingExactly` | charging_notification.go:913-922 | A delivered start counts for its own episode, and an update may follow at once |
| `ChargingExact.ReplayingExactly` | charging_notification.go:807-839 | A start is replayed exactly for a running episode that may be shown |
| `ChargingExact.RemovingExactly` | charging_notification.go:321-343 | A car that leaves takes leave of a running episode with one end |
| `ChargingExact.CurrentExactly` | push_subscribers.go:273-307 | When a start or update may still be shown, in full |
| `ChargingExact.CheckingExactly` | push_subscribers.go:273-307 | What passes a check: its subscriber allows it, and it is an end or may still be shown |
| `ChargingExact.AgentsExactly` | push_subscribers.go:1110-1167 | How an agent may go: through the gate and two checks to the POST, and out of it by no other way |
| `ChargingMonitorClass.ChargingNotificationMonitor.MakeEvent` | charging_notification.go:674-693 | Equals its specification: numbering and stamping an event |
| `ChargingMonitorClass.ChargingNotificationMonitor.ScheduleUpdate` | charging_notification.go:631-657 | This car's state and the queue become what the specification says and no other car changes: an update at once or a timer |
| `ChargingMonitorClass.ChargingNotificationMonitor.BeginEpisode` | charging_notification.go:536-583 | This car's state and the queue become what the specification says and no other car changes: the start |
| `ChargingMonitorClass.ChargingNotificationMonitor.EndEpisode` | charging_notification.go:586-604 | This car's state and the queue become what the specification says and no other car changes: the end by MQTT |
| `ChargingMonitorClass.ChargingNotificationMonitor.RetryStart` | charging_notification.go:610-624 | This car's state and the queue become what the specification says and no other car changes: the start tried again |
| `ChargingMonitorClass.ChargingNotificationMonitor.ReconcileChargingActivity` | charging_notification.go:526-629 | This car's state and the queue become what the specification says and no other car changes: the common start, end and update rules |
| `ChargingMonitorClass.ChargingNotificationMonitor.Note` | charging_notification.go:449-506 | This car's state and the queue become what the specification says and no other car changes: what a receipt changes |
| `ChargingMonitorClass.ChargingNotificationMonitor.ObserveMessage` | charging_notification.go:439-521 | This car's state and the queue become what the specification says and no other car changes: a message |
| `ChargingMonitorClass.ChargingNotificationMonitor.ResetMQTTBaseline` | charging_notification.go:430-437 | Equals its specification: a lost connection |
| `ChargingMonitorClass.ChargingNotificationMonitor.Settle` | charging_observation.go:272-289 | Equals its specification: which snapshot holds |
| `ChargingMonitorClass.ChargingNotificationMonitor.ApplyDatabaseSnapshot` | charging_observation.go:261-328 | This car's state and the queue become what the specification says and no other car changes: a database snapshot |
| `ChargingMonitorClass.ChargingNotificationMonitor.EndBoundProcess` | charging_observation.go:296-317 | This car's state and the queue become what the specification says and no other car changes: the end of the bound process |
| `ChargingMonitorClass.ChargingNotificationMonitor.FlushUpdate` | charging_notification.go:659-672 | This car's state and the queue become what the specification says and no other car changes: a timer |
| `ChargingMonitorClass.ChargingNotificationMonitor.AcknowledgeStart` | charging_notification.go:913-922 | This car's state and the queue become what the specification says and no other car changes: a delivered start |
| `ChargingMonitorClass.ChargingNotificationMonitor.ReplayActiveStart` | charging_notification.go:807-839 | This car's state and the queue become what the specification says and no other car changes: the start replayed for one car |
| `ChargingMonitorClass.ChargingNotificationMonitor.RemoveCar` | charging_notification.go:321-343 | This car's state and the queue become what the specification says and no other car changes: a car leaving the fleet |
| `ChargingMonitorClass.ChargingNotificationMonitor.RemoveOutside` | charging_notification.go:322-341 | This car's state and the queue become what the specification says and no other car changes: the loop over cars with a state |
| `ChargingMonitorClass.ChargingNotificationMonitor.ForgetObservations` | charging_notification.go:317-321 | Observations of cars outside the fleet go, with or without a state, and nothing else changes |
| `ChargingMonitorClass.ChargingNotificationMonitor.ReconcileFleet` | charging_notification.go:314-347 | Every car outside the fleet loses state and observation and every car inside keeps its own; the queue grows by exactly one end for each episode that was running outside, in the order in which the cars went |
| `PushOutbox.OutboxIsExact` | push_subscribers.go:1401-1457 | In every run, with queueing, forgetting and restarts between the turns of a retry pass: no event is queued twice for an installation, at most 256 are queued, and leaving aside events queued since the pass began, the outbox is exactly the copy taken at the start, in its order, with each item dropped, kept or put off as its own turn or a forgotten installation demands |
| `PushOutbox.DonePassSettles` | push_subscribers.go:1401-1457 | When a pass is done, every item that was not queued since it began is a copied one that had not expired, either untouched because it was not due, or attempted with a retryable outcome, counted once more and put off by more than three seconds and at most a quarter of an hour |
| `PushOutbox.StepKeepsExact` | push_subscribers.go:1403-1456 | Each turn, queueing or forgetting by itself keeps that account exact |
| `PushOutbox.QuietPassIsExact` | push_subscribers.go:1401-1457 | A pass that nothing interrupts gives every item of the outbox its turn, with the outcome of its own attempt |
| `PushOutbox.StepKeepsExpiry` | push_subscribers.go:1324-1342 | Neither queueing again nor any turn, forgetting or restart prolongs the life of a queued event |
| `PushOutbox.StepThins` | push_subscribers.go:1490-1550 | No turn, forgetting or restart adds or doubles anything |
| `PushOutbox.QuietRunsThin` | push_subscribers.go:1401-1457 | As long as nothing is queued, any number of passes, forgettings and restarts adds nothing, doubles nothing and prolongs nothing |
| `PushOutbox.BackoffIsBounded` | push_subscribers.go:1490-1510 | Every delay is between four seconds and a quarter of an hour |
| `PushOutboxExact.DonePassExactly` | push_subscribers.go:1401-1457 | When a pass is done, an item of the copy that was not queued again is in the outbox if and only if it had not expired, its installation was kept, and it was either not due or attempted with an outcome that lets it be tried again; then it is as it was, or counted once more and put off by the stated delay. So accepted, refused, ineligible, expired and unsubscribed items and all of a gone installation are away, and nothing else is lost |
| `PushOutboxExact.TurnExactly` | push_subscribers.go:1413-1455 | One turn, by the members of the outbox: not due stays, done with goes, a gone installation loses all its items, retryable is put off, and every other item stays as it is |
| `PushOutboxExact.QuietPassKeeps` | push_subscribers.go:1439-1443 | An installation is taken for gone exactly when one of its items was attempted and answered so |
| `PushOutboxExact.BackoffExactly` | push_subscribers.go:1497-1506 | The delays in numbers: 4 to 512 seconds, doubling, or what the relay asks for up to 900 |
| `PushOutboxExact.EnqueuingExactly` | push_subscribers.go:1313-1359 | An event queued again keeps its place, attempts and expiry and waits no shorter; a new one goes last with the life of its kind, if fewer than 256 are queued |
| `PushOutboxExact.ForgettingExactly` | push_subscribers.go:1537-1565 | Forgetting takes exactly the items of installations that are not kept |
| `PushOutboxExact.RestartingExactly` | push_subscribers.go:520-529 | A restart takes exactly the expired items and those of unknown installations |
| `PushOutbox.PushSubscriberRegistry.Enqueue` | push_subscribers.go:1313-1359 | Equals its specification: the first match is updated, or the event appended, or the outbox full |
| `PushOutbox.PushSubscriberRegistry.RetryDue` | push_subscribers.go:1401-1457 | Equals one turn for each item of the copy it takes at the start, in order, with the subscriptions of that moment |
| `PushOutbox.PushSubscriberRegistry.RetryOne` | push_subscribers.go:1413-1455 | Equals the turn of one item |
| `PushOutbox.PushSubscriberRegistry.RemoveOutboxItem` | push_subscribers.go:1512-1523 | Equals dropping that identifier |
| `RoadSimplify.SimplifiedIsSubsequence` | road_coverage.go:239-268 | The result is the input at strictly increasing positions, first and last included |
| `RoadSimplify.SimplifiedWithinEpsilon` | road_coverage.go:239-268 | Every dropped point is within epsilon of the segment joining the kept points on either side |
| `RoadSimplify.FarthestIsFarthest` | road_coverage.go:251-258 | The chosen point is the farthest one beyond epsilon, the earliest of equals |
| `RoadSimplify.MarkKept` | road_coverage.go:239-268 | The stack loop terminates and marks exactly what the recursive algorithm keeps |
| `RoadSimplify.ScanInterval` | road_coverage.go:251-258 | The scan finds exactly the farthest point |
| `RoadSimplify.SimplifyRoadPoints` | road_coverage.go:239-268 | The result is exactly the recursive simplification |
| `RoadCoverage.FullTrailFollowsSegment` | road_coverage.go:128-214 | Chunks simplified separately and joined without duplicates still leave every sample within epsilon of an edge between consecutive trail points, in the order of the samples |
| `RoadCoverage.BudgetIsConserved` | road_coverage.go:171-214 | Points used are the points of the emitted trails, never above the budget; each trail has two or more points and is a prefix of its full trail, whole unless truncated |
| `RoadCoverage.TrailsHaveOneDrive` | road_coverage.go:134-139 | All points of an emitted trail belong to one drive |
| `RoadCoverage.SegmentsNeverBridge` | road_coverage.go:128-169 | No segment bridges a jump or a change of drive, or repeats a position |
| `RoadCoverage.ChangesCountDistinct` | road_coverage.go:140-145 | Remembering one drive counts at least the distinct drives, and exactly them if and only if no drive comes back after another |
| `RoadCoverage.VisitsAreDistinctDrives` | road_coverage.go:140-145 | For contiguous drives, a cell's visits are its distinct drives |
| `RoadCoverage.EmittedHeatIsPositive` | road_coverage.go:216-224 | Every emitted point lies in a cell with at least one visit |
| `RoadCoverage.Append` | road_coverage.go:180-191 | Joining drops exactly a point equal to the one before it |
| `RoadCoverage.Clip` | road_coverage.go:187-193 | The longest prefix that the budget admits |
| `RoadCoverageBuilder.RoadCoverageBuilder.DrawPoint` | road_coverage.go:180-193 | One simplified point: dropped, omitted or drawn |
| `RoadCoverageBuilder.RoadCoverageBuilder.FlushChunk` | road_coverage.go:171-195 | The pending chunk goes onto the open trail as far as the budget goes |
| `RoadCoverageBuilder.RoadCoverageBuilder.EmitTrail` | road_coverage.go:199-213 | A trail of two points is emitted, a single point is given back to the budget |
| `RoadCoverageBuilder.RoadCoverageBuilder.FinishSegment` | road_coverage.go:197-214 | The open segment is settled in the ledger |
| `RoadCoverageBuilder.RoadCoverageBuilder.Extend` | road_coverage.go:158-168 | A sample joins the segment and a full or long chunk is flushed |
| `RoadCoverageBuilder.RoadCoverageBuilder.CountVisit` | road_coverage.go:140-145 | The two maps keep counting the changes of drive of every cell |
| `RoadCoverageBuilder.RoadCoverageBuilder.Draw` | road_coverage.go:149-168 | Gap, jump, duplicate or extension |
| `RoadCoverageBuilder.RoadCoverageBuilder.Skip` | road_coverage.go:128-133 | An unusable position closes the segment |
| `RoadCoverageBuilder.RoadCoverageBuilder.StartDrive` | road_coverage.go:134-139 | A new drive closes the segment |
| `RoadCoverageBuilder.RoadCoverageBuilder.Add` | road_coverage.go:128-169 | After every sample the builder stands for the whole input so far |
| `RoadCoverageBuilder.RoadCoverageBuilder.Finish` | road_coverage.go:216-235 | The trails emitted are those of the settled input, each point heated by its cell's visits |
| `RoadCoverageBuilder.BuildRoadCoverage` | road_coverage.go:291-299 | What a caller gets for a whole input, in terms of the input alone |
| `RoadCoverage.EpsilonExactly` | road_coverage.go:175-178 | The tolerance is a sixth of the spacing, at most ten metres |
| `RoadCoverage.ChunksAreFull` | road_coverage.go:158-168 | A chunk is flushed when it holds 4096 points or has travelled a kilometre and not before, and begins where the one before it ended |
| `RoadCoverage.SettlesExactly` | road_coverage.go:171-214 | A segment gets its whole trail if the budget allows, else as many points as are left, counted as omitted, and a single point is no trail |
| `RoadSegments.SegmentsExactly` | road_coverage.go:128-169 | Over any input: the points of the segments are samples, in order and none twice; from each to the next the car moves within one drive and five kilometres, with no unusable sample between and no pause over two minutes or step back in time, also while it stays; every usable sample is in a segment or within a quarter of a metre of where the car stayed; one that goes on within reach stays in its segment; and a segment begins only where nothing goes on or with a jump |
| `RoadSegments.NoPauseIsBridged` | road_coverage.go:149-156 | Between two points of a segment, no two samples are more than 120 seconds apart or in reverse order where both instants are known, duplicates included |
| `RoadSegments.CountingDrawsNothing` | road_coverage.go:146-149 | Where only visits are counted, no segment has a point |
| `ParkingLog.EventsAreTransitions` | parking_event_monitor.go:318-411 | A message makes an event if and only if it is live and known, differs from an earlier known message of the same car and field in the same uninterrupted baseline with none between, and the pair has a type |
| `ParkingLog.PruningKeepsLast` | parking_event_monitor.go:647-663 | With retention off, pruning after every event keeps exactly the last so many of all there ever were |
| `ParkingLog.RestartContinuesLog` | parking_event_monitor.go:665-683 | With retention off, restarting from the stored events keeps exactly the last so many of all events before and after the restart |
| `ParkingLogClass.ParkingEventMonitor.constructor` | parking_event_monitor.go:665-683 | Stored events are pruned and taken over, and stored values are no first values: a message makes an event only against one of this process |
| `ParkingLogClass.ParkingEventMonitor.ObserveMessage` | parking_event_monitor.go:318-411 | The stored events change exactly by the event the history defines, pruned; with retention off they are the last so many of what was loaded and the whole history; at most 256 cars stay current |
| `ParkingLogClass.ParkingEventMonitor.BoundCurrentCars` | parking_event_monitor.go:434-459 | There is room afterwards; only as many cars go as needed, always those heard from least recently; nothing goes when there is room |
| `ParkingLogClass.ParkingEventMonitor.FindOldest` | parking_event_monitor.go:443-449 | The car heard from least recently, the smaller number among equals |
| `ParkingLogClass.ParkingEventMonitor.Prune` | parking_event_monitor.go:647-663 | The in-place filter and cut equal their specification |
| `ParkingLogClass.ParkingEventMonitor.Cache` | parking_event_monitor.go:368-372 | After a message the caches say exactly what the history's uninterrupted baseline says |
| `ParkingLogClass.ParkingEventMonitor.CachedEvent` | parking_event_monitor.go:364-391 | What the caches decide is what the history defines |
| `ParkingLogClass.ParkingEventMonitor.ResetMQTTBaseline` | parking_event_monitor.go:308-316 | A lost connection ends the baseline and keeps the log |
| `ParkingLogClass.ParkingEventMonitor.ReconcileFleet` | parking_event_monitor.go:245-262 | Cars outside the fleet are forgotten, their events are not |
| `ParkingLogClass.ParkingEventMonitor.ObserveReading` | parking_event_monitor.go:341-362 | A battery or range reading holds a place and makes no event |
| `ParkingLogExact.EventExactly` | parking_event_monitor.go:364-391 | Two messages make an event if and only if the second is live, both values are known and differ, and the change is one of those listed: a flag on or off, the roof open or closed, charging started, completed, without power, or stopped while charging |
| `ParkingLogExact.RetentionExactly` | parking_event_monitor.go:647-660 | Retention keeps exactly the events not older than the horizon |
| `ParkingLogExact.LimitExactly` | parking_event_monitor.go:647-651 | Fifty thousand events unless another limit is set |
| `ParkingLogExact.LastExactly` | parking_event_monitor.go:660-662 | Too many events lose their oldest, and keep their order |
| `ParkingLogExact.PrunedExactly` | parking_event_monitor.go:647-663 | Pruning keeps no event that is too old, none too many, and every other while there is room |
| `LowBattery.RunsAreHysteretic` | low_battery_notification.go:254-390 | Between two entry alerts some evaluation saw at least 25 percent or the car was removed, an episode has one entry alert, and between two severe alerts of an episode lies a rebaseline that found the car eligible at ten to nineteen percent, in every run |
| `LowBattery.EvaluatingKeepsHysteresis` | low_battery_notification.go:311-390 | An evaluation keeps all of this |
| `LowBattery.RebaselineForgetsSevere` | low_battery_notification.go:319-345 | Any rebaseline of a severe episode forgets inside the same episode that the severe alert was given if and only if it finds the car eligible and not below ten percent |
| `LowBattery.RebaselineRepeatsSevere` | low_battery_notification.go:319-345 | After any rebaseline of a severe episode, the next evaluation that finds the car severely low alerts again if and only if that rebaseline found it eligible and not below ten percent |
| `LowBatteryWitness.SevereTwice` | low_battery_notification.go:311-390 | A run from the start in which one episode alerts severely twice, across a reconnect |
| `LowBattery.OneReminderPerSnooze` | low_battery_notification.go:499-536 | An installation is reminded at most once for each snooze it asks for |
| `LowBatteryExact.EvaluatingExactly` | low_battery_notification.go:311-390 | Which evaluation alerts: the entry alert for a low car without one standing, the severe alert below ten percent once an episode, a baseline instead of an alert when none is running, and nothing else |
| `LowBatteryExact.QuietlyExactly` | low_battery_notification.go:311-390 | Without an alert: at twenty-five percent the episode is over, charging cancels its snoozes, and nothing else changes |
| `LowBatteryExact.RebasingExactly` | low_battery_notification.go:319-345 | The first complete evaluation of a baseline begins an episode silently if the car is low and has none, and leaves any other as it is |
| `LowBatteryExact.MessagingExactly` | low_battery_notification.go:254-309 | What each message changes, and that a retained or an invalid one ends the baseline |
| `LowBatteryExact.ActingExactly` | low_battery_notification.go:472-482 | An action counts for the running episode alone, and a snooze lasts four hours |
| `LowBatteryExact.RemindingExactly` | low_battery_notification.go:507-530 | An installation is reminded if and only if its turn comes, its snooze is over, and the car is still low in a standing episode; every snooze that was over is completed |
| `LowBatteryExact.RemindsExactly` | low_battery_notification.go:507-530 | Reminders go out for a car of the fleet with a running, complete baseline and for no other |
| `LowBatteryExact.ResettingExactly` | low_battery_notification.go:241-252 | A lost connection forgets everything read and nothing of the episode |
| `LowBatteryExact.RemindsOnce` | low_battery_notification.go:507-530 | One round reminds no installation twice |
| `LowBatteryClass.LowBatteryNotificationMonitor.ObserveMessage` | low_battery_notification.go:254-309 | Equals its specification, other cars untouched: a message, and whether an evaluation is due |
| `LowBatteryClass.LowBatteryNotificationMonitor.SetBaseline` | low_battery_notification.go:319-345 | Equals its specification: the silent evaluation |
| `LowBatteryClass.LowBatteryNotificationMonitor.Evaluate` | low_battery_notification.go:311-390 | Equals its specification, other cars untouched: an evaluation and its alerts |
| `LowBatteryClass.LowBatteryNotificationMonitor.Unsnooze` | low_battery_notification.go:353-360 | Equals its specification: the loops over snoozes |
| `LowBatteryClass.LowBatteryNotificationMonitor.ApplyAction` | low_battery_notification.go:472-482 | Equals its specification, other cars untouched: an action |
| `LowBatteryClass.LowBatteryNotificationMonitor.ProcessDueReminders` | low_battery_notification.go:507-530 | Equals its specification, other cars untouched: one car's reminders |
| `LowBatteryClass.LowBatteryNotificationMonitor.ResetObservationBaseline` | low_battery_notification.go:241-252 | Equals its specification, other cars untouched: the reset loop |
| `LowBatteryClass.LowBatteryNotificationMonitor.ReconcileFleet` | mqtt_monitor_lifecycle.go:76-88 | Cars outside the fleet lose state and timer, others nothing |

## Left out

- VisitsAreDistinctDrives: leaves out drive number -1, which the builder's map cannot tell from a cell never visited; drive numbers come from a database sequence.
- EmittedHeatIsPositive: leaves out drive number -1 for the same reason.
- EndIsNeverOvertaken: a POST counts as over when the client gives up on it; what the relay does with a request that timed out is not modelled.
- EpisodesAreDisciplined: speaks of one process run; events carry no vehicle name, percentages, ranges, power or estimates, and episode identifiers are fresh numbers because the service derives them from whole seconds.
- TerminalTakesPrecedence: speaks of one process run; the same state is saved and loaded again, which is not modelled.
- RunsAreHysteretic: speaks of alerts as they are decided; the re-check before each push is not modelled.
- SnapshotNeverOutlivesConsent: a reading is whatever the vehicle source returned; that the database rows behind it are true is not modelled.
- OutboxIsExact: a stored time is always one that the service wrote, so the branches for unreadable times are left out, as are failed saves of the outbox and the limit on a payload's size.
- RetryDue: the method is one pass without interruption; passes with other steps between their turns are the runs of `OutboxIsExact`.
- NonceAuthenticatesOnce: the checks of a proof other than nonce, identifier and expiry, its signature included, are one truth value.
- HTTP routing, headers, JSON, origin checks and the exact status code of a failed save; return invitations, which only travel back to the owner; confirmation codes and display names.
- Saving is one step with three outcomes instead of a sequence of file operations; the limit on the size of the file is one of its failures.
- Normalising identifiers and aliases: zero stands for an invalid identifier, an alias is bounded by its number of characters.
- NaN and infinities, which the source refuses wherever it refuses out-of-range numbers; wrap-around of 64-bit revisions at a restart, reachable only after the largest revision.
- The two slots for reading the vehicle source are a truth value of each read; the database queries behind a reading are not modelled.
- The order in which the store and the grants are listed, and all read-only endpoints.
- MQTT clients, subscriptions and topics; timers are steps that may happen at any later time, even after they were stopped; a full event queue that drops events.
- Charging without a database, which production never sets up; whole-second rounding is kept for the update interval and the outbox and left out of snoozes.
- Choosing subscribers and their preferences: whether one is eligible is a parameter of each delivery, and live-activity authorisations are part of it.
- Retention by age is modelled; door receipts, battery and range values stored with parking events, and the persistence worker are not.
- Sorting of road cells, cell centres, and the request parsing around the coverage builder.
- The parking grid search, live activities for navigation, software updates, lock checks, estimated arrival sharing, tire history and owner endpoints: variations of what is modelled here or simpler.
