/** Replay memory of the guest endpoint: one-use nonces, remembered proof identifiers (section
    11.1 of RFC 9449), and the request window in front of them. */
module FriendReplay {
  import opened Collections
  import opened FriendTypes

  const MAX_NONCES := 256
  const MAX_PROOFS := 1024
  const MAX_WINDOW := 64
  const NONCE_LIFE_MS := 60000
  const PROOF_MEMORY_MS := 120000
  const WINDOW_MS := 1000

  /** Expiry times by nonce and by proof identifier; when the current window began and how many
      requests it has seen. */
  datatype Replay = Replay(nonces: map<Id, int>, proofs: map<Id, int>, windowStart: int, windowCount: int)

  const NO_MEMORY := Replay(map[], map[], 0, 0)

  function Unexpired(entries: map<Id, int>, now: int): map<Id, int> {
    map id | id in entries && entries[id] > now :: entries[id]
  }

  function Swept(r: Replay, now: int): Replay {
    r.(nonces := Unexpired(r.nonces, now), proofs := Unexpired(r.proofs, now))
  }

  function Counted(r: Replay, now: int): Replay {
    if now - r.windowStart >= WINDOW_MS then r.(windowStart := now, windowCount := 1) else r.(windowCount := r.windowCount + 1)
  }

  function NonceIssued(r: Replay, nonce: Id, now: int): (Replay, bool) {
    if |r.nonces| >= MAX_NONCES || |r.proofs| >= MAX_PROOFS || nonce == 0 then (r, false)
    else (r.(nonces := r.nonces[nonce := now + NONCE_LIFE_MS]), true)
  }

  function MemoryOf(proofs: map<Id, int>, proof: Id): int { if proof in proofs then proofs[proof] else 0 }

  /** `valid` stands for every other check of a proof, its signature included. */
  function Authenticated(r: Replay, nonce: Id, proof: Id, valid: bool, now: int): (Replay, bool) {
    if nonce !in r.nonces || r.nonces[nonce] <= now || MemoryOf(r.proofs, proof) > now || !valid then (r, false)
    else (r.(nonces := r.nonces - {nonce}, proofs := r.proofs[proof := now + PROOF_MEMORY_MS]), true)
  }

  // ---------- Whole runs ----------

  datatype Event =
    | Sweep(now: int)
    | Admit(now: int)
    | Issue(nonce: Id, now: int)
    | Authenticate(nonce: Id, proof: Id, valid: bool, now: int)
    | Restart

  /** An accepted proof, with the number of restarts before it. */
  datatype Acceptance = Acceptance(nonce: Id, proof: Id, at: int, life: nat)

  /** A request that the window let in: when, when its window began, which window it was, and the
      number of restarts before it. */
  datatype Admission = Admission(at: int, start: int, window: nat, life: nat)

  /** The memory, when each nonce drawn so far was issued, what has been accepted, and which
      requests have been let in over how many windows. */
  datatype World = World(memory: Replay, issued: map<Id, int>, accepted: seq<Acceptance>, life: nat, admitted: seq<Admission>, window: nat)

  const FIRST := World(NO_MEMORY, map[], [], 0, [], 0)

  predicate LetIn(r: Replay) { r.windowCount <= MAX_WINDOW }

  function Happens(w: World, e: Event): World {
    match e
    case Sweep(now) => w.(memory := Swept(w.memory, now))
    case Admit(now) =>
      var memory := Counted(w.memory, now);
      var window := if now - w.memory.windowStart >= WINDOW_MS then w.window + 1 else w.window;
      w.(memory := memory, window := window,
         admitted := if LetIn(memory) then w.admitted + [Admission(now, memory.windowStart, window, w.life)] else w.admitted)
    case Issue(nonce, now) =>
      var (memory, ok) := NonceIssued(w.memory, nonce, now);
      if ok then w.(memory := memory, issued := w.issued[nonce := now]) else w
    case Authenticate(nonce, proof, valid, now) =>
      var (memory, ok) := Authenticated(w.memory, nonce, proof, valid, now);
      if ok then w.(memory := memory, accepted := w.accepted + [Acceptance(nonce, proof, now, w.life)]) else w
    case Restart => w.(memory := NO_MEMORY, life := w.life + 1, window := w.window + 1)
  }

  function Run(events: seq<Event>): World {
    if events == [] then FIRST else Happens(Run(events[..|events| - 1]), events[|events| - 1])
  }

  /** A nonce is never drawn twice. */
  predicate FreshNonce(w: World, e: Event) { e.Issue? ==> e.nonce !in w.issued }

  ghost predicate FreshRun(events: seq<Event>) {
    forall i :: 0 <= i < |events| ==> FreshNonce(Run(events[..i]), events[i])
  }

  // ---------- Capacity ----------

  predicate Bounded(r: Replay) {
    |r.nonces| <= MAX_NONCES && |r.nonces| + |r.proofs| <= MAX_NONCES + MAX_PROOFS - 1
  }

  lemma UnexpiredIsNotLarger(entries: map<Id, int>, now: int)
    ensures |Unexpired(entries, now)| <= |entries|
  {
    SubsetIsNotLarger(Unexpired(entries, now).Keys, entries.Keys);
    assert |Unexpired(entries, now)| == |Unexpired(entries, now).Keys|;
  }

  lemma EventKeepsBounded(w: World, e: Event)
    requires Bounded(w.memory)
    ensures Bounded(Happens(w, e).memory)
  {
    match e
    case Sweep(now) =>
      UnexpiredIsNotLarger(w.memory.nonces, now);
      UnexpiredIsNotLarger(w.memory.proofs, now);
    case Authenticate(nonce, proof, valid, now) =>
      if Authenticated(w.memory, nonce, proof, valid, now).1 {
        assert (w.memory.nonces - {nonce}).Keys == w.memory.nonces.Keys - {nonce};
        assert |w.memory.nonces - {nonce}| == |w.memory.nonces| - 1;
        assert w.memory.proofs[proof := now + PROOF_MEMORY_MS].Keys == w.memory.proofs.Keys + {proof};
      }
    case _ =>
  }

  /** The limits are tested only when a nonce is issued; they bound the whole memory because an
      accepted proof costs a nonce. */
  lemma {:induction false} MemoryIsBounded(events: seq<Event>)
    ensures Bounded(Run(events).memory)
  {
    if events != [] {
      MemoryIsBounded(events[..|events| - 1]);
      hide Bounded, Happens;
      EventKeepsBounded(Run(events[..|events| - 1]), events[|events| - 1]);
    }
  }

  // ---------- One use ----------

  ghost predicate UsedOnce(accepted: seq<Acceptance>) {
    forall i, j :: 0 <= i < j < |accepted| ==> accepted[i].nonce != accepted[j].nonce
  }

  ghost predicate UsedInTime(w: World) {
    forall i :: 0 <= i < |w.accepted| ==>
                  && w.accepted[i].nonce in w.issued && w.accepted[i].at < w.issued[w.accepted[i].nonce] + NONCE_LIFE_MS
                  && w.accepted[i].nonce !in w.memory.nonces
  }

  ghost predicate Remembered(w: World) {
    && UsedOnce(w.accepted) && UsedInTime(w)
    && forall nonce :: nonce in w.memory.nonces ==>
                         nonce in w.issued && w.memory.nonces[nonce] == w.issued[nonce] + NONCE_LIFE_MS
  }

  lemma EventKeepsRemembered(w: World, e: Event)
    requires Remembered(w) && FreshNonce(w, e)
    ensures Remembered(Happens(w, e))
  {
    hide MemoryOf, LetIn;
  }

  /** Every nonce authenticates at most one request, only after it was issued and before its
      minute is over, whatever the clock readings and however often the process restarts. */
  lemma {:induction false} NonceAuthenticatesOnce(events: seq<Event>)
    requires FreshRun(events)
    ensures Remembered(Run(events))
  {
    if events != [] {
      var before := events[..|events| - 1];
      assert forall i :: 0 <= i < |before| ==> before[..i] == events[..i];
      NonceAuthenticatesOnce(before);
      assert FreshNonce(Run(before), events[|events| - 1]);
      hide Remembered, Happens, FreshNonce, FreshRun;
      EventKeepsRemembered(Run(before), events[|events| - 1]);
    }
  }

  // ---------- Proof identifiers ----------

  function TimeOf(e: Event, clock: int): int {
    match e
    case Sweep(now) => now
    case Admit(now) => now
    case Issue(_, now) => now
    case Authenticate(_, _, _, now) => now
    case Restart => clock
  }

  /** The clock does not go back; its last reading. */
  function Clock(events: seq<Event>): int {
    if events == [] then 0 else TimeOf(events[|events| - 1], Clock(events[..|events| - 1]))
  }

  ghost predicate Monotone(events: seq<Event>) {
    forall i :: 0 <= i < |events| ==> Clock(events[..i]) <= TimeOf(events[i], Clock(events[..i]))
  }

  /** A proof accepted in this life and not yet two minutes old is remembered as such. */
  ghost predicate ProofsRemembered(w: World, clock: int) {
    forall i :: 0 <= i < |w.accepted| ==>
                  && w.accepted[i].at <= clock && w.accepted[i].life <= w.life
                  && (w.accepted[i].life == w.life && w.accepted[i].at + PROOF_MEMORY_MS > clock ==>
                        w.accepted[i].proof in w.memory.proofs
                        && w.memory.proofs[w.accepted[i].proof] == w.accepted[i].at + PROOF_MEMORY_MS)
  }

  ghost predicate ProofsApart(accepted: seq<Acceptance>) {
    forall i, j :: 0 <= i < j < |accepted| && accepted[i].proof == accepted[j].proof && accepted[i].life == accepted[j].life ==>
                     accepted[i].at + PROOF_MEMORY_MS <= accepted[j].at
  }

  lemma EventKeepsProofs(w: World, e: Event, clock: int)
    requires ProofsRemembered(w, clock) && ProofsApart(w.accepted) && clock <= TimeOf(e, clock)
    ensures ProofsRemembered(Happens(w, e), TimeOf(e, clock)) && ProofsApart(Happens(w, e).accepted)
  {
  }

  /** While the process lives and its clock does not go back, one proof identifier is accepted
      at most once in two minutes. */
  lemma {:induction false} ProofsAreApart(events: seq<Event>)
    requires Monotone(events)
    ensures ProofsRemembered(Run(events), Clock(events)) && ProofsApart(Run(events).accepted)
  {
    if events != [] {
      var before := events[..|events| - 1];
      assert forall i :: 0 <= i < |before| ==> before[..i] == events[..i];
      ProofsAreApart(before);
      assert Clock(before) <= TimeOf(events[|events| - 1], Clock(before));
      hide ProofsRemembered, ProofsApart, Happens, Monotone;
      EventKeepsProofs(Run(before), events[|events| - 1], Clock(before));
    }
  }

  // ---------- The request window ----------

  /** How many requests a window has let in. */
  function LetInBy(admitted: seq<Admission>, window: nat): nat {
    if admitted == [] then 0
    else LetInBy(admitted[..|admitted| - 1], window) + if admitted[|admitted| - 1].window == window then 1 else 0
  }

  lemma LetInBySnoc(admitted: seq<Admission>, a: Admission, window: nat)
    ensures LetInBy(admitted + [a], window) == LetInBy(admitted, window) + if a.window == window then 1 else 0
  {
    assert (admitted + [a])[..|admitted|] == admitted;
  }

  /** No window lets in more than its share; the current one no more than it has counted. */
  ghost predicate WindowsKept(w: World) {
    && (forall window: nat :: LetInBy(w.admitted, window) <= MAX_WINDOW)
    && (forall window: nat :: window > w.window ==> LetInBy(w.admitted, window) == 0)
    && 0 <= w.memory.windowCount && LetInBy(w.admitted, w.window) <= w.memory.windowCount
  }

  lemma EventKeepsWindows(w: World, e: Event)
    requires WindowsKept(w)
    ensures WindowsKept(Happens(w, e))
  {
    hide LetInBy, Authenticated, NonceIssued, Unexpired;
    var w' := Happens(w, e);
    if e.Admit? && LetIn(w'.memory) {
      var a := w'.admitted[|w.admitted|];
      forall window: nat
        ensures LetInBy(w'.admitted, window) == LetInBy(w.admitted, window) + if a.window == window then 1 else 0
      {
        LetInBySnoc(w.admitted, a, window);
      }
      assert LetInBy(w.admitted, w'.window) <= w'.memory.windowCount - 1;
    }
    if e.Restart? {
      assert LetInBy(w.admitted, w'.window) == 0;
    }
    if !e.Admit? && !e.Restart? {
      MemoryStepsKeepWindow(w, e);
    }
  }

  lemma MemoryStepsKeepWindow(w: World, e: Event)
    requires !e.Admit? && !e.Restart?
    ensures Happens(w, e).memory.windowCount == w.memory.windowCount && Happens(w, e).memory.windowStart == w.memory.windowStart
    ensures Happens(w, e).window == w.window && Happens(w, e).admitted == w.admitted && Happens(w, e).life == w.life
  {
  }

  /** Within a window the clock has moved by less than its length; from window to window of one
      process it moves by at least that much. */
  ghost predicate WindowsApart(w: World, clock: int) {
    && w.memory.windowStart <= clock
    && (forall i :: 0 <= i < |w.admitted| ==>
                      var a := w.admitted[i];
                      && a.start <= a.at < a.start + WINDOW_MS && a.window <= w.window && a.life <= w.life
                      && (a.window == w.window ==> a.start == w.memory.windowStart)
                      && (a.window != w.window && a.life == w.life ==> a.start + WINDOW_MS <= w.memory.windowStart))
    && (forall i, j :: 0 <= i < j < |w.admitted| && w.admitted[i].life == w.admitted[j].life ==>
                         if w.admitted[i].window == w.admitted[j].window then w.admitted[i].start == w.admitted[j].start
                         else w.admitted[i].start + WINDOW_MS <= w.admitted[j].start)
  }

  lemma EventKeepsWindowsApart(w: World, e: Event, clock: int)
    requires 0 <= clock <= TimeOf(e, clock) && WindowsApart(w, clock)
    ensures WindowsApart(Happens(w, e), TimeOf(e, clock))
  {
    hide Authenticated, NonceIssued, Unexpired;
    if !e.Admit? && !e.Restart? {
      MemoryStepsKeepWindow(w, e);
    }
  }

  lemma {:induction false} ClockIsNatural(events: seq<Event>)
    requires Monotone(events)
    ensures 0 <= Clock(events)
  {
    if events != [] {
      var before := events[..|events| - 1];
      assert forall i :: 0 <= i < |before| ==> before[..i] == events[..i];
      ClockIsNatural(before);
      assert Clock(before) <= TimeOf(events[|events| - 1], Clock(before));
    }
  }

  /** From the start of a window to the start of the next, at most 64 requests are let in, over
      any run; and while the clock does not go back, all of them within one second. */
  lemma {:induction false} WindowLimitsRequests(events: seq<Event>)
    ensures WindowsKept(Run(events))
    ensures Monotone(events) ==> WindowsApart(Run(events), Clock(events))
  {
    hide WindowsKept, WindowsApart, Happens, Monotone;
    if events == [] {
      NothingAdmitted();
    } else {
      var before := events[..|events| - 1];
      WindowLimitsRequests(before);
      EventKeepsWindows(Run(before), events[|events| - 1]);
      if Monotone(events) {
        MonotonePrefix(events);
        ClockIsNatural(before);
        EventKeepsWindowsApart(Run(before), events[|events| - 1], Clock(before));
      }
    }
  }

  lemma NothingAdmitted()
    ensures WindowsKept(FIRST) && WindowsApart(FIRST, 0)
  {
  }

  lemma MonotonePrefix(events: seq<Event>)
    requires Monotone(events) && events != []
    ensures Monotone(events[..|events| - 1])
    ensures Clock(events[..|events| - 1]) <= TimeOf(events[|events| - 1], Clock(events[..|events| - 1]))
  {
    var before := events[..|events| - 1];
    assert forall i :: 0 <= i < |before| ==> before[..i] == events[..i];
  }

  // ---------- Each step in full ----------

  /** A proof is accepted if and only if everything else about it is valid, its nonce is live and its
      identifier not remembered any more; then the nonce is gone and the identifier remembered for
      two minutes. */
  lemma AuthenticatingExactly(r: Replay, nonce: Id, proof: Id, valid: bool, now: int)
    ensures var (r', ok) := Authenticated(r, nonce, proof, valid, now);
            && (ok <==> valid && nonce in r.nonces && now < r.nonces[nonce] && (if proof in r.proofs then r.proofs[proof] else 0) <= now)
            && (!ok ==> r' == r)
            && (ok ==>
                  && r'.nonces == r.nonces - {nonce} && r'.proofs == r.proofs[proof := now + 120_000]
                  && r'.windowStart == r.windowStart && r'.windowCount == r.windowCount)
  {
  }

  /** A nonce is issued for a minute if and only if it was drawn and there is room for it and its proof. */
  lemma IssuingExactly(r: Replay, nonce: Id, now: int)
    ensures var (r', ok) := NonceIssued(r, nonce, now);
            && (ok <==> nonce != 0 && |r.nonces| < 256 && |r.proofs| < 1024)
            && r' == if ok then r.(nonces := r.nonces[nonce := now + 60_000]) else r
  {
  }

  /** A second after it began, the window is over and the request begins the next one; within it, the
      request is let in if fewer than 64 came before. */
  lemma AdmittingExactly(r: Replay, now: int)
    ensures var r' := Counted(r, now);
            var over := r.windowStart + 1000 <= now;
            && (over ==> r' == r.(windowStart := now, windowCount := 1) && LetIn(r'))
            && (!over ==> r' == r.(windowCount := r.windowCount + 1) && (LetIn(r') <==> r.windowCount < 64))
  {
  }

  /** A sweep keeps exactly what has not expired. */
  lemma SweepingExactly(r: Replay, now: int, id: Id)
    ensures var r' := Swept(r, now);
            && (id in r'.nonces <==> id in r.nonces && now < r.nonces[id]) && (id in r'.nonces ==> r'.nonces[id] == r.nonces[id])
            && (id in r'.proofs <==> id in r.proofs && now < r.proofs[id]) && (id in r'.proofs ==> r'.proofs[id] == r.proofs[id])
            && r'.windowStart == r.windowStart && r'.windowCount == r.windowCount
  {
  }
}
