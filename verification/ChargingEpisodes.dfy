/** Episode discipline and terminal precedence over whole runs of the charging monitor. */
module ChargingEpisodes {
  import opened Wrappers
  import opened ChargingMonitor

  // ---------- What one step can do to the episode ----------

  predicate SameEpisode(a: Car, b: Car) {
    && a.active == b.active && a.session == b.session && a.sequence == b.sequence && a.lastEventSampleAt == b.lastEventSampleAt
  }

  /** Nothing happens, or an inactive car is forgotten. */
  predicate Quiet(m: Monitor, m': Monitor, events: seq<Event>) {
    events == [] && (SameEpisode(m.car, m'.car) || (!m.car.active && !m'.car.active))
  }

  predicate Opens(m: Monitor, m': Monitor, events: seq<Event>, session: Id) {
    && !m.car.active && m'.car.active && m'.car.session == session && |events| == 1
    && var e := events[0];
       && e.kind == Started && e.session == session && e.sequence == m'.car.sequence == 1
       && e.sampleAt.Some? && e.sampleAt == m'.car.lastEventSampleAt
  }

  predicate Continues(m: Monitor, m': Monitor, events: seq<Event>) {
    && m.car.active && m'.car.active && m'.car.session == m.car.session && |events| == 1
    && var e := events[0];
       && e.kind != Ended && e.session == m.car.session && e.sequence == m'.car.sequence == m.car.sequence + 1
       && e.sampleAt.Some? && e.sampleAt == m'.car.lastEventSampleAt
       && (e.kind == Updated && m.car.lastEventSampleAt.Some? ==> e.sampleAt.value > m.car.lastEventSampleAt.value)
  }

  predicate Closes(m: Monitor, m': Monitor, events: seq<Event>) {
    && m.car.active && !m'.car.active && |events| == 1
    && var e := events[0];
       e.kind == Ended && e.session == m.car.session && e.sequence == m.car.sequence + 1
  }

  predicate Transition(m: Monitor, m': Monitor, events: seq<Event>, session: Id) {
    Quiet(m, m', events) || Opens(m, m', events, session) || Continues(m, m', events) || Closes(m, m', events)
  }

  function SessionOf(step: Step): Id {
    match step
    case Message(_, _, _, env) => env.session
    case Snap(_, env) => env.session
    case _ => 0
  }

  lemma SchedulingTransition(m: Monitor, at: int, session: Id)
    requires m.car.active
    ensures Transition(m, Scheduled(m, at).0, Scheduled(m, at).1, session)
  {
    hide Ready;
  }

  lemma ReconcilingTransition(m: Monitor, at: int, allowTerminal: bool, env: Env)
    ensures Transition(m, Reconciled(m, at, allowTerminal, env).0, Reconciled(m, at, allowTerminal, env).1, env.session)
  {
    hide Ready, Scheduled, Resumes;
    if m.car.active {
      SchedulingTransition(m, at, env.session);
    }
  }

  /** The receipt `Messaged` reasons about. */
  function Noted(m: Monitor, field: Field, at: int, retained: bool): Monitor {
    SeenIdle(Received(m.(mqttManaged := true), field, at, retained))
  }

  /** A receipt changes readings only. */
  lemma ReceivingKeepsRest(m: Monitor, field: Field, at: int, retained: bool)
    ensures var car := Noted(m, field, at, retained).car;
            car == m.car.(vehicle := car.vehicle, charge := car.charge, battery := car.battery, range := car.range, fast := car.fast)
  {
    hide ReadBaseline;
    assert Noted(m, field, at, retained).car == ReadCar(m.car, field);
  }

  lemma MessagingTransition(m: Monitor, field: Field, at: int, retained: bool, env: Env)
    ensures Transition(m, Messaged(m, field, at, retained, env).0, Messaged(m, field, at, retained, env).1, env.session)
  {
    hide Ready, Reconciled, Received, SeenIdle;
    var noted := Noted(m, field, at, retained);
    ReceivingKeepsRest(m, field, at, retained);
    ReconcilingTransition(noted, at, !retained && IsPrimary(field), env);
  }

  lemma SnappingTransition(m: Monitor, s: Snapshot, env: Env)
    ensures Transition(m, Snapped(m, s, env).0, Snapped(m, s, env).1, env.session)
  {
    hide Ready, Reconciled, Settled, Fresh;
    if !Outdated(m, s) && s.checkedAt.Some? {
      var at := s.checkedAt.value;
      var kept := Settled(m, s);
      var m1 := m.(observation := kept);
      var (m2, events) := if BoundTo(m.car, kept) && kept.endedAt.Some? then ProcessEnded(m1, kept, at) else (m1, []);
      if events == [] {
        assert SameEpisode(m.car, m2.car);
        ReconcilingTransition(m2, at, false, env);
      }
    }
  }

  lemma StepTransition(m: Monitor, step: Step)
    requires m.car.active ==> m.car.session != 0
    ensures Transition(m, Stepped(m, step).0, Stepped(m, step).1, SessionOf(step))
    ensures Opens(m, Stepped(m, step).0, Stepped(m, step).1, SessionOf(step)) ==> step.Message? || step.Snap?
  {
    hide Ready, Messaged, Snapped, Scheduled;
    match step
    case Message(field, at, retained, env) => MessagingTransition(m, field, at, retained, env);
    case Snap(snapshot, env) => SnappingTransition(m, snapshot, env);
    case Acknowledge(session, byOutbox, at) =>
      var acknowledged := m.(car := m.car.(startDelivered := true, lastQueued := None));
      if m.car.active {
        SchedulingTransition(acknowledged, at, 0);
      }
    case _ =>
  }

  // ---------- Whole runs ----------

  /** The monitor, every event it has created, and the episodes it has named. */
  datatype World = World(monitor: Monitor, log: seq<Event>, sessions: set<Id>)

  function Happens(w: World, step: Step): World {
    var (m, events) := Stepped(w.monitor, step);
    World(m, w.log + events, w.sessions + {SessionOf(step)})
  }

  function After(w: World, steps: seq<Step>): World {
    if steps == [] then w else Happens(After(w, steps[..|steps| - 1]), steps[|steps| - 1])
  }

  /** An identifier offered for a new episode has not been used before. */
  predicate FreshSession(w: World, step: Step) { SessionOf(step) != 0 ==> SessionOf(step) !in w.sessions }

  predicate Names(step: Step) { step.Message? || step.Snap? ==> SessionOf(step) != 0 }

  ghost predicate FreshRun(w: World, steps: seq<Step>) {
    forall i :: 0 <= i < |steps| ==> Names(steps[i]) && FreshSession(After(w, steps[..i]), steps[i])
  }

  function Latest(log: seq<Event>, session: Id): Option<Event> {
    if log == [] then None
    else if log[|log| - 1].session == session then Some(log[|log| - 1])
    else Latest(log[..|log| - 1], session)
  }

  /** Within an episode, numbers rise strictly and nothing follows its end. */
  ghost predicate Sequenced(log: seq<Event>) {
    forall i, j :: 0 <= i < j < |log| && log[i].session == log[j].session ==>
                     log[i].kind != Ended && log[i].sequence < log[j].sequence
  }

  /** An update at `j` carries a sample strictly later than that of its episode's event before it. */
  predicate AdvancesAt(log: seq<Event>, j: nat)
    requires j < |log|
  {
    var previous := Latest(log[..j], log[j].session);
    log[j].kind == Updated && previous.Some? ==>
      log[j].sampleAt.Some? && previous.value.sampleAt.Some? && log[j].sampleAt.value > previous.value.sampleAt.value
  }

  ghost predicate Advances(log: seq<Event>) { forall j :: 0 <= j < |log| ==> AdvancesAt(log, j) }

  predicate HasEnd(log: seq<Event>, session: Id) { exists k :: 0 <= k < |log| && log[k].session == session && log[k].kind == Ended }

  /** The running episode and its events so far. */
  ghost predicate Running(log: seq<Event>, car: Car, sessions: set<Id>) {
    car.active ==>
      && car.session != 0 && car.session in sessions
      && (forall i :: 0 <= i < |log| && log[i].session == car.session ==> log[i].kind != Ended && log[i].sequence <= car.sequence)
      && (Latest(log, car.session).Some? ==> Latest(log, car.session).value.sampleAt == car.lastEventSampleAt)
      && (Latest(log, car.session).Some? ==> car.lastEventSampleAt.Some?)
  }

  /** Every episode that has shown itself is either running or has its end. */
  ghost predicate Finished(log: seq<Event>, car: Car) {
    forall i :: 0 <= i < |log| ==> (car.active && log[i].session == car.session) || HasEnd(log, log[i].session)
  }

  ghost predicate Disciplined(w: World) {
    && Sequenced(w.log) && Advances(w.log) && Running(w.log, w.monitor.car, w.sessions) && Finished(w.log, w.monitor.car)
    && forall i :: 0 <= i < |w.log| ==> w.log[i].session in w.sessions
  }

  // ---------- Adding an event ----------

  lemma {:induction false} LatestIsThere(log: seq<Event>, session: Id)
    ensures Latest(log, session).Some? ==>
              exists i :: 0 <= i < |log| && log[i].session == session && log[i] == Latest(log, session).value
    ensures Latest(log, session).None? ==> forall i :: 0 <= i < |log| ==> log[i].session != session
  {
    if log != [] && log[|log| - 1].session != session {
      LatestIsThere(log[..|log| - 1], session);
    }
  }

  lemma LatestSnoc(log: seq<Event>, e: Event, session: Id)
    ensures Latest(log + [e], session) == if e.session == session then Some(e) else Latest(log, session)
  {
    assert (log + [e])[..|log|] == log;
  }

  lemma AdvancesSnoc(log: seq<Event>, e: Event)
    requires Advances(log)
    requires e.kind == Updated && Latest(log, e.session).Some? ==>
               e.sampleAt.Some? && Latest(log, e.session).value.sampleAt.Some?
               && e.sampleAt.value > Latest(log, e.session).value.sampleAt.value
    ensures Advances(log + [e])
  {
    hide Latest;
    forall j | 0 <= j < |log + [e]|
      ensures AdvancesAt(log + [e], j)
    {
      assert (log + [e])[..j] == log[..j];
      if j == |log| {
        assert log[..j] == log;
      } else {
        assert AdvancesAt(log, j);
      }
    }
  }

  lemma HasEndSnoc(log: seq<Event>, e: Event, session: Id)
    ensures HasEnd(log, session) ==> HasEnd(log + [e], session)
    ensures e.kind == Ended ==> HasEnd(log + [e], e.session)
  {
    if HasEnd(log, session) {
      var k :| 0 <= k < |log| && log[k].session == session && log[k].kind == Ended;
      assert (log + [e])[k] == log[k];
    }
    assert (log + [e])[|log|] == e;
  }

  lemma QuietKeepsDiscipline(w: World, m': Monitor, sessions: set<Id>)
    requires Disciplined(w) && Quiet(w.monitor, m', []) && w.sessions <= sessions
    ensures Disciplined(World(m', w.log, sessions))
  {
    hide Sequenced, Advances, HasEnd;
  }

  lemma EventKeepsDiscipline(w: World, m': Monitor, e: Event, session: Id)
    requires Disciplined(w) && session !in w.sessions - {0} && (Opens(w.monitor, m', [e], session) ==> session != 0)
    requires Opens(w.monitor, m', [e], session) || Continues(w.monitor, m', [e]) || Closes(w.monitor, m', [e])
    ensures Disciplined(World(m', w.log + [e], w.sessions + {session}))
  {
    hide HasEnd, Latest, Advances;
    LatestIsThere(w.log, e.session);
    LatestSnoc(w.log, e, e.session);
    AdvancesSnoc(w.log, e);
    var log := w.log + [e];
    forall i | 0 <= i < |log|
      ensures (m'.car.active && log[i].session == m'.car.session) || HasEnd(log, log[i].session)
    {
      HasEndSnoc(w.log, e, log[i].session);
      if i < |w.log| {
        assert log[i] == w.log[i];
      }
    }
  }

  lemma StepKeepsDiscipline(w: World, step: Step)
    requires Disciplined(w) && Names(step) && FreshSession(w, step)
    ensures Disciplined(Happens(w, step))
  {
    hide Sequenced, Advances, Finished, Stepped;
    var (m', events) := Stepped(w.monitor, step);
    StepTransition(w.monitor, step);
    if events == [] {
      assert w.log + events == w.log;
      QuietKeepsDiscipline(w, m', w.sessions + {SessionOf(step)});
    } else {
      assert events == [events[0]];
      EventKeepsDiscipline(w, m', events[0], SessionOf(step));
    }
  }

  /** Main result on episodes, for any run of the process from any state whose running episode,
      if it has one, is named: within an episode, event numbers rise strictly, every update
      carries a strictly later sample than the event before it, and nothing follows the one end
      that every episode gets when it stops running. */
  lemma {:induction false} EpisodesAreDisciplined(w: World, steps: seq<Step>)
    requires Disciplined(w) && FreshRun(w, steps)
    ensures Disciplined(After(w, steps))
  {
    if steps != [] {
      var before := steps[..|steps| - 1];
      assert forall i :: 0 <= i < |before| ==> before[..i] == steps[..i];
      hide Disciplined, Happens, Names, FreshSession;
      EpisodesAreDisciplined(w, before);
      StepKeepsDiscipline(After(w, before), steps[|steps| - 1]);
    }
  }

  // ---------- Terminal precedence ----------

  /** No start or update carries the process whose end is known. */
  predicate Respects(m: Monitor, events: seq<Event>) {
    forall i :: 0 <= i < |events| && events[i].kind != Ended && m.car.terminalProcess != 0 ==> events[i].process != m.car.terminalProcess
  }

  /** The snapshot shows the end of the process the car is bound to. */
  predicate EndsBound(m: Monitor, s: Snapshot) {
    !Outdated(m, s) && s.checkedAt.Some? && BoundTo(m.car, Settled(m, s)) && Settled(m, s).endedAt.Some?
  }

  lemma SchedulingRespects(m: Monitor, at: int)
    ensures Respects(m, Scheduled(m, at).1) && Scheduled(m, at).0.car.terminalProcess == m.car.terminalProcess
  {
    hide Ready, Fresh, Resumes;
  }

  lemma ReconcilingRespects(m: Monitor, at: int, allowTerminal: bool, env: Env)
    ensures Respects(m, Reconciled(m, at, allowTerminal, env).1)
    ensures Reconciled(m, at, allowTerminal, env).0.car.terminalProcess == m.car.terminalProcess
  {
    hide Ready, Fresh, Resumes, Scheduled;
    SchedulingRespects(m, at);
  }

  lemma NothingRespects(m: Monitor)
    ensures Respects(m, [])
  {
  }

  lemma SameTerminalRespects(a: Monitor, b: Monitor, events: seq<Event>)
    requires a.car.terminalProcess == b.car.terminalProcess
    ensures Respects(a, events) ==> Respects(b, events)
  {
  }

  lemma MessagingRespects(m: Monitor, field: Field, at: int, retained: bool, env: Env)
    ensures Respects(m, Messaged(m, field, at, retained, env).1)
    ensures Messaged(m, field, at, retained, env).0.car.terminalProcess == m.car.terminalProcess
  {
    hide Ready, Reconciled, Received, SeenIdle, Respects;
    var noted := Noted(m, field, at, retained);
    ReceivingKeepsRest(m, field, at, retained);
    NothingRespects(noted);
    NothingRespects(m);
    SameTerminalRespects(noted, m, Reconciled(noted, at, !retained && IsPrimary(field), env).1);
    ReconcilingRespects(noted, at, !retained && IsPrimary(field), env);
  }

  lemma SnappingRespects(m: Monitor, s: Snapshot, env: Env)
    ensures Respects(m, Snapped(m, s, env).1)
    ensures Snapped(m, s, env).0.car.terminalProcess == if EndsBound(m, s) then m.car.process else m.car.terminalProcess
  {
    hide Ready, Reconciled, Settled, Fresh;
    if !Outdated(m, s) && s.checkedAt.Some? {
      var kept := Settled(m, s);
      var m1 := m.(observation := kept);
      if !BoundTo(m.car, kept) || kept.endedAt.None? {
        ReconcilingRespects(m1, s.checkedAt.value, false, env);
      }
    }
  }

  lemma StepRespects(m: Monitor, step: Step)
    ensures Respects(m, Stepped(m, step).1)
    ensures !step.Remove? && !(step.Snap? && EndsBound(m, step.snapshot)) ==>
              Stepped(m, step).0.car.terminalProcess == m.car.terminalProcess
    ensures step.Snap? && EndsBound(m, step.snapshot) ==> Stepped(m, step).0.car.terminalProcess == m.car.process
  {
    hide Ready, Fresh, Resumes, Scheduled, Messaged, Snapped, EndsBound;
    match step
    case Message(field, at, retained, env) => MessagingRespects(m, field, at, retained, env);
    case Snap(s, env) => SnappingRespects(m, s, env);
    case Acknowledge(session, byOutbox, at) =>
      SchedulingRespects(m.(car := m.car.(startDelivered := true, lastQueued := None)), at);
    case _ =>
  }

  /** What lets a known end of `process` be forgotten: the car leaves the fleet, or another
      process that the car was bound to has itself ended. */
  predicate Releases(m: Monitor, step: Step, process: nat) {
    step.Remove? || (step.Snap? && EndsBound(m, step.snapshot) && m.car.process != process)
  }

  ghost predicate Unreleased(w: World, steps: seq<Step>, process: nat) {
    forall i :: 0 <= i < |steps| ==> !Releases(After(w, steps[..i]).monitor, steps[i], process)
  }

  /** Seeing the bound process end closes its episode and makes the end known. */
  lemma BoundEndIsKnown(m: Monitor, s: Snapshot, env: Env)
    requires EndsBound(m, s)
    ensures var (m', events) := Stepped(m, Snap(s, env));
            && m'.car.terminalProcess == m.car.process && !m'.car.active
            && (m.car.active ==> |events| == 1 && events[0].kind == Ended && events[0].session == m.car.session)
            && (!m.car.active ==> events == [])
  {
    hide Settled, Reconciled, Ready, Fresh;
  }

  /** Main result on terminals: once the bound process is known to have ended, no snapshot,
      however late or stale, and no receipt, timer, delivery or replay creates a start or an
      update from it, until the car leaves the fleet or another bound process has ended. */
  lemma {:induction false} TerminalTakesPrecedence(w: World, steps: seq<Step>, process: nat)
    requires process != 0 && w.monitor.car.terminalProcess == process && Unreleased(w, steps, process)
    ensures After(w, steps).monitor.car.terminalProcess == process
    ensures |w.log| <= |After(w, steps).log|
    ensures forall j :: |w.log| <= j < |After(w, steps).log| && After(w, steps).log[j].kind != Ended ==>
                          After(w, steps).log[j].process != process
  {
    hide Stepped, Releases;
    if steps != [] {
      var before := steps[..|steps| - 1];
      assert forall i :: 0 <= i < |before| ==> before[..i] == steps[..i];
      TerminalTakesPrecedence(w, before, process);
      var mid := After(w, before);
      var last := steps[|steps| - 1];
      assert !Releases(mid.monitor, last, process);
      NotReleased(mid.monitor, last, process);
      StepRespects(mid.monitor, last);
    }
  }

  lemma NotReleased(m: Monitor, step: Step, process: nat)
    requires !Releases(m, step, process)
    ensures !step.Remove? && (step.Snap? && EndsBound(m, step.snapshot) ==> m.car.process == process)
  {
  }

  // ---------- Resuming after an MQTT end ----------

  /** An MQTT end of `process` at `terminal` is remembered while no new episode has begun. */
  predicate Waits(m: Monitor, process: nat, terminal: int) {
    !m.car.active && m.car.mqttTerminalProcess == process && m.car.mqttTerminalAt == Some(terminal)
  }

  /** Sample and both live receipts are strictly later than `terminal`. */
  predicate LaterEvidence(m: Monitor, e: Event, terminal: int) {
    && ChargingMonitor.After(e.sampleAt, terminal) && m.baseline.stateLive && m.baseline.chargeLive
    && ChargingMonitor.After(m.baseline.stateLiveAt, terminal) && ChargingMonitor.After(m.baseline.chargeLiveAt, terminal)
  }

  predicate ResumesOnEvidence(m': Monitor, events: seq<Event>, process: nat, terminal: int) {
    |events| == 1 && events[0].kind == Started && (events[0].process == process ==> LaterEvidence(m', events[0], terminal))
  }

  lemma ReconcilingWaits(m: Monitor, at: int, allowTerminal: bool, env: Env, process: nat, terminal: int)
    requires process != 0 && Waits(m, process, terminal)
    ensures var (m', events) := Reconciled(m, at, allowTerminal, env);
            (events == [] && Waits(m', process, terminal)) || ResumesOnEvidence(m', events, process, terminal)
  {
    hide Ready, Fresh, Scheduled;
  }

  lemma MessagingWaits(m: Monitor, field: Field, at: int, retained: bool, env: Env, process: nat, terminal: int)
    requires process != 0 && Waits(m, process, terminal)
    ensures var (m', events) := Messaged(m, field, at, retained, env);
            (events == [] && Waits(m', process, terminal)) || ResumesOnEvidence(m', events, process, terminal)
  {
    hide Ready, Reconciled, Received, SeenIdle, LaterEvidence;
    var noted := Noted(m, field, at, retained);
    ReceivingKeepsRest(m, field, at, retained);
    ReconcilingWaits(noted, at, !retained && IsPrimary(field), env, process, terminal);
  }

  lemma SnappingWaits(m: Monitor, s: Snapshot, env: Env, process: nat, terminal: int)
    requires process != 0 && Waits(m, process, terminal)
    ensures var (m', events) := Snapped(m, s, env);
            (events == [] && Waits(m', process, terminal)) || ResumesOnEvidence(m', events, process, terminal)
  {
    hide Ready, Reconciled, Settled, Fresh, LaterEvidence;
    if !Outdated(m, s) && s.checkedAt.Some? {
      var kept := Settled(m, s);
      var m1 := m.(observation := kept);
      if BoundTo(m.car, kept) && kept.endedAt.Some? {
        assert ProcessEnded(m1, kept, s.checkedAt.value).1 == [];
      } else {
        ReconcilingWaits(m1, s.checkedAt.value, false, env, process, terminal);
      }
    }
  }

  lemma StepWaits(m: Monitor, step: Step, process: nat, terminal: int)
    requires process != 0 && Waits(m, process, terminal) && !step.Remove?
    ensures var (m', events) := Stepped(m, step);
            (events == [] && Waits(m', process, terminal)) || ResumesOnEvidence(m', events, process, terminal)
  {
    hide Ready, Messaged, Snapped, Scheduled, LaterEvidence;
    match step
    case Message(field, at, retained, env) => MessagingWaits(m, field, at, retained, env, process, terminal);
    case Snap(s, env) => SnappingWaits(m, s, env, process, terminal);
    case _ =>
  }

  /** After an MQTT end at `terminal`, the same process starts a new episode only on a sample and
      both live primary-state receipts that are strictly later; until some start, nothing is
      created at all. `k` is the number of steps before that start, if there is one. */
  lemma {:induction false} RestartNeedsLaterEvidence(w: World, steps: seq<Step>, process: nat, terminal: int) returns (k: nat)
    requires process != 0 && Waits(w.monitor, process, terminal) && forall i :: 0 <= i < |steps| ==> !steps[i].Remove?
    ensures k <= |steps| && After(w, steps[..k]).log == w.log && Waits(After(w, steps[..k]).monitor, process, terminal)
    ensures k < |steps| ==>
              var (m', events) := Stepped(After(w, steps[..k]).monitor, steps[k]);
              ResumesOnEvidence(m', events, process, terminal)
  {
    hide Stepped, Waits, ResumesOnEvidence;
    if steps == [] {
      return 0;
    }
    var before := steps[..|steps| - 1];
    k := RestartNeedsLaterEvidence(w, before, process, terminal);
    assert before[..k] == steps[..k];
    if k == |before| {
      var mid := After(w, before);
      assert before[..k] == before;
      StepWaits(mid.monitor, steps[k], process, terminal);
      var (m', events) := Stepped(mid.monitor, steps[k]);
      if events == [] && Waits(m', process, terminal) {
        k := |steps|;
        assert steps[..k] == steps;
      }
    }
  }
}
