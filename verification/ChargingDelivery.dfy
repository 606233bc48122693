/** Delivering charging events: the queue worker, the durable outbox and any number of others
    POST events that the monitor has created, one at a time, behind a one-slot gate. */
module ChargingDelivery {
  import opened Wrappers
  import opened ChargingMonitor
  import E = ChargingEpisodes

  /** An event of one car. */
  datatype Payload = Payload(car: Id, event: Event)

  /** Where an agent is with its payload: waiting for the gate, holding it, past the first
      eligibility check and the recording of the cleanup binding, past the second check, or in
      the middle of the POST. */
  datatype Agent = Idle | Waiting(payload: Payload) | Holding(payload: Payload) | Recorded(payload: Payload)
                 | Cleared(payload: Payload) | Posting(payload: Payload)

  /** The cars' monitors with all they have created, the agents, the gate, and every POST begun. */
  datatype World = World(cars: map<Id, E.World>, agents: seq<Agent>, gate: Option<nat>, posts: seq<Payload>)

  datatype Step =
    | Advance(car: Id, step: ChargingMonitor.Step)
    | Take(agent: nat, payload: Payload)
    | GiveUp(agent: nat)
    | Acquire(agent: nat)
    | Check(agent: nat, now: int, allowed: bool)
    | Post(agent: nat)
    | Release(agent: nat)

  /** Whether a start or update may still be shown: its episode is the running one, and its
      sample and the car's evidence are fresh. */
  predicate Current(m: ChargingMonitor.Monitor, e: Event, now: int) {
    && m.car.session != 0 && m.car.session == e.session
    && e.observedAt <= now && now - e.observedAt <= SAMPLE_MAX_AGE
    && m.car.active && m.mqttManaged && Ready(m) && Publishable(m, m.car, now, false)
  }

  /** `allowed` stands for the subscriber's own eligibility; an end needs nothing else. */
  predicate Eligible(w: World, p: Payload, now: int, allowed: bool) {
    allowed && (p.event.kind != Ended ==> p.car in w.cars && Current(w.cars[p.car].monitor, p.event, now))
  }

  function Set(w: World, i: nat, a: Agent): World
    requires i < |w.agents|
  {
    w.(agents := w.agents[i := a])
  }

  function Freed(w: World, i: nat): World
    requires i < |w.agents|
  {
    Set(w, i, Idle).(gate := None)
  }

  predicate Created(cars: map<Id, E.World>, p: Payload) { p.car in cars && p.event in cars[p.car].log }

  /** Steps that make no sense in the current state change nothing. */
  function Happens(w: World, step: Step): World {
    match step
    case Advance(car, s) => if car in w.cars then w.(cars := w.cars[car := E.Happens(w.cars[car], s)]) else w
    case Take(i, p) => if i < |w.agents| && w.agents[i] == Idle && Created(w.cars, p) then Set(w, i, Waiting(p)) else w
    case GiveUp(i) => if i < |w.agents| && w.agents[i].Waiting? then Set(w, i, Idle) else w
    case Acquire(i) =>
      if i < |w.agents| && w.agents[i].Waiting? && w.gate.None? then Set(w, i, Holding(w.agents[i].payload)).(gate := Some(i)) else w
    case Check(i, now, allowed) =>
      if i < |w.agents| && w.agents[i].Holding? then
        if Eligible(w, w.agents[i].payload, now, allowed) then Set(w, i, Recorded(w.agents[i].payload)) else Freed(w, i)
      else if i < |w.agents| && w.agents[i].Recorded? then
        if Eligible(w, w.agents[i].payload, now, allowed) then Set(w, i, Cleared(w.agents[i].payload)) else Freed(w, i)
      else w
    case Post(i) =>
      if i < |w.agents| && w.agents[i].Cleared?
      then Set(w, i, Posting(w.agents[i].payload)).(posts := w.posts + [w.agents[i].payload]) else w
    case Release(i) => if i < |w.agents| && (w.agents[i].Cleared? || w.agents[i].Posting?) then Freed(w, i) else w
  }

  function After(w: World, steps: seq<Step>): World {
    if steps == [] then w else Happens(After(w, steps[..|steps| - 1]), steps[|steps| - 1])
  }

  predicate FreshStep(w: World, step: Step) {
    step.Advance? && step.car in w.cars ==> E.Names(step.step) && E.FreshSession(w.cars[step.car], step.step)
  }

  ghost predicate FreshRun(w: World, steps: seq<Step>) {
    forall i :: 0 <= i < |steps| ==> FreshStep(After(w, steps[..i]), steps[i])
  }

  // ---------- The invariant ----------

  predicate HoldsGate(a: Agent) { a.Holding? || a.Recorded? || a.Cleared? || a.Posting? }

  predicate Checked(a: Agent) { a.Recorded? || a.Cleared? || a.Posting? }

  predicate SameEpisode(p: Payload, q: Payload) { p.car == q.car && p.event.session == q.event.session }

  /** Exactly the gate's holder is between acquiring and releasing. */
  ghost predicate OneHolder(w: World) {
    forall i :: 0 <= i < |w.agents| ==> (HoldsGate(w.agents[i]) <==> w.gate == Some(i))
  }

  predicate NoEndIn(posts: seq<Payload>, p: Payload) {
    forall k :: 0 <= k < |posts| && SameEpisode(posts[k], p) ==> posts[k].event.kind != Ended
  }

  ghost predicate CheckedInTime(w: World) {
    forall i :: 0 <= i < |w.agents| && Checked(w.agents[i]) && w.agents[i].payload.event.kind != Ended ==>
                  NoEndIn(w.posts, w.agents[i].payload)
  }

  ghost predicate AllCreated(w: World) {
    && (forall i :: 0 <= i < |w.agents| && w.agents[i] != Idle ==> Created(w.cars, w.agents[i].payload))
    && (forall k :: 0 <= k < |w.posts| ==> Created(w.cars, w.posts[k]))
  }

  /** Once the POST of an end has begun, only ends of that episode are posted. */
  ghost predicate EndsLast(posts: seq<Payload>) {
    forall i, j :: 0 <= i < j < |posts| && SameEpisode(posts[i], posts[j]) && posts[i].event.kind == Ended ==> posts[j].event.kind == Ended
  }

  ghost predicate Orderly(w: World) {
    && OneHolder(w) && CheckedInTime(w) && AllCreated(w) && EndsLast(w.posts)
    && forall car :: car in w.cars ==> E.Disciplined(w.cars[car])
  }

  /** An episode that is running has no end among what was created, so none was posted. */
  lemma CurrentHasNoEnd(w: World, p: Payload, now: int, allowed: bool)
    requires Orderly(w) && Eligible(w, p, now, allowed) && p.event.kind != Ended
    ensures NoEndIn(w.posts, p)
  {
    hide Publishable, Ready, E.Sequenced, E.Advances, E.Finished, OneHolder, CheckedInTime;
    var car := w.cars[p.car];
    assert E.Running(car.log, car.monitor.car, car.sessions);
    forall k | 0 <= k < |w.posts| && SameEpisode(w.posts[k], p)
      ensures w.posts[k].event.kind != Ended
    {
      assert Created(w.cars, w.posts[k]);
    }
  }

  lemma MonitorKeepsOrder(w: World, car: Id, s: ChargingMonitor.Step)
    requires Orderly(w) && FreshStep(w, Advance(car, s))
    ensures Orderly(Happens(w, Advance(car, s)))
  {
    if car in w.cars {
      E.StepKeepsDiscipline(w.cars[car], s);
      assert forall e :: e in w.cars[car].log ==> e in E.Happens(w.cars[car], s).log;
      hide E.Happens, E.Disciplined, NoEndIn, EndsLast, AllCreated, OneHolder, CheckedInTime;
      MonitorKeepsCreated(w, car, E.Happens(w.cars[car], s));
    }
  }

  /** What a car's monitor has created stays created, so the agents and posts stand as they did. */
  lemma MonitorKeepsCreated(w: World, car: Id, after: E.World)
    requires car in w.cars && (forall e :: e in w.cars[car].log ==> e in after.log)
    ensures var w' := w.(cars := w.cars[car := after]);
            && (AllCreated(w) ==> AllCreated(w')) && (OneHolder(w) ==> OneHolder(w')) && (CheckedInTime(w) ==> CheckedInTime(w'))
  {
    hide NoEndIn;
    var w' := w.(cars := w.cars[car := after]);
    assert forall p: Payload :: Created(w.cars, p) ==> Created(w'.cars, p);
  }

  lemma CheckKeepsOrder(w: World, i: nat, now: int, allowed: bool)
    requires Orderly(w)
    ensures Orderly(Happens(w, Check(i, now, allowed)))
  {
    hide E.Disciplined, Current, EndsLast, NoEndIn, Created;
    if i < |w.agents| && HoldsGate(w.agents[i]) {
      var p := w.agents[i].payload;
      if Eligible(w, p, now, allowed) && p.event.kind != Ended {
        CurrentHasNoEnd(w, p, now, allowed);
      }
    }
  }

  lemma PostKeepsOrder(w: World, i: nat)
    requires Orderly(w)
    ensures Orderly(Happens(w, Post(i)))
  {
    hide E.Disciplined, Created;
  }

  lemma OthersKeepOrder(w: World, step: Step)
    requires Orderly(w) && (step.Take? || step.GiveUp? || step.Acquire? || step.Release?)
    ensures Orderly(Happens(w, step))
  {
    hide E.Disciplined, EndsLast, NoEndIn, Created;
  }

  lemma {:induction false} RunsAreOrderly(w: World, steps: seq<Step>)
    requires Orderly(w) && FreshRun(w, steps)
    ensures Orderly(After(w, steps))
  {
    hide Orderly, Happens, FreshStep;
    if steps != [] {
      var before := steps[..|steps| - 1];
      assert forall i :: 0 <= i < |before| ==> before[..i] == steps[..i];
      RunsAreOrderly(w, before);
      var mid := After(w, before);
      match steps[|steps| - 1]
      case Advance(car, s) => MonitorKeepsOrder(mid, car, s);
      case Check(i, now, allowed) => CheckKeepsOrder(mid, i, now, allowed);
      case Post(i) => PostKeepsOrder(mid, i);
      case _ => OthersKeepOrder(mid, steps[|steps| - 1]);
    }
  }

  // ---------- Main result ----------

  /** Monitors whose episodes are in order, agents at rest and nothing posted. */
  ghost predicate AtRest(w: World) {
    && (forall car :: car in w.cars ==> E.Disciplined(w.cars[car])) && w.gate.None? && w.posts == []
    && forall i :: 0 <= i < |w.agents| ==> w.agents[i] == Idle
  }

  /** Once the POST of an episode's end has begun, in whatever interleaving of monitors, worker
      and outbox, no start or update of that episode is in flight or ever posted again: at any
      moment at most one agent posts, and what it posts is the end or comes before it. */
  lemma {:induction false} EndIsNeverOvertaken(w: World, steps: seq<Step>)
    requires AtRest(w) && FreshRun(w, steps)
    ensures var now := After(w, steps);
            && EndsLast(now.posts)
            && (forall i, j :: 0 <= i < |now.agents| && 0 <= j < |now.agents| && now.agents[i].Posting? && now.agents[j].Posting? ==> i == j)
            && (forall i :: 0 <= i < |now.agents| && now.agents[i].Posting? && now.agents[i].payload.event.kind != Ended ==>
                              NoEndIn(now.posts, now.agents[i].payload))
  {
    hide E.Disciplined, After;
    RunsAreOrderly(w, steps);
  }
}
