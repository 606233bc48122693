/** One run in which an episode of car 7 starts, ends while its start is being posted, and has its
    end posted next; a start that the outbox takes up again is then refused. */
module ChargingWitness {
  import opened Wrappers
  import opened ChargingMonitor
  import E = ChargingEpisodes
  import D = ChargingDelivery

  const CAR := 7

  /** Live receipts and a snapshot, each offering an episode identifier of its own. */
  function Live(field: Field, n: Id): D.Step { D.Advance(CAR, Message(field, n, false, Env(true, false, n))) }

  const SAMPLE := Snapshot(1, Some(0), Some(5), None, Some(5), true, None)
  const STARTED := D.Payload(CAR, Event(Started, 5, 1, 5, Some(5), 1))
  const ENDED := D.Payload(CAR, Event(Ended, 5, 2, 8, None, 1))

  const RECEIPTS := [Live(VehicleState(Charging), 1), Live(ChargingState(Charging), 2), Live(BatteryLevel(true), 3), Live(RatedRange(true), 4)]
  const START := [D.Advance(CAR, Snap(SAMPLE, Env(true, false, 5))), D.Take(0, STARTED), D.Acquire(0)]
  const POST := [D.Check(0, 6, true), D.Check(0, 6, true), D.Post(0)]
  const END := [Live(ChargingState(Other), 7), Live(VehicleState(Other), 8), D.Take(1, ENDED)]
  const NEXT := [D.Release(0), D.Take(0, STARTED), D.Acquire(1)]
  const POST_END := [D.Check(1, 9, true), D.Check(1, 9, true), D.Post(1)]
  const REFUSE := [D.Release(1), D.Acquire(0), D.Check(0, 9, true)]

  const IDLE := Monitor(NO_CAR, NO_BASELINE, NO_SNAPSHOT, false, false, false)
  const PLUGGED := Monitor(NO_CAR.(vehicle := Charging, charge := Charging, battery := true, range := true),
                           Baseline(true, true, Some(1), true, true, Some(2), true, true, true, false, false, false),
                           NO_SNAPSHOT, false, false, true)
  const RUNNING := PLUGGED.(observation := SAMPLE,
                            car := PLUGGED.car.(process := 1, processStarted := Some(0), active := true, session := 5, sequence := 1,
                                                lastQueued := Some(0), lastEventSampleAt := Some(5)))
  const OVER := RUNNING.(car := RUNNING.car.(vehicle := Other, charge := Other, active := false, sequence := 2,
                                             mqttTerminalProcess := 1, mqttTerminalAt := Some(8)),
                         baseline := RUNNING.baseline.(stateLiveAt := Some(8), chargeLiveAt := Some(7), seenNotCharging := true))

  const BEGUN := E.World(RUNNING, [STARTED.event], {1, 2, 3, 4, 5})
  const CLOSED := E.World(OVER, [STARTED.event, ENDED.event], {1, 2, 3, 4, 5, 7, 8})

  function Both(car: E.World, first: D.Agent, second: D.Agent, gate: Option<nat>, posts: seq<D.Payload>): D.World {
    D.World(map[CAR := car], [first, second], gate, posts)
  }

  const REST := Both(E.World(IDLE, [], {}), D.Idle, D.Idle, None, [])

  /** A run from rest that goes well and ends in `w`. */
  ghost predicate Reaches(steps: seq<D.Step>, w: D.World) { D.FreshRun(REST, steps) && D.After(REST, steps) == w }

  lemma Goes(steps: seq<D.Step>, w: D.World, step: D.Step)
    requires Reaches(steps, w) && D.FreshStep(w, step)
    ensures Reaches(steps + [step], D.Happens(w, step))
  {
    hide D.Happens, D.FreshStep;
    var all := steps + [step];
    assert all[..|steps|] == steps;
    forall i | 0 <= i < |all|
      ensures D.FreshStep(D.After(REST, all[..i]), all[i])
    {
      assert i < |steps| ==> all[..i] == steps[..i];
    }
  }

  lemma GoThree(steps: seq<D.Step>, w: D.World, more: seq<D.Step>, after: D.World)
    requires Reaches(steps, w) && |more| == 3 && D.FreshStep(w, more[0])
    requires var w1 := D.Happens(w, more[0]); var w2 := D.Happens(w1, more[1]);
             D.FreshStep(w1, more[1]) && D.FreshStep(w2, more[2]) && after == D.Happens(w2, more[2])
    ensures Reaches(steps + more, after)
  {
    hide D.Happens, D.FreshStep, Reaches;
    var w1 := D.Happens(w, more[0]);
    Goes(steps, w, more[0]);
    Goes(steps + [more[0]], w1, more[1]);
    Goes(steps + [more[0]] + [more[1]], D.Happens(w1, more[1]), more[2]);
    assert steps + more == steps + [more[0]] + [more[1]] + [more[2]];
  }

  // ---------- The car ----------

  /** A step of the car's monitor and what it makes, whatever the agents are doing. */
  lemma Advances(car: E.World, first: D.Agent, second: D.Agent, gate: Option<nat>, posts: seq<D.Payload>, step: Step, m: Monitor,
                 events: seq<Event>, after: E.World)
    requires Stepped(car.monitor, step) == (m, events) && E.Names(step) && E.FreshSession(car, step)
    requires after == E.World(m, car.log + events, car.sessions + {E.SessionOf(step)})
    ensures D.FreshStep(Both(car, first, second, gate, posts), D.Advance(CAR, step))
    ensures D.Happens(Both(car, first, second, gate, posts), D.Advance(CAR, step)) == Both(after, first, second, gate, posts)
  {
    hide Stepped;
    assert map[CAR := car][CAR := after] == map[CAR := after];
  }

  function Heard(n: Id): Monitor {
    var m := IDLE.(mqttManaged := true, car := NO_CAR.(vehicle := Charging),
                   baseline := NO_BASELINE.(stateReceived := true, stateLive := true, stateLiveAt := Some(1), liveState := true));
    if n == 1 then m
    else
      var m' := m.(car := m.car.(charge := Charging), baseline := m.baseline.(chargeReceived := true, chargeLive := true, chargeLiveAt := Some(2)));
      if n == 2 then m' else m'.(car := m'.car.(battery := true), baseline := m'.baseline.(batteryReceived := true))
  }

  lemma Hears()
    ensures Stepped(IDLE, RECEIPTS[0].step) == (Heard(1), [])
    ensures Stepped(Heard(1), RECEIPTS[1].step) == (Heard(2), [])
    ensures Stepped(Heard(2), RECEIPTS[2].step) == (Heard(3), [])
  {
  }

  lemma HearsAll()
    ensures Stepped(Heard(3), RECEIPTS[3].step) == (PLUGGED, [])
  {
  }

  lemma Opens()
    ensures Stepped(PLUGGED, START[0].step) == (RUNNING, [STARTED.event])
  {
  }

  const UNPLUGGING := RUNNING.(car := RUNNING.car.(charge := Other), baseline := RUNNING.baseline.(chargeLiveAt := Some(7)))

  lemma Unplugs()
    ensures Stepped(RUNNING, END[0].step) == (UNPLUGGING, [])
  {
  }

  lemma Closes()
    ensures Stepped(UNPLUGGING, END[1].step) == (OVER, [ENDED.event])
  {
  }

  // ---------- The run ----------

  function Listening(n: Id): E.World {
    if n == 0 then E.World(IDLE, [], {}) else if n == 1 then E.World(Heard(1), [], {1})
    else if n == 2 then E.World(Heard(2), [], {1, 2}) else if n == 3 then E.World(Heard(3), [], {1, 2, 3}) else E.World(PLUGGED, [], {1, 2, 3, 4})
  }

  function Quiet(car: E.World): D.World { Both(car, D.Idle, D.Idle, None, []) }

  lemma Hearing(n: nat)
    requires n < 4
    ensures D.FreshStep(Quiet(Listening(n)), RECEIPTS[n])
    ensures D.Happens(Quiet(Listening(n)), RECEIPTS[n]) == Quiet(Listening(n + 1))
  {
    hide Stepped, Heard;
    Hears();
    HearsAll();
    Advances(Listening(n), D.Idle, D.Idle, None, [], RECEIPTS[n].step, Listening(n + 1).monitor, [], Listening(n + 1));
  }

  lemma Plugs()
    ensures Reaches(RECEIPTS, Quiet(Listening(4)))
  {
    hide D.Happens, D.FreshStep, Listening;
    assert Quiet(Listening(0)) == REST by { Rests(); }
    Nothing();
    Hearing(0);
    Hearing(1);
    Hearing(2);
    Hearing(3);
    GoThree([], REST, RECEIPTS[..3], Quiet(Listening(3)));
    Goes([] + RECEIPTS[..3], Quiet(Listening(3)), RECEIPTS[3]);
    assert [] + RECEIPTS[..3] + [RECEIPTS[3]] == RECEIPTS;
  }

  lemma Rests()
    ensures Quiet(Listening(0)) == REST
  {
  }

  lemma Nothing()
    ensures Reaches([], REST)
  {
  }

  lemma Starts()
    ensures Reaches(RECEIPTS + START, Both(BEGUN, D.Holding(STARTED), D.Idle, Some(0), []))
  {
    hide Reaches;
    Plugs();
    Opens();
    Advances(Listening(4), D.Idle, D.Idle, None, [], START[0].step, RUNNING, [STARTED.event], BEGUN);
    hide Stepped;
    GoThree(RECEIPTS, Quiet(Listening(4)), START,
            Both(BEGUN, D.Holding(STARTED), D.Idle, Some(0), []));
  }

  lemma MayStart()
    ensures D.Current(RUNNING, STARTED.event, 6) && !D.Current(OVER, STARTED.event, 9)
  {
  }

  lemma Posts()
    ensures Reaches(RECEIPTS + START + POST, Both(BEGUN, D.Posting(STARTED), D.Idle, Some(0), [STARTED]))
  {
    hide Reaches, D.Current;
    Starts();
    MayStart();
    GoThree(RECEIPTS + START, Both(BEGUN, D.Holding(STARTED), D.Idle, Some(0), []), POST,
            Both(BEGUN, D.Posting(STARTED), D.Idle, Some(0), [STARTED]));
  }

  lemma Ends()
    ensures Reaches(RECEIPTS + START + POST + END, Both(CLOSED, D.Posting(STARTED), D.Waiting(ENDED), Some(0), [STARTED]))
  {
    hide Reaches, Stepped;
    Posts();
    Unplugs();
    Closes();
    var between := E.World(UNPLUGGING, [STARTED.event], {1, 2, 3, 4, 5, 7});
    Advances(BEGUN, D.Posting(STARTED), D.Idle, Some(0), [STARTED], END[0].step, UNPLUGGING, [], between);
    Advances(between, D.Posting(STARTED), D.Idle, Some(0), [STARTED], END[1].step, OVER, [ENDED.event], CLOSED);
    GoThree(RECEIPTS + START + POST, Both(BEGUN, D.Posting(STARTED), D.Idle, Some(0), [STARTED]), END,
            Both(CLOSED, D.Posting(STARTED), D.Waiting(ENDED), Some(0), [STARTED]));
  }

  lemma Waits()
    ensures Reaches(RECEIPTS + START + POST + END + NEXT, Both(CLOSED, D.Waiting(STARTED), D.Holding(ENDED), Some(1), [STARTED]))
  {
    hide Reaches, Stepped;
    Ends();
    GoThree(RECEIPTS + START + POST + END, Both(CLOSED, D.Posting(STARTED), D.Waiting(ENDED), Some(0), [STARTED]), NEXT,
            Both(CLOSED, D.Waiting(STARTED), D.Holding(ENDED), Some(1), [STARTED]));
  }

  /** The end of the episode is being posted, after its start: the results about delivery are
      about posts that happen. */
  lemma EndIsPosted()
    ensures D.AtRest(REST)
    ensures Reaches(RECEIPTS + START + POST + END + NEXT + POST_END,
                    Both(CLOSED, D.Waiting(STARTED), D.Posting(ENDED), Some(1), [STARTED, ENDED]))
  {
    hide Reaches, D.Current;
    Waits();
    GoThree(RECEIPTS + START + POST + END + NEXT, Both(CLOSED, D.Waiting(STARTED), D.Holding(ENDED), Some(1), [STARTED]), POST_END,
            Both(CLOSED, D.Waiting(STARTED), D.Posting(ENDED), Some(1), [STARTED, ENDED]));
  }

  /** The start that was taken up again waited for the end's POST and is then given up. */
  lemma LateStartIsRefused()
    ensures Reaches(RECEIPTS + START + POST + END + NEXT + POST_END + REFUSE,
                    Both(CLOSED, D.Idle, D.Idle, None, [STARTED, ENDED]))
  {
    hide Reaches, D.Current;
    EndIsPosted();
    MayStart();
    GoThree(RECEIPTS + START + POST + END + NEXT + POST_END,
            Both(CLOSED, D.Waiting(STARTED), D.Posting(ENDED), Some(1), [STARTED, ENDED]), REFUSE,
            Both(CLOSED, D.Idle, D.Idle, None, [STARTED, ENDED]));
  }
}
