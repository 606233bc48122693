/** One run from the start in which an episode alerts severely twice, across a reconnect. */
module LowBatteryWitness {
  import opened Wrappers
  import opened LowBattery

  const CALM := Message(Vehicle(Some(true)), false)
  const UNPLUGGED := Message(Charge(Some(false)), false)

  function At(percent: int): Step { Message(Level(Some(percent)), false) }

  /** A car of which everything has been received. */
  function Parked(percent: int, initialized: bool, latched: bool, severe: bool, episode: Id): Car {
    Car(Some(true), false, Some(false), Some(percent), initialized, latched, severe, episode, map[])
  }

  const START := [CALM, UNPLUGGED, At(50), Evaluate(1)]
  const DROP := [At(5), Evaluate(2)]
  const RECONNECT := [Reset, CALM, UNPLUGGED, At(15), Evaluate(3)]
  const AGAIN := [At(5), Evaluate(4)]

  const BEGUN := World(Parked(50, true, false, false, 0), [Saw(50), Rebased(false, 50)], {0, 1})
  const DROPPED := World(Parked(5, true, true, true, 2), BEGUN.notes + [Saw(5), Entered(2, true)], {0, 1, 2})
  const RECONNECTED := World(Parked(15, true, true, false, 2), DROPPED.notes + [Saw(15), Rebased(true, 15)], {0, 1, 2, 3})

  lemma Two(steps: seq<Step>, a: Step, b: Step)
    ensures Run(steps + [a, b]) == Happens(Happens(Run(steps), a), b)
  {
    hide Happens;
    assert steps + [a, b] == steps + [a] + [b];
  }

  lemma Begins()
    ensures Run(START) == BEGUN
  {
    Two([] + [CALM], UNPLUGGED, At(50));
    assert START == [CALM] + [UNPLUGGED, At(50)] + [Evaluate(1)];
    assert [] + [CALM] == [CALM];
  }

  lemma Drops()
    ensures Run(START + DROP) == DROPPED
  {
    Begins();
    Two(START, At(5), Evaluate(2));
  }

  lemma Reconnects()
    ensures Run(START + DROP + RECONNECT) == RECONNECTED
  {
    Drops();
    hide Happens;
    var before := START + DROP;
    Two(before, Reset, CALM);
    Two(before + [Reset, CALM], UNPLUGGED, At(15));
    Listens();
    var after := before + [Reset, CALM] + [UNPLUGGED, At(15)];
    Rebases();
    assert before + RECONNECT == after + [Evaluate(3)];
  }

  const LISTENING := World(Parked(15, false, true, true, 2), DROPPED.notes, {0, 1, 2})

  lemma Listens()
    ensures Happens(Happens(Happens(Happens(DROPPED, Reset), CALM), UNPLUGGED), At(15)) == LISTENING
  {
    hide Evaluated;
  }

  lemma Rebases()
    ensures Happens(LISTENING, Evaluate(3)) == RECONNECTED
  {
    assert Evaluated(Parked(15, false, true, true, 2), 3) == (Parked(15, true, true, false, 2), [Saw(15), Rebased(true, 15)]);
  }

  /** The claim that an episode has at most one severe alert fails here: both notes are severe
      alerts of episode 2, and the identifiers drawn are 1 to 4. */
  lemma SevereTwice()
    ensures Run(START + DROP + RECONNECT + AGAIN).notes ==
            [Saw(50), Rebased(false, 50), Saw(5), Entered(2, true), Saw(15), Rebased(true, 15), Saw(5), Escalated(2)]
    ensures SevereAgain(Entered(2, true), Escalated(2))
  {
    hide Happens, Run;
    Reconnects();
    Two(START + DROP + RECONNECT, At(5), Evaluate(4));
    Escalates();
  }

  lemma Escalates()
    ensures Happens(Happens(RECONNECTED, At(5)), Evaluate(4)).notes == RECONNECTED.notes + [Saw(5), Escalated(2)]
  {
  }
}
