/** Low-battery episodes of one car: latches with hysteresis, severe escalation, snoozes and
    reminders. */
module LowBattery {
  import opened Wrappers

  type Id = nat

  const ENTER_PERCENT := 20
  const SEVERE_PERCENT := 10
  const REARM_PERCENT := 25
  const SNOOZE_DELAY := 4 * 60 * 60 * 1000

  datatype Action = Acknowledged | Snoozed(until: int) | Cancelled | Superseded | Completed

  /** `calm` and `charging` are what a known vehicle state and charging state amount to. */
  datatype Car = Car(calm: Option<bool>, moving: bool, charging: Option<bool>, level: Option<int>, initialized: bool,
                     latched: bool, severe: bool, episode: Id, actions: map<Id, Action>)

  const NO_CAR := Car(None, false, None, None, false, false, false, 0, map[])

  /** A message by what it says; an empty payload of a primary topic says nothing. */
  datatype Reading = Nothing | Name | Vehicle(calm: Option<bool>) | Shift(moving: bool) | Charge(charging: Option<bool>)
                   | Level(percent: Option<int>)

  /** What the monitor does, in order: a complete evaluation and the level it saw, a baseline set
      instead of an alert and what it was set on, alerts and reminders, actions taken, the car's
      removal. */
  datatype Note =
    | Saw(level: int)
    | Rebased(eligible: bool, level: int)
    | Entered(episode: Id, severe: bool)
    | Escalated(episode: Id)
    | Reminded(installation: Id)
    | Took(installation: Id, snooze: bool)
    | Removed

  predicate Complete(car: Car) { car.level.Some? && car.calm.Some? && car.charging.Some? }

  predicate Eligible(car: Car) {
    Complete(car) && car.level.value < ENTER_PERCENT && !car.moving && car.calm.value && !car.charging.value
  }

  // ---------- Messages ----------

  function Received(car: Car, reading: Reading): Car {
    match reading
    case Vehicle(calm) => car.(calm := calm)
    case Shift(moving) => car.(moving := moving)
    case Charge(charging) => car.(charging := charging)
    case Level(percent) => car.(level := percent)
    case _ => car
  }

  predicate ValidLevel(percent: Option<int>) { percent.Some? && 0 <= percent.value <= 100 }

  function Messaged(car: Car, reading: Reading, retained: bool): Car {
    if reading.Nothing? then car
    else if reading.Level? && !ValidLevel(reading.percent) then car.(level := None, initialized := false)
    else
      var read := Received(car, reading);
      read.(initialized := read.initialized && !retained && read.calm.Some? && read.charging.Some?)
  }

  function BaselineReset(car: Car): Car {
    car.(initialized := false, calm := None, moving := false, charging := None, level := None)
  }

  // ---------- Evaluation ----------

  function Rearmed(car: Car): Car
    requires car.level.Some?
  {
    if car.level.value >= REARM_PERCENT then car.(latched := false, severe := false, episode := 0, actions := map[]) else car
  }

  predicate IsSevere(car: Car)
    requires car.level.Some?
  {
    car.level.value < SEVERE_PERCENT
  }

  /** The first complete evaluation of a baseline: an episode may begin, but silently. */
  function Baselined(car: Car, episode: Id): Car
    requires car.level.Some?
  {
    var armed := Rearmed(car.(initialized := true));
    if !Eligible(car) then armed
    else
      var low := armed.(latched := true, severe := IsSevere(car));
      if low.episode == 0 then low.(episode := episode, actions := map[]) else low
  }

  /** What an evaluation does to every snooze. */
  function Unsnoozed(actions: map<Id, Action>, to: Action): map<Id, Action> {
    map i | i in actions :: if actions[i].Snoozed? then to else actions[i]
  }

  function Evaluated(car: Car, episode: Id): (Car, seq<Note>) {
    if !Complete(car) then (car, [])
    else if !car.initialized then (Baselined(car, episode), [Saw(car.level.value), Rebased(Eligible(car), car.level.value)])
    else
      var armed := Rearmed(car);
      var quiet := if car.charging.value then armed.(actions := Unsnoozed(armed.actions, Cancelled)) else armed;
      if Eligible(car) && !quiet.latched then
        (quiet.(latched := true, severe := IsSevere(car), episode := episode, actions := map[]),
         [Saw(car.level.value), Entered(episode, IsSevere(car))])
      else if Eligible(car) && quiet.latched && IsSevere(car) && !quiet.severe then
        (quiet.(severe := true, actions := Unsnoozed(quiet.actions, Superseded)), [Saw(car.level.value), Escalated(quiet.episode)])
      else (quiet, [Saw(car.level.value)])
  }

  // ---------- Actions and reminders ----------

  function Acted(car: Car, installation: Id, episode: Id, snooze: bool, now: int): (Car, seq<Note>) {
    if episode == 0 || car.episode != episode || !car.latched then (car, [])
    else (car.(actions := car.actions[installation := if snooze then Snoozed(now + SNOOZE_DELAY) else Acknowledged]),
          [Took(installation, snooze)])
  }

  predicate Due(car: Car, installation: Id, now: int) {
    installation in car.actions && car.actions[installation].Snoozed? && car.actions[installation].until <= now
  }

  predicate CanRemind(car: Car, inFleet: bool) { car.initialized && Complete(car) && inFleet }

  /** One installation's turn: a snooze that is over is completed, and reminds if the episode
      still stands. */
  function ReminderTurn(car: Car, installation: Id, now: int): (Car, seq<Note>) {
    if !Due(car, installation, now) then (car, [])
    else (car.(actions := car.actions[installation := Completed]),
          if car.latched && Eligible(car) then [Note.Reminded(installation)] else [])
  }

  /** The installations are visited in the order given. */
  function RemindersDone(car: Car, order: seq<Id>, now: int): (Car, seq<Note>) {
    if order == [] then (car, [])
    else
      var (before, notes) := RemindersDone(car, order[..|order| - 1], now);
      var (after, more) := ReminderTurn(before, order[|order| - 1], now);
      (after, notes + more)
  }

  // ---------- Whole runs ----------

  datatype Step =
    | Message(reading: Reading, retained: bool)
    | Reset
    | Evaluate(episode: Id)
    | Act(installation: Id, episode: Id, snooze: bool, now: int)
    | Remind(order: seq<Id>, inFleet: bool, now: int)
    | Remove

  function Stepped(car: Car, step: Step): (Car, seq<Note>) {
    match step
    case Message(reading, retained) => (Messaged(car, reading, retained), [])
    case Reset => (BaselineReset(car), [])
    case Evaluate(episode) => Evaluated(car, episode)
    case Act(installation, episode, snooze, now) => Acted(car, installation, episode, snooze, now)
    case Remind(order, inFleet, now) => if CanRemind(car, inFleet) then RemindersDone(car, order, now) else (car, [])
    case Remove => (NO_CAR, [Removed])
  }

  datatype World = World(car: Car, notes: seq<Note>, episodes: set<Id>)

  function EpisodeOf(step: Step): Id { if step.Evaluate? then step.episode else 0 }

  function Happens(w: World, step: Step): World {
    var (car, notes) := Stepped(w.car, step);
    World(car, w.notes + notes, w.episodes + {EpisodeOf(step)})
  }

  const FIRST := World(NO_CAR, [], {0})

  function Run(steps: seq<Step>): World {
    if steps == [] then FIRST else Happens(Run(steps[..|steps| - 1]), steps[|steps| - 1])
  }

  /** Episode identifiers are not drawn twice. */
  predicate FreshEpisode(w: World, step: Step) { step.Evaluate? ==> step.episode !in w.episodes }

  ghost predicate FreshRun(steps: seq<Step>) {
    forall i :: 0 <= i < |steps| ==> FreshEpisode(Run(steps[..i]), steps[i])
  }

  // ---------- Hysteresis ----------

  /** Something that lets a new entry alert come: a rearming level, or the car's removal. */
  predicate Rearms(n: Note) { (n.Saw? && n.level >= REARM_PERCENT) || n.Removed? }

  /** After note `i`. */
  predicate RearmedSince(notes: seq<Note>, i: nat) { exists k :: i < k < |notes| && Rearms(notes[k]) }

  /** A baseline set on an eligible car that is low but not severely so. */
  predicate Forgets(n: Note) { n.Rebased? && n.eligible && SEVERE_PERCENT <= n.level < ENTER_PERCENT }

  predicate ForgottenSince(notes: seq<Note>, i: nat) { exists k :: i < k < |notes| && Forgets(notes[k]) }

  ghost predicate EntriesApart(notes: seq<Note>) {
    forall i, j :: 0 <= i < j < |notes| && notes[i].Entered? && notes[j].Entered? ==> RearmedSince(notes[..j], i)
  }

  /** While the car is not latched, every entry has been rearmed since. */
  ghost predicate Latching(car: Car, notes: seq<Note>) {
    !car.latched ==> forall i :: 0 <= i < |notes| && notes[i].Entered? ==> RearmedSince(notes, i)
  }

  // ---------- Severe alerts ----------

  predicate SevereOf(n: Note, episode: Id) {
    (n.Entered? && n.episode == episode && n.severe) || (n.Escalated? && n.episode == episode)
  }

  predicate SevereAgain(n: Note, later: Note) {
    (later.Entered? || later.Escalated?) && SevereOf(later, later.episode) && SevereOf(n, later.episode)
  }

  ghost predicate SevereApart(notes: seq<Note>) {
    forall i, j :: 0 <= i < j < |notes| && SevereAgain(notes[i], notes[j]) ==> ForgottenSince(notes[..j], i)
  }

  /** While severe is not latched, the running episode's severe alerts have been forgotten since. */
  ghost predicate SevereLatching(car: Car, notes: seq<Note>) {
    car.latched && !car.severe ==>
      forall i :: 0 <= i < |notes| && SevereOf(notes[i], car.episode) ==> ForgottenSince(notes, i)
  }

  ghost predicate OneEntryEach(notes: seq<Note>) {
    forall i, j :: 0 <= i < j < |notes| && notes[i].Entered? && notes[j].Entered? ==> notes[i].episode != notes[j].episode
  }

  ghost predicate Episodic(car: Car, notes: seq<Note>, episodes: set<Id>) {
    && 0 in episodes && car.episode in episodes && (car.latched ==> car.episode != 0)
    && forall i :: 0 <= i < |notes| && (notes[i].Entered? || notes[i].Escalated?) ==> notes[i].episode in episodes
  }

  ghost predicate Hysteretic(w: World) {
    && EntriesApart(w.notes) && Latching(w.car, w.notes) && SevereApart(w.notes) && SevereLatching(w.car, w.notes)
    && OneEntryEach(w.notes) && Episodic(w.car, w.notes, w.episodes)
  }

  // ---------- One note more ----------

  lemma SinceGrows(notes: seq<Note>, n: Note, i: nat)
    requires i < |notes|
    ensures RearmedSince(notes, i) || Rearms(n) ==> RearmedSince(notes + [n], i)
    ensures ForgottenSince(notes, i) || Forgets(n) ==> ForgottenSince(notes + [n], i)
  {
    if RearmedSince(notes, i) {
      var k :| i < k < |notes| && Rearms(notes[k]);
      assert (notes + [n])[k] == notes[k];
    }
    if ForgottenSince(notes, i) {
      var k :| i < k < |notes| && Forgets(notes[k]);
      assert (notes + [n])[k] == notes[k];
    }
    assert (notes + [n])[|notes|] == n;
  }

  /** A note that is not an alert. */
  lemma PlainNote(notes: seq<Note>, n: Note)
    requires EntriesApart(notes) && SevereApart(notes) && OneEntryEach(notes) && !n.Entered? && !n.Escalated?
    ensures EntriesApart(notes + [n]) && SevereApart(notes + [n]) && OneEntryEach(notes + [n])
  {
    hide RearmedSince, ForgottenSince;
    assert forall j :: 0 <= j < |notes| ==> (notes + [n])[..j] == notes[..j];
  }

  lemma PlainLatching(car: Car, notes: seq<Note>, n: Note)
    requires !n.Entered? && !n.Escalated?
    ensures Latching(car, notes) || Rearms(n) ==> Latching(car, notes + [n])
    ensures SevereLatching(car, notes) || Forgets(n) ==> SevereLatching(car, notes + [n])
  {
    hide RearmedSince, ForgottenSince;
    forall i | 0 <= i < |notes|
      ensures RearmedSince(notes, i) || Rearms(n) ==> RearmedSince(notes + [n], i)
      ensures ForgottenSince(notes, i) || Forgets(n) ==> ForgottenSince(notes + [n], i)
    {
      SinceGrows(notes, n, i);
    }
  }

  lemma EntryNote(notes: seq<Note>, episode: Id, severe: bool, episodes: set<Id>)
    requires EntriesApart(notes) && SevereApart(notes) && OneEntryEach(notes)
    requires forall i :: 0 <= i < |notes| && notes[i].Entered? ==> RearmedSince(notes, i)
    requires episode !in episodes
    requires forall i :: 0 <= i < |notes| && (notes[i].Entered? || notes[i].Escalated?) ==> notes[i].episode in episodes
    ensures var more := notes + [Entered(episode, severe)]; EntriesApart(more) && SevereApart(more) && OneEntryEach(more)
    ensures forall i :: 0 <= i < |notes| ==> !SevereOf(notes[i], episode)
  {
    hide RearmedSince, ForgottenSince;
    var more := notes + [Entered(episode, severe)];
    assert forall j :: 0 <= j < |notes| ==> more[..j] == notes[..j];
    assert more[..|notes|] == notes;
  }

  lemma EscalationNote(notes: seq<Note>, episode: Id)
    requires EntriesApart(notes) && SevereApart(notes) && OneEntryEach(notes)
    requires forall i :: 0 <= i < |notes| && SevereOf(notes[i], episode) ==> ForgottenSince(notes, i)
    ensures var more := notes + [Escalated(episode)]; EntriesApart(more) && SevereApart(more) && OneEntryEach(more)
  {
    hide RearmedSince, ForgottenSince;
    var more := notes + [Escalated(episode)];
    assert forall j :: 0 <= j < |notes| ==> more[..j] == notes[..j];
    assert more[..|notes|] == notes;
  }

  // ---------- One step ----------

  /** The latch as it was, possibly one plain note more. */
  lemma PlainKeepsHysteresis(w: World, car: Car, n: Note, episodes: set<Id>)
    requires Hysteretic(w) && !n.Entered? && !n.Escalated? && w.episodes <= episodes && car.episode in episodes
    requires (car.latched == w.car.latched && car.severe == w.car.severe && car.episode == w.car.episode)
             || (!car.latched && Rearms(n))
             || (n.Rebased? && car.latched && car.episode != 0 && (car.severe || Forgets(n)))
    ensures Hysteretic(World(car, w.notes + [n], episodes))
  {
    hide RearmedSince, ForgottenSince, EntriesApart, SevereApart, OneEntryEach, Rearms, SevereOf, Forgets;
    PlainNote(w.notes, n);
    PlainLatching(w.car, w.notes, n);
    PlainLatching(car, w.notes, n);
  }

  lemma QuietKeepsHysteresis(w: World, car: Car, episodes: set<Id>)
    requires Hysteretic(w) && w.episodes <= episodes
    requires car.latched == w.car.latched && car.severe == w.car.severe && car.episode == w.car.episode
    ensures Hysteretic(World(car, w.notes, episodes))
  {
    hide RearmedSince, ForgottenSince, EntriesApart, SevereApart, OneEntryEach;
  }

  lemma EntryKeepsHysteresis(w: World, car: Car, severe: bool)
    requires Hysteretic(w) && !w.car.latched && car.latched && car.severe == severe && car.episode !in w.episodes
    ensures Hysteretic(World(car, w.notes + [Entered(car.episode, severe)], w.episodes + {car.episode}))
  {
    hide RearmedSince, ForgottenSince, EntriesApart, SevereApart, OneEntryEach;
    EntryNote(w.notes, car.episode, severe, w.episodes);
  }

  lemma EscalationKeepsHysteresis(w: World, car: Car, episodes: set<Id>)
    requires Hysteretic(w) && w.car.latched && !w.car.severe && w.episodes <= episodes
    requires car.latched && car.severe && car.episode == w.car.episode
    ensures Hysteretic(World(car, w.notes + [Escalated(car.episode)], episodes))
  {
    hide RearmedSince, ForgottenSince, EntriesApart, SevereApart, OneEntryEach;
    EscalationNote(w.notes, car.episode);
  }

  lemma EvaluatingKeepsHysteresis(w: World, episode: Id)
    requires Hysteretic(w) && episode !in w.episodes
    ensures Hysteretic(Happens(w, Evaluate(episode)))
  {
    hide Hysteretic;
    var car := w.car;
    var (car', notes) := Evaluated(car, episode);
    var episodes := w.episodes + {episode};
    assert car.episode in w.episodes && 0 in w.episodes && (car.latched ==> car.episode != 0) by { HystereticIsEpisodic(w); }
    if !Complete(car) {
      assert w.notes + notes == w.notes;
      QuietKeepsHysteresis(w, car', episodes);
    } else {
      var level := car.level.value;
      var seen := w.(car := if level >= REARM_PERCENT then Rearmed(car) else car, notes := w.notes + [Saw(level)]);
      PlainKeepsHysteresis(w, seen.car, Saw(level), w.episodes);
      if !car.initialized {
        PlainKeepsHysteresis(seen, car', notes[1], episodes);
        assert w.notes + notes == seen.notes + [notes[1]];
      } else if |notes| == 1 {
        QuietKeepsHysteresis(seen, car', episodes);
      } else if notes[1].Entered? {
        EntryKeepsHysteresis(seen, car', IsSevere(car));
        assert w.notes + notes == seen.notes + [notes[1]];
      } else {
        EscalationKeepsHysteresis(seen, car', episodes);
        assert w.notes + notes == seen.notes + [notes[1]];
      }
    }
  }

  lemma HystereticIsEpisodic(w: World)
    requires Hysteretic(w)
    ensures Episodic(w.car, w.notes, w.episodes)
  {
  }

  lemma {:induction false} RemindingKeepsHysteresis(w: World, order: seq<Id>, now: int, episodes: set<Id>)
    requires Hysteretic(w) && w.episodes <= episodes
    ensures var (car, notes) := RemindersDone(w.car, order, now);
            && Hysteretic(World(car, w.notes + notes, episodes))
            && car.latched == w.car.latched && car.severe == w.car.severe && car.episode == w.car.episode
  {
    hide Hysteretic, Eligible, Due;
    if order == [] {
      assert w.notes + [] == w.notes;
      QuietKeepsHysteresis(w, w.car, episodes);
    } else {
      var before := order[..|order| - 1];
      RemindingKeepsHysteresis(w, before, now, episodes);
      var (car, notes) := RemindersDone(w.car, before, now);
      var mid := World(car, w.notes + notes, episodes);
      var (car', more) := ReminderTurn(car, order[|order| - 1], now);
      HystereticIsEpisodic(mid);
      if more == [] {
        QuietKeepsHysteresis(mid, car', episodes);
        assert w.notes + (notes + more) == mid.notes;
      } else {
        PlainKeepsHysteresis(mid, car', more[0], episodes);
        assert w.notes + (notes + more) == mid.notes + [more[0]];
      }
    }
  }

  lemma StepKeepsHysteresis(w: World, step: Step)
    requires Hysteretic(w) && FreshEpisode(w, step)
    ensures Hysteretic(Happens(w, step))
  {
    hide Hysteretic, Eligible, Evaluated, RemindersDone, ValidLevel;
    HystereticIsEpisodic(w);
    var (car, notes) := Stepped(w.car, step);
    match step
    case Evaluate(episode) => EvaluatingKeepsHysteresis(w, episode);
    case Remind(order, inFleet, now) =>
      if CanRemind(w.car, inFleet) {
        RemindingKeepsHysteresis(w, order, now, w.episodes + {0});
      } else {
        assert w.notes + notes == w.notes;
        QuietKeepsHysteresis(w, car, w.episodes + {0});
      }
    case Remove => PlainKeepsHysteresis(w, car, Removed, w.episodes + {0});
    case Act(_, _, _, _) =>
      if notes == [] {
        assert w.notes + notes == w.notes;
        QuietKeepsHysteresis(w, car, w.episodes + {0});
      } else {
        PlainKeepsHysteresis(w, car, notes[0], w.episodes + {0});
      }
    case _ =>
      assert w.notes + notes == w.notes;
      QuietKeepsHysteresis(w, car, w.episodes + {0});
  }

  /** Main result: between two entry alerts some evaluation saw at least 25 percent, or the car
      was removed, across any resets, retained replays and invalid readings; an episode has at
      most one entry alert; and two severe alerts of one episode have a rebaseline between them
      that found the car eligible at ten to nineteen percent. */
  lemma {:induction false} RunsAreHysteretic(steps: seq<Step>)
    requires FreshRun(steps)
    ensures Hysteretic(Run(steps))
  {
    if steps != [] {
      var before := steps[..|steps| - 1];
      assert forall i :: 0 <= i < |before| ==> before[..i] == steps[..i];
      assert FreshEpisode(Run(before), steps[|steps| - 1]);
      hide Hysteretic, Happens, FreshEpisode;
      RunsAreHysteretic(before);
      StepKeepsHysteresis(Run(before), steps[|steps| - 1]);
    }
  }

  /** What a rebaseline does to a severe episode, exactly: it forgets that the severe alert was
      given when it finds the car eligible and not below ten percent. */
  lemma RebaselineForgetsSevere(car: Car, episode: Id)
    requires car.latched && car.severe && car.episode != 0 && !car.initialized && Complete(car)
    ensures var (after, notes) := Evaluated(car, episode);
            && (after.latched && after.episode == car.episode && !after.severe
                <==> Eligible(car) && SEVERE_PERCENT <= car.level.value)
            && (exists k :: 0 <= k < |notes| && Forgets(notes[k])) == (Eligible(car) && SEVERE_PERCENT <= car.level.value)
  {
    var notes := Evaluated(car, episode).1;
    assert notes == [Saw(car.level.value), Rebased(Eligible(car), car.level.value)];
    assert Forgets(notes[1]) == (Eligible(car) && SEVERE_PERCENT <= car.level.value);
  }

  /** And then, and only then, the next evaluation that finds it severely low alerts again: `later`
      is the car at that evaluation, whatever it has received since the rebaseline. */
  lemma RebaselineRepeatsSevere(car: Car, episode: Id, later: Car, next: Id)
    requires car.latched && car.severe && car.episode != 0 && !car.initialized && Complete(car)
    requires var after := Evaluated(car, episode).0;
             later.latched == after.latched && later.severe == after.severe && later.episode == after.episode
    requires later.initialized && Eligible(later) && IsSevere(later)
    ensures Escalated(car.episode) in Evaluated(later, next).1 <==> Eligible(car) && SEVERE_PERCENT <= car.level.value
  {
    RebaselineForgetsSevere(car, episode);
  }

  // ---------- Reminders ----------

  predicate AskedSince(notes: seq<Note>, i: nat, installation: Id) { exists k :: i < k < |notes| && notes[k] == Took(installation, true) }

  /** Between two reminders of an installation it has asked for a snooze again. */
  ghost predicate RemindersApart(notes: seq<Note>) {
    forall i, j :: 0 <= i < j < |notes| && notes[j].Reminded? && notes[i] == notes[j] ==> AskedSince(notes[..j], i, notes[j].installation)
  }

  predicate Snoozing(actions: map<Id, Action>, installation: Id) { installation in actions && actions[installation].Snoozed? }

  /** A snooze that is running was asked for after every reminder of its installation. */
  ghost predicate SnoozesAsked(actions: map<Id, Action>, notes: seq<Note>) {
    forall i, installation :: 0 <= i < |notes| && notes[i] == Reminded(installation) && Snoozing(actions, installation)
                              ==> AskedSince(notes, i, installation)
  }

  lemma AskedGrows(notes: seq<Note>, n: Note, i: nat, installation: Id)
    requires i < |notes|
    ensures AskedSince(notes, i, installation) || n == Took(installation, true) ==> AskedSince(notes + [n], i, installation)
  {
    if AskedSince(notes, i, installation) {
      var k :| i < k < |notes| && notes[k] == Took(installation, true);
      assert (notes + [n])[k] == notes[k];
    }
    assert (notes + [n])[|notes|] == n;
  }

  /** Every snooze that runs afterwards ran before, or is the one just asked for. */
  ghost predicate NoNewSnooze(before: map<Id, Action>, after: map<Id, Action>, n: Note) {
    forall i :: Snoozing(after, i) ==> n == Took(i, true) || (Snoozing(before, i) && n != Reminded(i))
  }

  lemma NoteKeepsReminders(before: map<Id, Action>, after: map<Id, Action>, notes: seq<Note>, n: Note)
    requires RemindersApart(notes) && SnoozesAsked(before, notes) && NoNewSnooze(before, after, n)
    requires n.Reminded? ==> Snoozing(before, n.installation)
    ensures RemindersApart(notes + [n]) && SnoozesAsked(after, notes + [n])
  {
    hide AskedSince;
    var more := notes + [n];
    assert forall j :: 0 <= j < |notes| ==> more[..j] == notes[..j];
    assert more[..|notes|] == notes;
    forall i, installation | 0 <= i < |more| && more[i] == Reminded(installation) && Snoozing(after, installation)
      ensures AskedSince(more, i, installation)
    {
      if i < |notes| {
        AskedGrows(notes, n, i, installation);
      }
    }
  }

  lemma {:induction false} RemindingKeepsReminders(car: Car, notes: seq<Note>, order: seq<Id>, now: int)
    requires RemindersApart(notes) && SnoozesAsked(car.actions, notes)
    ensures var (car', more) := RemindersDone(car, order, now); RemindersApart(notes + more) && SnoozesAsked(car'.actions, notes + more)
  {
    hide RemindersApart, SnoozesAsked, Eligible;
    if order == [] {
      assert notes + [] == notes;
    } else {
      var before := order[..|order| - 1];
      RemindingKeepsReminders(car, notes, before, now);
      var (mid, so) := RemindersDone(car, before, now);
      var (after, more) := ReminderTurn(mid, order[|order| - 1], now);
      if more != [] {
        NoteKeepsReminders(mid.actions, after.actions, notes + so, more[0]);
        assert notes + (so + more) == (notes + so) + [more[0]];
      } else {
        assert notes + (so + more) == notes + so;
        FewerSnoozes(mid.actions, after.actions, notes + so);
      }
    }
  }

  lemma FewerSnoozes(before: map<Id, Action>, after: map<Id, Action>, notes: seq<Note>)
    requires SnoozesAsked(before, notes) && forall i :: Snoozing(after, i) ==> Snoozing(before, i)
    ensures SnoozesAsked(after, notes)
  {
    hide AskedSince;
  }

  lemma EvaluatingKeepsReminders(w: World, episode: Id)
    requires RemindersApart(w.notes) && SnoozesAsked(w.car.actions, w.notes)
    ensures RemindersApart(Happens(w, Evaluate(episode)).notes)
    ensures SnoozesAsked(Happens(w, Evaluate(episode)).car.actions, Happens(w, Evaluate(episode)).notes)
  {
    hide RemindersApart, SnoozesAsked, Eligible;
    var (car', notes) := Evaluated(w.car, episode);
    if notes == [] {
      assert w.notes + notes == w.notes;
    } else {
      NoteKeepsReminders(w.car.actions, w.car.actions, w.notes, notes[0]);
      if |notes| == 1 {
        assert w.notes + notes == w.notes + [notes[0]];
        FewerSnoozes(w.car.actions, car'.actions, w.notes + [notes[0]]);
      } else {
        NoteKeepsReminders(w.car.actions, car'.actions, w.notes + [notes[0]], notes[1]);
        assert w.notes + notes == w.notes + [notes[0]] + [notes[1]];
      }
    }
  }

  lemma StepKeepsReminders(w: World, step: Step)
    requires RemindersApart(w.notes) && SnoozesAsked(w.car.actions, w.notes)
    ensures RemindersApart(Happens(w, step).notes) && SnoozesAsked(Happens(w, step).car.actions, Happens(w, step).notes)
  {
    hide RemindersApart, SnoozesAsked, Evaluated, RemindersDone, ValidLevel, Eligible;
    var (car, notes) := Stepped(w.car, step);
    match step
    case Evaluate(episode) => EvaluatingKeepsReminders(w, episode);
    case Remind(order, inFleet, now) =>
      RemindingKeepsReminders(w.car, w.notes, order, now);
      assert w.notes + [] == w.notes;
    case Remove => NoteKeepsReminders(w.car.actions, car.actions, w.notes, Removed);
    case Act(_, _, _, _) =>
      if notes == [] {
        assert w.notes + notes == w.notes;
      } else {
        NoteKeepsReminders(w.car.actions, car.actions, w.notes, notes[0]);
      }
    case _ => assert w.notes + notes == w.notes;
  }

  /** Each snooze gives an installation at most one reminder, over any run. */
  lemma {:induction false} OneReminderPerSnooze(steps: seq<Step>)
    ensures RemindersApart(Run(steps).notes) && SnoozesAsked(Run(steps).car.actions, Run(steps).notes)
  {
    hide RemindersApart, SnoozesAsked, Happens;
    if steps == [] {
      NothingReminded();
    } else {
      OneReminderPerSnooze(steps[..|steps| - 1]);
      StepKeepsReminders(Run(steps[..|steps| - 1]), steps[|steps| - 1]);
    }
  }

  lemma NothingReminded()
    ensures RemindersApart([]) && SnoozesAsked(map[], [])
  {
  }
}
