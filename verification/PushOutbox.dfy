/** The durable outbox of undelivered pushes: queueing, retrying and forgetting them, also while
    a retry pass has let go of the mutex. Times are milliseconds; stored ones are whole seconds. */
module PushOutbox {
  import opened Wrappers

  type Id = nat

  const MAX_ITEMS := 256
  const RETRY_DELAY := 2000
  const MAX_RETRY_DELAY := 15 * 60 * 1000

  datatype Kind = LiveUpdate | LiveStart | Alert | LiveEnd | Plain

  datatype Item = Item(id: Id, installation: Id, kind: Kind, attempts: nat, next: int, expires: int)

  function Life(kind: Kind): int {
    match kind
    case LiveUpdate => 10 * 60 * 1000
    case LiveStart => 30 * 60 * 1000
    case Alert => 60 * 60 * 1000
    case LiveEnd => 2 * 60 * 60 * 1000
    case Plain => 24 * 60 * 60 * 1000
  }

  function Max(a: int, b: int): int { if a < b then b else a }

  /** A time as it is stored. */
  function Whole(t: int): int { t - t % 1000 }

  // ---------- Rewriting the items in place ----------

  /** Each item is kept, changed or dropped, in order. */
  function Rewritten(items: seq<Item>, f: Item -> Option<Item>): seq<Item> {
    if items == [] then []
    else
      var last := f(items[|items| - 1]);
      Rewritten(items[..|items| - 1], f) + if last.Some? then [last.value] else []
  }

  /** The same event for the same installation, living no longer. */
  predicate Same(a: Item, b: Item) { a.id == b.id && a.installation == b.installation && a.expires == b.expires }

  ghost predicate Faithful(f: Item -> Option<Item>) {
    forall i: Item :: f(i).Some? ==> Same(i, f(i).value)
  }

  ghost predicate Unique(items: seq<Item>) { forall i, j :: 0 <= i < j < |items| ==> items[i].id != items[j].id }

  predicate From(items: seq<Item>, item: Item) { exists k :: 0 <= k < |items| && Same(items[k], item) }

  /** Nothing is added, doubled or given a longer life. */
  ghost predicate Thins(before: seq<Item>, after: seq<Item>) {
    && |after| <= |before| && (Unique(before) ==> Unique(after))
    && forall j :: 0 <= j < |after| ==> From(before, after[j])
  }

  lemma ThinsIsTransitive(a: seq<Item>, b: seq<Item>, c: seq<Item>)
    requires Thins(a, b) && Thins(b, c)
    ensures Thins(a, c)
  {
    forall j | 0 <= j < |c|
      ensures From(a, c[j])
    {
      assert From(b, c[j]);
      var k :| 0 <= k < |b| && Same(b[k], c[j]);
      assert From(a, b[k]);
    }
  }

  lemma {:induction false} RewritingKeepsEach(items: seq<Item>, f: Item -> Option<Item>, j: nat) returns (k: nat)
    requires j < |Rewritten(items, f)|
    ensures k < |items| && f(items[k]) == Some(Rewritten(items, f)[j]) && j <= k
  {
    var before := items[..|items| - 1];
    if j < |Rewritten(before, f)| {
      k := RewritingKeepsEach(before, f, j);
    } else {
      RewritingIsNotLonger(before, f);
      k := |items| - 1;
    }
  }

  lemma {:induction false} RewritingIsNotLonger(items: seq<Item>, f: Item -> Option<Item>)
    ensures |Rewritten(items, f)| <= |items|
  {
    if items != [] {
      RewritingIsNotLonger(items[..|items| - 1], f);
    }
  }

  lemma {:induction false} RewritingKeepsUnique(items: seq<Item>, f: Item -> Option<Item>)
    requires Faithful(f) && Unique(items)
    ensures Unique(Rewritten(items, f))
  {
    if items != [] {
      var before := items[..|items| - 1];
      RewritingKeepsUnique(before, f);
      forall i | 0 <= i < |Rewritten(before, f)|
        ensures Rewritten(before, f)[i].id != items[|items| - 1].id
      {
        var k := RewritingKeepsEach(before, f, i);
      }
    }
  }

  lemma RewritingThins(items: seq<Item>, f: Item -> Option<Item>)
    requires Faithful(f)
    ensures Thins(items, Rewritten(items, f))
  {
    RewritingIsNotLonger(items, f);
    if Unique(items) {
      RewritingKeepsUnique(items, f);
    }
    forall j | 0 <= j < |Rewritten(items, f)|
      ensures From(items, Rewritten(items, f)[j])
    {
      var k := RewritingKeepsEach(items, f, j);
    }
  }

  /** Two changes one after the other. */
  function Then(f: Item -> Option<Item>, g: Item -> Option<Item>): Item -> Option<Item> {
    (i: Item) => var kept := f(i); if kept.None? then None else g(kept.value)
  }

  lemma {:induction false} RewritingTwice(items: seq<Item>, f: Item -> Option<Item>, g: Item -> Option<Item>)
    ensures Rewritten(Rewritten(items, f), g) == Rewritten(items, Then(f, g))
  {
    if items != [] {
      var before, last := items[..|items| - 1], items[|items| - 1];
      RewritingTwice(before, f, g);
      if f(last).None? {
        assert Rewritten(items, f) == Rewritten(before, f);
      }
    }
  }

  lemma {:induction false} RewritingAgrees(items: seq<Item>, f: Item -> Option<Item>, g: Item -> Option<Item>)
    requires forall k :: 0 <= k < |items| ==> f(items[k]) == g(items[k])
    ensures Rewritten(items, f) == Rewritten(items, g)
  {
    if items != [] {
      RewritingAgrees(items[..|items| - 1], f, g);
    }
  }

  lemma {:induction false} RewritingIgnores(items: seq<Item>, k: nat, item: Item, f: Item -> Option<Item>)
    requires k < |items| && f(items[k]) == None == f(item)
    ensures Rewritten(items[k := item], f) == Rewritten(items, f)
  {
    var n := |items| - 1;
    if k < n {
      RewritingIgnores(items[..n], k, item, f);
      assert items[k := item][..n] == items[..n][k := item] && items[k := item][n] == items[n];
    } else {
      assert items[k := item][..n] == items[..n] && items[k := item][n] == item;
    }
  }

  lemma {:induction false} RewritingHas(items: seq<Item>, f: Item -> Option<Item>, j: nat) returns (k: nat)
    requires j < |items| && f(items[j]).Some?
    ensures k < |Rewritten(items, f)| && Rewritten(items, f)[k] == f(items[j]).value
  {
    var n := |items| - 1;
    if j < n {
      k := RewritingHas(items[..n], f, j);
    } else {
      k := |Rewritten(items[..n], f)|;
    }
  }

  // ---------- Operations ----------

  /** The position of the first item with this identifier, or the length. */
  function First(items: seq<Item>, id: Id): nat {
    if items == [] then 0
    else
      var before := First(items[..|items| - 1], id);
      if before < |items| - 1 || items[|items| - 1].id == id then before else |items|
  }

  lemma {:induction false} FirstIsAt(items: seq<Item>, id: Id, index: nat)
    requires index <= |items| && (index < |items| ==> items[index].id == id)
    requires forall k :: 0 <= k < index ==> items[k].id != id
    ensures First(items, id) == index
    decreases |items|
  {
    if items != [] {
      FirstIsAt(items[..|items| - 1], id, if index < |items| then index else |items| - 1);
    }
  }

  lemma {:induction false} FirstFinds(items: seq<Item>, id: Id, k: nat)
    requires k < |items|
    ensures First(items, id) <= |items| && (k < First(items, id) ==> items[k].id != id)
    ensures First(items, id) < |items| ==> items[First(items, id)].id == id
  {
    var before := items[..|items| - 1];
    if before != [] {
      FirstFinds(before, id, if k < |before| then k else 0);
    }
  }

  /** An event that is queued again keeps its place and its expiry and waits no shorter. */
  function Enqueued(items: seq<Item>, id: Id, installation: Id, kind: Kind, now: int, retryAfter: int): (seq<Item>, bool) {
    var next := Whole(now + Max(RETRY_DELAY, retryAfter));
    var k := First(items, id);
    if k < |items| then (items[k := items[k].(kind := kind, next := Max(items[k].next, next))], true)
    else if |items| >= MAX_ITEMS then (items, false)
    else (items + [Item(id, installation, kind, 0, next, Whole(now + Life(kind)))], true)
  }

  function Drop(id: Id): Item -> Option<Item> {
    (i: Item) => if i.id == id then None else Some(i)
  }

  /** Only events for these installations stay. */
  function KeepFor(keeps: Id -> bool): Item -> Option<Item> {
    (i: Item) => if keeps(i.installation) then Some(i) else None
  }

  function AllBut(installation: Id): Id -> bool {
    (other: Id) => other != installation
  }

  function Power(n: nat): nat { if n == 0 then 1 else 2 * Power(n - 1) }

  /** Two seconds doubled with every attempt, longer if asked, never over a quarter of an hour. */
  function Backoff(attempt: nat, retryAfter: int): int {
    var delay := Max(Power(if attempt < 8 then attempt else 8) * 2000, retryAfter);
    if delay > MAX_RETRY_DELAY then MAX_RETRY_DELAY else delay
  }

  function PutOff(item: Item, now: int, retryAfter: int): Item {
    item.(attempts := item.attempts + 1, next := Whole(now + Backoff(item.attempts + 1, retryAfter)))
  }

  function Reschedule(id: Id, now: int, retryAfter: int): Item -> Option<Item> {
    (i: Item) => Some(if i.id == id then PutOff(i, now, retryAfter) else i)
  }

  lemma {:induction false} PowerGrows(n: nat)
    requires n >= 1
    ensures 2 <= Power(n)
  {
    if n > 1 {
      PowerGrows(n - 1);
    }
  }

  lemma BackoffIsBounded(attempt: nat, retryAfter: int)
    requires attempt >= 1
    ensures 4000 <= Backoff(attempt, retryAfter) <= MAX_RETRY_DELAY
  {
    PowerGrows(if attempt < 8 then attempt else 8);
  }

  // ---------- One turn of a retry pass ----------

  /** What became of one attempt. */
  datatype Outcome = Ineligible | Accepted | InstallationGone | Refused | Retryable(retryAfter: int)

  /** An item as it stood when the pass began, whether its installation was then subscribed, and
      the outcome if it is attempted. */
  datatype Turn = Turn(item: Item, active: bool, outcome: Outcome)

  function Retry(t: Turn, now: int): Item -> Option<Item> {
    if t.item.expires <= now then Drop(t.item.id)
    else if t.item.next > now then (i: Item) => Some(i)
    else if !t.active then Drop(t.item.id)
    else
      match t.outcome
      case InstallationGone => KeepFor(AllBut(t.item.installation))
      case Retryable(retryAfter) => Reschedule(t.item.id, now, retryAfter)
      case _ => Drop(t.item.id)
  }

  /** The attempt pauses the installation. */
  predicate Pauses(t: Turn, now: int) {
    t.item.expires > now && t.item.next <= now && t.active && t.outcome.InstallationGone?
  }

  lemma RetryIsFaithful(t: Turn, now: int)
    ensures Faithful(Retry(t, now))
  {
  }

  // ---------- The outbox with a retry pass under way ----------

  /** The copy a pass works through, the installations subscribed when it was taken, how many
      items have had their turn, and what has happened since: the outcomes of the turns, the events
      queued meanwhile, and the installations that still have their events. */
  datatype Pass = Pass(copy: seq<Item>, active: set<Id>, now: int, taken: nat,
                       outcomes: map<Id, Outcome>, queued: set<Id>, keeps: Id -> bool)

  datatype World = World(items: seq<Item>, pass: Option<Pass>)

  /** What can happen while nobody holds the mutex. A pass begins by copying the outbox; the mutex
      is free between its turns. */
  datatype Step =
    | Enqueue(id: Id, installation: Id, kind: Kind, now: int, retryAfter: int)
    | Begin(now: int, active: set<Id>)
    | Take(outcome: Outcome)
    | Forget(keeps: Id -> bool)
    | Restart(now: int, known: set<Id>)

  predicate Done(p: Pass) { p.taken >= |p.copy| }

  function TurnOf(p: Pass, outcome: Outcome): Turn
    requires !Done(p)
  {
    var item := p.copy[p.taken];
    Turn(item, item.installation in p.active, outcome)
  }

  function Both(a: Id -> bool, b: Id -> bool): Id -> bool {
    (i: Id) => a(i) && b(i)
  }

  function Taken(p: Pass, outcome: Outcome): Pass
    requires !Done(p)
  {
    var t := TurnOf(p, outcome);
    p.(taken := p.taken + 1, outcomes := p.outcomes[t.item.id := outcome],
       keeps := if Pauses(t, p.now) then Both(p.keeps, AllBut(t.item.installation)) else p.keeps)
  }

  function Begun(items: seq<Item>, now: int, active: set<Id>): World {
    World(items, Some(Pass(items, active, now, 0, map[], {}, _ => true)))
  }

  function Alive(now: int, known: set<Id>): Item -> Option<Item> {
    (i: Item) => if i.expires > now && i.installation in known then Some(i) else None
  }

  /** One loop runs the passes, so a pass begins only when the one before it is done. */
  function Happens(w: World, step: Step): World {
    match step
    case Enqueue(id, installation, kind, now, retryAfter) =>
      World(Enqueued(w.items, id, installation, kind, now, retryAfter).0,
            if w.pass.None? then None else Some(w.pass.value.(queued := w.pass.value.queued + {id})))
    case Begin(now, active) => if w.pass.Some? && !Done(w.pass.value) then w else Begun(w.items, now, active)
    case Take(outcome) =>
      if w.pass.None? || Done(w.pass.value) then w
      else
        var p := w.pass.value;
        World(Rewritten(w.items, Retry(TurnOf(p, outcome), p.now)), Some(Taken(p, outcome)))
    case Forget(keeps) =>
      World(Rewritten(w.items, KeepFor(keeps)),
            if w.pass.None? then None else Some(w.pass.value.(keeps := Both(w.pass.value.keeps, keeps))))
    case Restart(now, known) => World(Rewritten(w.items, Alive(now, known)), None)
  }

  function After(w: World, steps: seq<Step>): World {
    if steps == [] then w else Happens(After(w, steps[..|steps| - 1]), steps[|steps| - 1])
  }

  const EMPTY := World([], None)

  // ---------- What a pass does ----------

  /** What the pass so far has made of an item of the copy that was not queued again. */
  function Fate(p: Pass): Item -> Option<Item> {
    (i: Item) =>
      if i.id in p.queued || !p.keeps(i.installation) then None
      else if i.id in p.outcomes then Retry(Turn(i, i.installation in p.active, p.outcomes[i.id]), p.now)(i)
      else Some(i)
  }

  function Unqueued(queued: set<Id>): Item -> Option<Item> {
    (i: Item) => if i.id in queued then None else Some(i)
  }

  /** Leaving aside the events queued since the copy was taken, the outbox is the copy with every
      item's own fate, in the same order. */
  ghost predicate PassIsExact(items: seq<Item>, p: Pass) {
    && p.taken <= |p.copy| && Unique(p.copy)
    && (forall k :: 0 <= k < |p.copy| ==> (p.copy[k].id in p.outcomes <==> k < p.taken))
    && Rewritten(items, Unqueued(p.queued)) == Rewritten(p.copy, Fate(p))
  }

  ghost predicate Bounded(items: seq<Item>) { Unique(items) && |items| <= MAX_ITEMS }

  ghost predicate Exact(w: World) {
    && Bounded(w.items) && (w.pass.Some? ==> PassIsExact(w.items, w.pass.value))
  }

  /** A change that leaves alone which events were queued carries over to the copy's fates. */
  lemma FatesFollow(items: seq<Item>, p: Pass, g: Item -> Option<Item>, p': Pass)
    requires Rewritten(items, Unqueued(p.queued)) == Rewritten(p.copy, Fate(p))
    requires Faithful(g) && p'.copy == p.copy && p'.queued == p.queued
    requires forall k :: 0 <= k < |p.copy| ==> Then(Fate(p), g)(p.copy[k]) == Fate(p')(p.copy[k])
    ensures Rewritten(Rewritten(items, g), Unqueued(p'.queued)) == Rewritten(p'.copy, Fate(p'))
  {
    var u := Unqueued(p.queued);
    RewritingTwice(items, u, g);
    RewritingTwice(items, g, u);
    RewritingAgrees(items, Then(u, g), Then(g, u));
    RewritingTwice(p.copy, Fate(p), g);
    RewritingAgrees(p.copy, Then(Fate(p), g), Fate(p'));
  }

  lemma TurnDecides(p: Pass, outcome: Outcome, k: nat)
    requires !Done(p) && k < |p.copy| && Unique(p.copy)
    requires p.copy[k].id in p.outcomes <==> k < p.taken
    ensures Then(Fate(p), Retry(TurnOf(p, outcome), p.now))(p.copy[k]) == Fate(Taken(p, outcome))(p.copy[k])
  {
    hide PutOff;
    assert k != p.taken ==> p.copy[k].id != p.copy[p.taken].id;
    FateKeepsName(p, p.copy[k]);
  }

  lemma TurnKeepsExact(items: seq<Item>, p: Pass, outcome: Outcome)
    requires Bounded(items) && PassIsExact(items, p) && !Done(p)
    ensures Bounded(Rewritten(items, Retry(TurnOf(p, outcome), p.now)))
    ensures PassIsExact(Rewritten(items, Retry(TurnOf(p, outcome), p.now)), Taken(p, outcome))
  {
    hide Retry, Fate, Rewritten;
    var t, p' := TurnOf(p, outcome), Taken(p, outcome);
    RetryIsFaithful(t, p.now);
    RewritingThins(items, Retry(t, p.now));
    forall k | 0 <= k < |p.copy|
      ensures Then(Fate(p), Retry(t, p.now))(p.copy[k]) == Fate(p')(p.copy[k])
    {
      TurnDecides(p, outcome, k);
    }
    FatesFollow(items, p, Retry(t, p.now), p');
  }

  lemma ForgettingKeepsExact(items: seq<Item>, p: Pass, keeps: Id -> bool)
    requires PassIsExact(items, p)
    ensures PassIsExact(Rewritten(items, KeepFor(keeps)), p.(keeps := Both(p.keeps, keeps)))
  {
    hide Retry;
    forall k | 0 <= k < |p.copy|
      ensures Then(Fate(p), KeepFor(keeps))(p.copy[k]) == Fate(p.(keeps := Both(p.keeps, keeps)))(p.copy[k])
    {
      FateKeepsName(p, p.copy[k]);
    }
    FatesFollow(items, p, KeepFor(keeps), p.(keeps := Both(p.keeps, keeps)));
  }

  lemma EnqueuingKeeps(items: seq<Item>, id: Id, installation: Id, kind: Kind, now: int, retryAfter: int)
    requires Bounded(items)
    ensures var after := Enqueued(items, id, installation, kind, now, retryAfter).0;
            && Bounded(after) && |items| <= |after|
            && (forall j :: 0 <= j < |items| ==> Same(items[j], after[j]))
  {
    assert items == [] ==> First(items, id) == 0;
    hide First;
    forall j | 0 <= j < |items|
      ensures First(items, id) <= |items| && (First(items, id) == |items| ==> items[j].id != id)
    {
      FirstFinds(items, id, j);
    }
  }

  /** Leaving aside an event, queueing it changes nothing. */
  lemma EnqueuingIsAside(items: seq<Item>, id: Id, installation: Id, kind: Kind, now: int, retryAfter: int, queued: set<Id>)
    ensures Rewritten(Enqueued(items, id, installation, kind, now, retryAfter).0, Unqueued(queued + {id}))
         == Rewritten(items, Unqueued(queued + {id}))
  {
    var after := Enqueued(items, id, installation, kind, now, retryAfter).0;
    var k := First(items, id);
    if k < |items| {
      FirstFinds(items, id, k);
      RewritingIgnores(items, k, after[k], Unqueued(queued + {id}));
    }
  }

  lemma EnqueuingKeepsExact(items: seq<Item>, p: Pass, id: Id, installation: Id, kind: Kind, now: int, retryAfter: int)
    requires PassIsExact(items, p)
    ensures PassIsExact(Enqueued(items, id, installation, kind, now, retryAfter).0, p.(queued := p.queued + {id}))
  {
    hide Enqueued, Retry;
    EnqueuingIsAside(items, id, installation, kind, now, retryAfter, p.queued);
    var p' := p.(queued := p.queued + {id});
    RewritingTwice(items, Unqueued(p.queued), Drop(id));
    RewritingAgrees(items, Then(Unqueued(p.queued), Drop(id)), Unqueued(p'.queued));
    RewritingTwice(p.copy, Fate(p), Drop(id));
    forall k | 0 <= k < |p.copy|
      ensures Then(Fate(p), Drop(id))(p.copy[k]) == Fate(p')(p.copy[k])
    {
      FateKeepsName(p, p.copy[k]);
    }
    RewritingAgrees(p.copy, Then(Fate(p), Drop(id)), Fate(p'));
  }

  lemma FateKeepsName(p: Pass, item: Item)
    ensures Fate(p)(item).Some? ==> Same(item, Fate(p)(item).value)
  {
    if item.id in p.outcomes {
      RetryIsFaithful(Turn(item, item.installation in p.active, p.outcomes[item.id]), p.now);
    }
  }

  lemma BeginningIsExact(items: seq<Item>, now: int, active: set<Id>)
    requires Bounded(items)
    ensures Exact(Begun(items, now, active))
  {
    var p := Begun(items, now, active).pass.value;
    RewritingAgrees(items, Unqueued({}), Fate(p));
  }

  lemma StepKeepsExact(w: World, step: Step)
    requires Exact(w)
    ensures Exact(Happens(w, step))
  {
    hide PassIsExact, Bounded, Rewritten, Enqueued;
    match step
    case Enqueue(id, installation, kind, now, retryAfter) =>
      EnqueuingKeeps(w.items, id, installation, kind, now, retryAfter);
      if w.pass.Some? {
        EnqueuingKeepsExact(w.items, w.pass.value, id, installation, kind, now, retryAfter);
      }
    case Begin(now, active) => BeginningIsExact(w.items, now, active);
    case Take(outcome) =>
      if w.pass.Some? && !Done(w.pass.value) {
        TurnKeepsExact(w.items, w.pass.value, outcome);
      }
    case Forget(keeps) =>
      ThinningKeepsBounded(w.items, KeepFor(keeps));
      if w.pass.Some? {
        ForgettingKeepsExact(w.items, w.pass.value, keeps);
      }
    case Restart(now, known) => ThinningKeepsBounded(w.items, Alive(now, known));
  }

  lemma ThinningKeepsBounded(items: seq<Item>, f: Item -> Option<Item>)
    requires Bounded(items) && Faithful(f)
    ensures Bounded(Rewritten(items, f))
  {
    RewritingThins(items, f);
  }

  /** Main result on the outbox: in every run, however the turns of a pass interleave with queueing
      and forgetting, no event is queued twice for an installation, at most 256 are queued, and
      whatever was not queued since the pass began is exactly what the pass and the forgetting have
      made of the copy. */
  lemma {:induction false} OutboxIsExact(steps: seq<Step>)
    ensures Exact(After(EMPTY, steps))
  {
    hide Exact, Happens;
    if steps == [] {
      NothingIsExact();
    } else {
      OutboxIsExact(steps[..|steps| - 1]);
      StepKeepsExact(After(EMPTY, steps[..|steps| - 1]), steps[|steps| - 1]);
    }
  }

  lemma NothingIsExact()
    ensures Exact(EMPTY)
  {
  }

  /** What a pass leaves of an item: nothing expired, exactly the copy of what was not due, and of
      what was due only what was attempted, may be tried again, and has been put off. */
  ghost predicate Settled(before: Item, p: Pass, item: Item) {
    && before.expires > p.now && p.keeps(before.installation)
    && if before.next > p.now then item == before
       else
         && before.installation in p.active && before.id in p.outcomes && p.outcomes[before.id].Retryable?
         && item == PutOff(before, p.now, p.outcomes[before.id].retryAfter)
         && p.now + 3000 < item.next <= p.now + MAX_RETRY_DELAY
  }

  /** Main result on a pass: once it is done, every item of the outbox either was queued meanwhile
      or is settled. */
  lemma DonePassSettles(w: World, j: nat) returns (k: nat)
    requires Exact(w) && w.pass.Some? && Done(w.pass.value) && j < |w.items|
    requires w.items[j].id !in w.pass.value.queued
    ensures k < |w.pass.value.copy| && Settled(w.pass.value.copy[k], w.pass.value, w.items[j])
  {
    hide Backoff;
    var p := w.pass.value;
    var at := RewritingHas(w.items, Unqueued(p.queued), j);
    k := RewritingKeepsEach(p.copy, Fate(p), at);
    if p.copy[k].id in p.outcomes && p.outcomes[p.copy[k].id].Retryable? {
      BackoffIsBounded(p.copy[k].attempts + 1, p.outcomes[p.copy[k].id].retryAfter);
    }
  }

  /** No step but queueing adds anything, and none doubles anything or gives anything a longer life. */
  lemma StepThins(w: World, step: Step)
    requires !step.Enqueue?
    ensures Thins(w.items, Happens(w, step).items)
  {
    match step
    case Begin(now, active) => ThinsItself(w.items);
    case Take(outcome) =>
      if w.pass.None? || Done(w.pass.value) {
        ThinsItself(w.items);
      } else {
        var t := TurnOf(w.pass.value, outcome);
        RetryIsFaithful(t, w.pass.value.now);
        RewritingThins(w.items, Retry(t, w.pass.value.now));
      }
    case Forget(keeps) => RewritingThins(w.items, KeepFor(keeps));
    case Restart(now, known) => RewritingThins(w.items, Alive(now, known));
  }

  lemma ThinsItself(items: seq<Item>)
    ensures Thins(items, items)
  {
    assert forall j :: 0 <= j < |items| ==> Same(items[j], items[j]);
  }

  /** As long as nothing is queued, the outbox only thins out, through any number of passes. */
  lemma {:induction false} QuietRunsThin(w: World, steps: seq<Step>)
    requires forall k :: 0 <= k < |steps| ==> !steps[k].Enqueue?
    ensures Thins(w.items, After(w, steps).items)
  {
    hide Happens, Thins;
    if steps == [] {
      ThinsItself(w.items);
    } else {
      var before := After(w, steps[..|steps| - 1]);
      QuietRunsThin(w, steps[..|steps| - 1]);
      StepThins(before, steps[|steps| - 1]);
      ThinsIsTransitive(w.items, before.items, After(w, steps).items);
    }
  }

  lemma StepKeepsExpiry(w: World, step: Step, i: nat, j: nat)
    requires Exact(w) && i < |w.items| && j < |Happens(w, step).items|
    requires Happens(w, step).items[j].id == w.items[i].id
    ensures Happens(w, step).items[j].expires == w.items[i].expires
  {
    hide PassIsExact, Enqueued, Rewritten;
    if step.Enqueue? {
      EnqueuingKeeps(w.items, step.id, step.installation, step.kind, step.now, step.retryAfter);
    } else {
      StepThins(w, step);
      assert From(w.items, Happens(w, step).items[j]);
    }
  }

  // ---------- A pass that nothing interrupts ----------

  /** After the first `n` turns. */
  function Turned(items: seq<Item>, now: int, active: set<Id>, outcome: Item -> Outcome, n: nat): World
    requires n <= |items|
  {
    if n == 0 then Begun(items, now, active) else Happens(Turned(items, now, active, outcome, n - 1), Take(outcome(items[n - 1])))
  }

  lemma {:induction false} TurnsGoThroughTheCopy(items: seq<Item>, now: int, active: set<Id>, outcome: Item -> Outcome, n: nat)
    requires n <= |items|
    ensures var w := Turned(items, now, active, outcome, n);
            && w.pass.Some? && w.pass.value.copy == items && w.pass.value.active == active && w.pass.value.now == now
            && w.pass.value.taken == n && w.pass.value.queued == {}
  {
    hide Retry, Rewritten;
    if n > 0 {
      TurnsGoThroughTheCopy(items, now, active, outcome, n - 1);
    }
  }

  lemma {:induction false} TurnsAreExact(items: seq<Item>, now: int, active: set<Id>, outcome: Item -> Outcome, n: nat)
    requires Bounded(items) && n <= |items|
    ensures Exact(Turned(items, now, active, outcome, n))
  {
    hide Exact, Happens;
    if n == 0 {
      BeginningIsExact(items, now, active);
    } else {
      TurnsAreExact(items, now, active, outcome, n - 1);
      StepKeepsExact(Turned(items, now, active, outcome, n - 1), Take(outcome(items[n - 1])));
    }
  }

  predicate Decided(w: World, item: Item, outcome: Outcome) {
    w.pass.Some? && item.id in w.pass.value.outcomes && w.pass.value.outcomes[item.id] == outcome
  }

  lemma TakingDecides(w: World, outcome: Outcome, item: Item, before: Outcome)
    requires w.pass.Some? && !Done(w.pass.value)
    requires var next := w.pass.value.copy[w.pass.value.taken];
             if item == next then before == outcome else item.id != next.id && Decided(w, item, before)
    ensures Decided(Happens(w, Take(outcome)), item, before)
  {
    hide Retry, Rewritten;
  }

  lemma {:induction false} TurnsTakeOutcomes(items: seq<Item>, now: int, active: set<Id>, outcome: Item -> Outcome, n: nat, k: nat)
    requires Unique(items) && k < n <= |items|
    ensures Decided(Turned(items, now, active, outcome, n), items[k], outcome(items[k]))
  {
    hide Happens, Decided;
    TurnsGoThroughTheCopy(items, now, active, outcome, n - 1);
    if k < n - 1 {
      TurnsTakeOutcomes(items, now, active, outcome, n - 1, k);
    }
    TakingDecides(Turned(items, now, active, outcome, n - 1), outcome(items[n - 1]), items[k], outcome(items[k]));
  }

  /** A pass that nothing interrupts makes of the outbox exactly every item's own fate, by the
      outcome of its own attempt. */
  lemma QuietPassIsExact(items: seq<Item>, now: int, active: set<Id>, outcome: Item -> Outcome)
    requires Bounded(items)
    ensures var w := Turned(items, now, active, outcome, |items|);
            && w.pass.Some? && Done(w.pass.value) && w.items == Rewritten(items, Fate(w.pass.value))
            && forall k :: 0 <= k < |items| ==> Decided(w, items[k], outcome(items[k]))
  {
    hide Turned, Fate, Decided;
    forall k | 0 <= k < |items|
      ensures Decided(Turned(items, now, active, outcome, |items|), items[k], outcome(items[k]))
    {
      TurnsTakeOutcomes(items, now, active, outcome, |items|, k);
    }
    var w := Turned(items, now, active, outcome, |items|);
    TurnsGoThroughTheCopy(items, now, active, outcome, |items|);
    TurnsAreExact(items, now, active, outcome, |items|);
    AllUnqueued(w.items);
  }

  lemma {:induction false} AllUnqueued(items: seq<Item>)
    ensures Rewritten(items, Unqueued({})) == items
  {
    if items != [] {
      AllUnqueued(items[..|items| - 1]);
    }
  }

  // ---------- The registry ----------

  class PushSubscriberRegistry {
    var outbox: seq<Item>

    constructor ()
      ensures outbox == []
    {
      outbox := [];
    }

    /** The loop that the removals and changes of the outbox share. */
    method Rewrite(f: Item -> Option<Item>)
      modifies this
      ensures outbox == Rewritten(old(outbox), f)
    {
      var next: seq<Item> := [];
      for i := 0 to |outbox|
        invariant outbox == old(outbox) && next == Rewritten(outbox[..i], f)
      {
        assert outbox[..i + 1][..i] == outbox[..i];
        var item := f(outbox[i]);
        if item.Some? {
          next := next + [item.value];
        }
      }
      assert outbox[..|outbox|] == outbox;
      outbox := next;
    }

    method RemoveOutboxItem(id: Id)
      modifies this
      ensures outbox == Rewritten(old(outbox), Drop(id))
    {
      Rewrite(Drop(id));
    }

    /** The first item with this identifier is changed, or the event appended. */
    method Enqueue(id: Id, installation: Id, kind: Kind, now: int, retryAfter: int) returns (ok: bool)
      modifies this
      ensures (outbox, ok) == Enqueued(old(outbox), id, installation, kind, now, retryAfter)
    {
      var next := Whole(now + Max(RETRY_DELAY, retryAfter));
      for index := 0 to |outbox|
        invariant outbox == old(outbox)
        invariant forall k :: 0 <= k < index ==> outbox[k].id != id
      {
        if outbox[index].id == id {
          FirstIsAt(outbox, id, index);
          var item := outbox[index];
          outbox := outbox[index := item.(kind := kind, next := Max(item.next, next))];
          return true;
        }
      }
      FirstIsAt(outbox, id, |outbox|);
      if |outbox| >= MAX_ITEMS {
        return false;
      }
      outbox := outbox + [Item(id, installation, kind, 0, next, Whole(now + Life(kind)))];
      return true;
    }

    /** Every item of the copy taken at the start gets its turn. `outcome` says what becomes of
        an item if it is attempted. */
    method RetryDue(now: int, active: set<Id>, outcome: Item -> Outcome)
      modifies this
      ensures outbox == Turned(old(outbox), now, active, outcome, |old(outbox)|).items
    {
      hide Retry, Rewritten;
      var copy := outbox;
      for i := 0 to |copy|
        invariant outbox == Turned(copy, now, active, outcome, i).items
      {
        TurnsGoThroughTheCopy(copy, now, active, outcome, i);
        RetryOne(Turn(copy[i], copy[i].installation in active, outcome(copy[i])), now);
      }
    }

    method RetryOne(t: Turn, now: int)
      modifies this
      ensures outbox == Rewritten(old(outbox), Retry(t, now))
    {
      if t.item.expires <= now {
        RemoveOutboxItem(t.item.id);
        return;
      }
      if t.item.next > now {
        UntouchedByRetry(outbox, t, now);
        return;
      }
      if !t.active {
        RemoveOutboxItem(t.item.id);
        return;
      }
      match t.outcome {
        case InstallationGone => Rewrite(KeepFor(AllBut(t.item.installation)));
        case Retryable(retryAfter) => Rewrite(Reschedule(t.item.id, now, retryAfter));
        case _ => RemoveOutboxItem(t.item.id);
      }
    }

    static lemma {:induction false} UntouchedByRetry(items: seq<Item>, t: Turn, now: int)
      requires t.item.expires > now && t.item.next > now
      ensures Rewritten(items, Retry(t, now)) == items
    {
      if items != [] {
        UntouchedByRetry(items[..|items| - 1], t, now);
      }
    }
  }
}
