/** What becomes of every queued event, in numbers: what queueing stores, what one turn does, what
    a whole pass leaves and what it takes away. */
module PushOutboxExact {
  import opened Wrappers
  import opened PushOutbox

  // ---------- Queueing ----------

  /** How long an event of each kind lives, in milliseconds. */
  predicate Lives(kind: Kind, life: int) {
    match kind
    case LiveUpdate => life == 600_000
    case LiveStart => life == 1_800_000
    case Alert => life == 3_600_000
    case LiveEnd => life == 7_200_000
    case Plain => life == 86_400_000
  }

  /** A time cut to the whole second. */
  predicate CutTo(stored: int, t: int) { stored % 1000 == 0 && stored <= t < stored + 1000 }

  predicate CutAfter(stored: int, now: int, delay: int) { CutTo(stored, now + delay) }

  /** Two seconds, or longer if asked. */
  predicate FirstDelay(delay: int, retryAfter: int) { delay >= 2000 && delay >= retryAfter && (delay == 2000 || delay == retryAfter) }

  /** An event queued again is changed in its place: it waits no shorter and lives no longer. A new
      one goes last, with no attempt yet, unless 256 are queued. */
  lemma EnqueuingExactly(items: seq<Item>, id: Id, installation: Id, kind: Kind, now: int, retryAfter: int, delay: int)
    requires FirstDelay(delay, retryAfter) && Bounded(items)
    ensures var (after, ok) := Enqueued(items, id, installation, kind, now, retryAfter);
            && (ok <==> (exists k :: 0 <= k < |items| && items[k].id == id) || |items| < 256)
            && (!ok ==> after == items)
            && (forall k :: 0 <= k < |items| && items[k].id != id ==> k < |after| && after[k] == items[k])
            && (forall k :: 0 <= k < |items| && items[k].id == id ==> |after| == |items| && IsChanged(items[k], after[k], kind, now + delay))
            && (ok && (forall k :: 0 <= k < |items| ==> items[k].id != id) ==>
                  |after| == |items| + 1 && IsQueued(after[|items|], id, installation, kind, now, now + delay))
  {
    var first := First(items, id);
    assert items == [] ==> first == 0;
    forall k | 0 <= k < |items|
      ensures first <= |items| && (items[k].id == id <==> k == first)
    {
      FirstFinds(items, id, k);
    }
    hide First, IsChanged, IsQueued, Whole, Life;
    NewItemExactly(id, installation, kind, now, delay);
  }

  lemma NewItemExactly(id: Id, installation: Id, kind: Kind, now: int, delay: int)
    ensures IsQueued(Item(id, installation, kind, 0, Whole(now + delay), Whole(now + Life(kind))), id, installation, kind, now, now + delay)
  {
    assert Lives(kind, Life(kind));
  }

  predicate IsChanged(item: Item, after: Item, kind: Kind, next: int) {
    && after.id == item.id && after.installation == item.installation && after.kind == kind && after.attempts == item.attempts
    && after.expires == item.expires && after.next >= item.next && (after.next == item.next || CutTo(after.next, next))
    && next < after.next + 1000
  }

  ghost predicate IsQueued(item: Item, id: Id, installation: Id, kind: Kind, now: int, next: int) {
    && item.id == id && item.installation == installation && item.kind == kind && item.attempts == 0 && CutTo(item.next, next)
    && exists life :: Lives(kind, life) && CutTo(item.expires, now + life)
  }

  // ---------- Delays ----------

  /** The delay before attempt after attempt, doubling up to 512 seconds; the relay may ask for
      more, but for no more than 900 seconds. */
  predicate IsDelay(delay: int, attempt: nat, retryAfter: int) {
    var doubled := if attempt >= 8 then 512_000 else if attempt == 7 then 256_000 else if attempt == 6 then 128_000
                   else if attempt == 5 then 64_000 else if attempt == 4 then 32_000 else if attempt == 3 then 16_000
                   else if attempt == 2 then 8_000 else if attempt == 1 then 4_000 else 2_000;
    delay == if doubled < retryAfter then if retryAfter < 900_000 then retryAfter else 900_000 else doubled
  }

  lemma BackoffExactly(attempt: nat, retryAfter: int)
    ensures IsDelay(Backoff(attempt, retryAfter), attempt, retryAfter)
  {
    assert Power(2) == 4 && Power(4) == 16 && Power(6) == 64 && Power(8) == 256;
  }

  /** Attempted once more, and put off to a whole second after the delay. */
  ghost predicate IsPutOff(before: Item, after: Item, now: int, retryAfter: int) {
    && after == before.(attempts := before.attempts + 1, next := after.next)
    && exists delay :: IsDelay(delay, before.attempts + 1, retryAfter) && CutAfter(after.next, now, delay)
  }

  lemma PutOffExactly(item: Item, now: int, retryAfter: int)
    ensures IsPutOff(item, PutOff(item, now, retryAfter), now, retryAfter)
  {
    hide Backoff;
    BackoffExactly(item.attempts + 1, retryAfter);
    assert CutAfter(PutOff(item, now, retryAfter).next, now, Backoff(item.attempts + 1, retryAfter));
  }

  // ---------- One turn ----------

  /** The item is sent: it has not expired, is due, and its installation is subscribed. */
  predicate Attempted(t: Turn, now: int) { now < t.item.expires && t.item.next <= now && t.active }

  /** The item is done with: expired, due without a subscription, or sent and not to be sent again. */
  predicate Discards(t: Turn, now: int) {
    || t.item.expires <= now
    || (t.item.next <= now && !t.active)
    || (Attempted(t, now) && (t.outcome.Accepted? || t.outcome.Refused? || t.outcome.Ineligible?))
  }

  /** The members of a rewritten outbox. */
  lemma RewrittenExactly(items: seq<Item>, f: Item -> Option<Item>, x: Item)
    ensures x in Rewritten(items, f) <==> exists k :: 0 <= k < |items| && f(items[k]) == Some(x)
  {
    if x in Rewritten(items, f) {
      var j: nat :| j < |Rewritten(items, f)| && Rewritten(items, f)[j] == x;
      var k := RewritingKeepsEach(items, f, j);
    }
    if k: nat :| k < |items| && f(items[k]) == Some(x) {
      var j := RewritingHas(items, f, k);
    }
  }

  /** One turn: what is not due stays, what is done with goes, a gone installation loses all its
      items, and what may be tried again is put off; every other item stays as it is. */
  lemma TurnExactly(items: seq<Item>, t: Turn, now: int, x: Item)
    ensures now < t.item.expires && now < t.item.next ==> (x in Rewritten(items, Retry(t, now)) <==> x in items)
    ensures Discards(t, now) ==> (x in Rewritten(items, Retry(t, now)) <==> x in items && x.id != t.item.id)
    ensures Attempted(t, now) && t.outcome.InstallationGone? ==>
              (x in Rewritten(items, Retry(t, now)) <==> x in items && x.installation != t.item.installation)
    ensures Attempted(t, now) && t.outcome.Retryable? && x in items && x.id != t.item.id ==> x in Rewritten(items, Retry(t, now))
    ensures Attempted(t, now) && t.outcome.Retryable? && x in items && x.id == t.item.id ==>
              exists y :: y in Rewritten(items, Retry(t, now)) && IsPutOff(x, y, now, t.outcome.retryAfter)
    ensures Attempted(t, now) && t.outcome.Retryable? && x in Rewritten(items, Retry(t, now)) ==>
              || (x in items && x.id != t.item.id)
              || exists y :: y in items && y.id == t.item.id && IsPutOff(y, x, now, t.outcome.retryAfter)
  {
    hide IsPutOff, PutOff, Rewritten;
    RewrittenExactly(items, Retry(t, now), x);
    if x in items {
      var k :| 0 <= k < |items| && items[k] == x;
      assert Retry(t, now)(items[k]) == Some(x) ==> x in Rewritten(items, Retry(t, now));
    }
    if Attempted(t, now) && t.outcome.Retryable? {
      RetryableExactly(items, t, now, x);
    }
  }

  lemma RetryableExactly(items: seq<Item>, t: Turn, now: int, x: Item)
    requires Attempted(t, now) && t.outcome.Retryable?
    ensures x in items && x.id == t.item.id ==>
              exists y :: y in Rewritten(items, Retry(t, now)) && IsPutOff(x, y, now, t.outcome.retryAfter)
    ensures x in Rewritten(items, Retry(t, now)) ==>
              || (x in items && x.id != t.item.id)
              || exists y :: y in items && y.id == t.item.id && IsPutOff(y, x, now, t.outcome.retryAfter)
  {
    hide IsPutOff, PutOff, Rewritten;
    if x in items && x.id == t.item.id {
      var k :| 0 <= k < |items| && items[k] == x;
      PutOffExactly(x, now, t.outcome.retryAfter);
      var y := PutOff(x, now, t.outcome.retryAfter);
      RewrittenExactly(items, Retry(t, now), y);
      assert Retry(t, now)(items[k]) == Some(y);
    }
    if x in Rewritten(items, Retry(t, now)) {
      RewrittenExactly(items, Retry(t, now), x);
      var k :| 0 <= k < |items| && Retry(t, now)(items[k]) == Some(x);
      PutOffExactly(items[k], now, t.outcome.retryAfter);
      assert items[k] in items;
    }
  }

  // ---------- A whole pass ----------

  /** The item of the copy outlives the pass: not expired, its installation kept, and either not due
      or attempted with an outcome that lets it be tried again. */
  predicate Outlives(p: Pass, i: Item) {
    && p.now < i.expires && p.keeps(i.installation)
    && (p.now < i.next || (i.installation in p.active && i.id in p.outcomes && p.outcomes[i.id].Retryable?))
  }

  /** What it is afterwards: itself if it was not due, else put off. */
  ghost predicate Remains(p: Pass, i: Item, x: Item)
    requires Outlives(p, i)
  {
    if p.now < i.next then x == i else IsPutOff(i, x, p.now, p.outcomes[i.id].retryAfter)
  }

  /** Main result on a pass, both ways: once it is done, an item of the copy that was not queued
      again is in the outbox if and only if it outlives the pass, and then exactly as it should be.
      So accepted, refused, ineligible and expired items, those due without a subscription and all
      of an installation that is gone are no longer there, and nothing else is lost. */
  lemma DonePassExactly(w: World, k: nat)
    requires Exact(w) && w.pass.Some? && Done(w.pass.value) && k < |w.pass.value.copy|
    requires w.pass.value.copy[k].id !in w.pass.value.queued
    ensures var p, i := w.pass.value, w.pass.value.copy[k];
            && ((exists j :: 0 <= j < |w.items| && w.items[j].id == i.id) <==> Outlives(p, i))
            && (forall j :: 0 <= j < |w.items| && w.items[j].id == i.id ==> Outlives(p, i) && Remains(p, i, w.items[j]))
  {
    hide Rewritten, Settled, IsPutOff, PutOff;
    var p, i := w.pass.value, w.pass.value.copy[k];
    forall j | 0 <= j < |w.items| && w.items[j].id == i.id
      ensures Outlives(p, i) && Remains(p, i, w.items[j])
    {
      LeftBehind(w, k, j);
    }
    if Outlives(p, i) {
      OutlivingStays(w, k);
    }
  }

  lemma LeftBehind(w: World, k: nat, j: nat)
    requires Exact(w) && w.pass.Some? && Done(w.pass.value) && k < |w.pass.value.copy| && j < |w.items|
    requires w.pass.value.copy[k].id !in w.pass.value.queued && w.items[j].id == w.pass.value.copy[k].id
    ensures Outlives(w.pass.value, w.pass.value.copy[k]) && Remains(w.pass.value, w.pass.value.copy[k], w.items[j])
  {
    hide Rewritten, Backoff;
    var p := w.pass.value;
    var m := DonePassSettles(w, j);
    assert p.copy[m].id == w.items[j].id;
    assert m == k;
    if p.copy[k].next <= p.now {
      PutOffExactly(p.copy[k], p.now, p.outcomes[p.copy[k].id].retryAfter);
    }
  }

  lemma OutlivingStays(w: World, k: nat)
    requires Exact(w) && w.pass.Some? && Done(w.pass.value) && k < |w.pass.value.copy|
    requires w.pass.value.copy[k].id !in w.pass.value.queued && Outlives(w.pass.value, w.pass.value.copy[k])
    ensures exists j :: 0 <= j < |w.items| && w.items[j].id == w.pass.value.copy[k].id
  {
    hide Rewritten, PutOff;
    var p, i := w.pass.value, w.pass.value.copy[k];
    FateKeepsName(p, i);
    var at := RewritingHas(p.copy, Fate(p), k);
    assert at < |Rewritten(w.items, Unqueued(p.queued))|;
    var j := RewritingKeepsEach(w.items, Unqueued(p.queued), at);
    assert w.items[j].id == i.id;
  }

  /** Which installations a pass that nothing interrupts takes for gone: those of an item that was
      attempted and answered so. */
  lemma {:induction false} QuietPassKeeps(items: seq<Item>, now: int, active: set<Id>, outcome: Item -> Outcome, n: nat, installation: Id)
    requires n <= |items|
    ensures var w := Turned(items, now, active, outcome, n);
            && w.pass.Some?
            && (w.pass.value.keeps(installation)
                <==> !exists k :: 0 <= k < n && items[k].installation == installation && now < items[k].expires && items[k].next <= now
                                  && installation in active && outcome(items[k]).InstallationGone?)
  {
    hide Rewritten, Retry, Pauses;
    TurnsGoThroughTheCopy(items, now, active, outcome, n);
    if n > 0 {
      TurnsGoThroughTheCopy(items, now, active, outcome, n - 1);
      QuietPassKeeps(items, now, active, outcome, n - 1, installation);
      TurnKeepsExactly(Turned(items, now, active, outcome, n - 1).pass.value, outcome(items[n - 1]), installation);
    }
  }

  lemma TurnKeepsExactly(p: Pass, outcome: Outcome, installation: Id)
    requires !Done(p)
    ensures var i := p.copy[p.taken];
            Taken(p, outcome).keeps(installation)
            <==> p.keeps(installation)
                 && !(i.installation == installation && p.now < i.expires && i.next <= p.now && installation in p.active && outcome.InstallationGone?)
  {
  }

  // ---------- Forgetting and restarting ----------

  /** Forgetting takes exactly the items of the installations that are not kept. */
  lemma ForgettingExactly(w: World, keeps: Id -> bool, x: Item)
    ensures x in Happens(w, Forget(keeps)).items <==> x in w.items && keeps(x.installation)
  {
    hide Rewritten;
    RewrittenExactly(w.items, KeepFor(keeps), x);
    if x in w.items {
      var k :| 0 <= k < |w.items| && w.items[k] == x;
      assert KeepFor(keeps)(w.items[k]) == if keeps(x.installation) then Some(x) else None;
    }
  }

  /** A restart takes exactly the expired items and those of unknown installations. */
  lemma RestartingExactly(w: World, now: int, known: set<Id>, x: Item)
    ensures x in Happens(w, Restart(now, known)).items <==> x in w.items && now < x.expires && x.installation in known
    ensures Happens(w, Restart(now, known)).pass.None?
  {
    hide Rewritten;
    RewrittenExactly(w.items, Alive(now, known), x);
    if x in w.items {
      var k :| 0 <= k < |w.items| && w.items[k] == x;
      assert Alive(now, known)(w.items[k]) == if now < x.expires && x.installation in known then Some(x) else None;
    }
  }
}
