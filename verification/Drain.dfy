/** Draining the backend queue: which entries a flush selects, that it terminates, and that forced
    flushes against a healthy backend empty the queue. */
module Drain {
  import opened Basics
  import opened BackendQueue
  import opened KeyOrder

  type Queue = map<Key, QueueItem>

  ghost predicate Keyed(queue: Queue) {
    forall k :: k in queue ==> queue[k].key == k
  }

  // ----- the sorted listing -----

  /** Listing order: layer, then age, then key. */
  predicate Before(a: QueueItem, b: QueueItem) {
    || PublishPriority(a.key) < PublishPriority(b.key)
    || (PublishPriority(a.key) == PublishPriority(b.key)
        && (a.createdAt < b.createdAt || (a.createdAt == b.createdAt && Below(a.key, b.key))))
  }

  lemma BeforeIsTransitive(a: QueueItem, b: QueueItem, c: QueueItem)
    requires !Before(b, a) && !Before(c, b)
    ensures !Before(c, a)
  {
    if Before(c, a) && Below(c.key, a.key) {
      BelowIsTotal(a.key, b.key);
      BelowIsTotal(b.key, c.key);
      BelowIsAsymmetric(c.key, a.key);
      if Below(a.key, b.key) && Below(b.key, c.key) { BelowIsTransitive(a.key, b.key, c.key); }
    }
  }

  lemma BeforeIsAsymmetric(a: QueueItem, b: QueueItem)
    requires Before(a, b)
    ensures !Before(b, a)
  {
    if Below(a.key, b.key) { BelowIsAsymmetric(a.key, b.key); }
  }

  ghost predicate Sorted(items: seq<QueueItem>) {
    forall i, j :: 0 <= i < j < |items| ==> !Before(items[j], items[i])
  }

  ghost predicate DistinctKeys(items: seq<QueueItem>) {
    forall i, j :: 0 <= i < j < |items| ==> items[i].key != items[j].key
  }

  ghost function KeysOf(items: seq<QueueItem>): set<Key> {
    set i | 0 <= i < |items| :: items[i].key
  }

  /** Every entry of `queue`, once. */
  ghost predicate Lists(items: seq<QueueItem>, queue: Queue) {
    && DistinctKeys(items) && KeysOf(items) == queue.Keys
    && forall i :: 0 <= i < |items| ==> items[i].key in queue && queue[items[i].key] == items[i]
  }

  function InsertItem(items: seq<QueueItem>, item: QueueItem): seq<QueueItem> {
    if items == [] || Before(item, items[0]) then [item] + items else [items[0]] + InsertItem(items[1..], item)
  }

  lemma {:induction false} InsertItemSorts(items: seq<QueueItem>, item: QueueItem)
    requires Sorted(items)
    ensures Sorted(InsertItem(items, item))
    ensures forall x :: x in InsertItem(items, item) <==> x == item || x in items
  {
    if items != [] && !Before(item, items[0]) {
      var rest := InsertItem(items[1..], item);
      InsertItemSorts(items[1..], item);
      assert items == [items[0]] + items[1..];
      forall j | 0 <= j < |rest| ensures !Before(rest[j], items[0]) {
        assert rest[j] in rest;
        if rest[j] != item {
          var i :| 0 <= i < |items[1..]| && items[1..][i] == rest[j];
          assert items[i + 1] == rest[j];
        }
      }
    } else if items != [] {
      forall j | 0 <= j < |items| ensures !Before(items[j], item) {
        BeforeIsAsymmetric(item, items[0]);
        if j > 0 { BeforeIsTransitive(item, items[0], items[j]); }
      }
    }
  }

  lemma {:induction false} InsertItemIsFresh(items: seq<QueueItem>, item: QueueItem)
    requires DistinctKeys(items) && item.key !in KeysOf(items)
    ensures DistinctKeys(InsertItem(items, item)) && KeysOf(InsertItem(items, item)) == KeysOf(items) + {item.key}
  {
    if items == [] || Before(item, items[0]) {
      PrependKeys(item, items);
    } else {
      var tail := items[1..];
      assert items == [items[0]] + tail;
      PrependKeys(items[0], tail);
      assert forall i :: 0 <= i < |tail| ==> tail[i] == items[i + 1];
      InsertItemIsFresh(tail, item);
      PrependKeys(items[0], InsertItem(tail, item));
      assert items[0].key in KeysOf(items);
    }
  }

  lemma PrependKeys(x: QueueItem, items: seq<QueueItem>)
    ensures KeysOf([x] + items) == {x.key} + KeysOf(items)
    ensures DistinctKeys(items) && x.key !in KeysOf(items) ==> DistinctKeys([x] + items)
  {
    var all := [x] + items;
    forall k ensures k in KeysOf(all) <==> k == x.key || k in KeysOf(items) {
      if k in KeysOf(items) {
        var i :| 0 <= i < |items| && items[i].key == k;
        assert all[i + 1].key == k;
      }
      assert all[0].key == x.key;
    }
  }

  /** The sorted listing of the queue directory. */
  method BackendQueueItems(queue: Queue) returns (items: seq<QueueItem>)
    requires Keyed(queue)
    ensures Lists(items, queue) && Sorted(items)
  {
    items := [];
    var todo := queue.Keys;
    while todo != {}
      invariant todo <= queue.Keys && Sorted(items) && DistinctKeys(items) && KeysOf(items) == queue.Keys - todo
      invariant forall x :: x in items ==> x.key in queue && queue[x.key] == x
      decreases |todo|
    {
      var k :| k in todo;
      InsertItemSorts(items, queue[k]);
      InsertItemIsFresh(items, queue[k]);
      items := InsertItem(items, queue[k]);
      todo := todo - {k};
    }
    assert forall i :: 0 <= i < |items| ==> items[i] in items;
  }

  // ----- selection -----

  /** May be sent in this round of this flush. */
  ghost predicate Eligible(items: seq<QueueItem>, item: QueueItem, held: set<Host>, force: bool, now: nat) {
    && !BlockedAmong(items, item)
    && (item.op.Delete? ==> item.host !in held)
    && (force || item.retryAfter.None? || item.retryAfter.value <= now)
  }

  /** `x` is of a lower layer than `y`, or of the same and no younger. */
  predicate NoLater(x: QueueItem, y: QueueItem) {
    || PublishPriority(x.key) < PublishPriority(y.key)
    || (PublishPriority(x.key) == PublishPriority(y.key) && x.createdAt <= y.createdAt)
  }

  /** What is taken comes before whatever could have been taken as well. */
  ghost predicate TakenFirst(items: seq<QueueItem>, selected: seq<QueueItem>, held: set<Host>, force: bool, now: nat) {
    forall x, y :: x in selected && y in items && y !in selected && Eligible(items, y, held, force, now) ==> NoLater(x, y)
  }

  lemma PrefixIsTakenFirst(items: seq<QueueItem>, n: nat, selected: seq<QueueItem>, held: set<Host>, force: bool, now: nat)
    requires n <= |items| && Sorted(items) && Selects(items, n, selected, held, force, now)
    ensures TakenFirst(items, selected, held, force, now)
  {
    forall x, y | x in selected && y in items && y !in selected && Eligible(items, y, held, force, now) ensures NoLater(x, y) {
      var i :| 0 <= i < n && items[..n][i] == x;
      var j :| 0 <= j < |items| && items[j] == y;
      assert items[i] == x && n <= j;
      assert !Before(items[j], items[i]);
    }
  }

  /** The first `cap` eligible entries of the listing, in its order. */
  method Select(items: seq<QueueItem>, held: set<Host>, force: bool, now: nat, cap: nat) returns (selected: seq<QueueItem>)
    requires DistinctKeys(items) && Sorted(items)
    ensures |selected| <= cap && DistinctKeys(selected)
    ensures TakenFirst(items, selected, held, force, now)
    ensures forall x :: x in selected ==> x in items && Eligible(items, x, held, force, now)
    ensures |selected| < cap ==> forall i :: 0 <= i < |items| && Eligible(items, items[i], held, force, now) ==> items[i] in selected
  {
    var dependencies := BuildDependencies(items);
    selected := [];
    var n := 0;
    while n < |items| && |selected| < cap
      invariant n <= |items| && |selected| <= cap && Selects(items, n, selected, held, force, now)
    {
      var item := items[n];
      SelectStep(items, n, selected, held, force, now);
      if !dependencies.Blocks(item) && !(item.op.Delete? && item.host in held)
         && (force || item.retryAfter.None? || item.retryAfter.value <= now)
      {
        selected := selected + [item];
      }
      n := n + 1;
    }
    assert items[..|items|] == items && forall x :: x in items[..n] ==> x in items;
    PrefixIsTakenFirst(items, n, selected, held, force, now);
  }

  /** `selected` are the eligible ones among the first `n` items. */
  ghost predicate Selects(items: seq<QueueItem>, n: nat, selected: seq<QueueItem>, held: set<Host>, force: bool, now: nat)
    requires n <= |items|
  {
    && DistinctKeys(selected)
    && (forall x :: x in selected ==> x in items[..n] && Eligible(items, x, held, force, now))
    && (forall i :: 0 <= i < n && Eligible(items, items[i], held, force, now) ==> items[i] in selected)
  }

  lemma SelectStep(items: seq<QueueItem>, n: nat, selected: seq<QueueItem>, held: set<Host>, force: bool, now: nat)
    requires n < |items| && DistinctKeys(items) && Selects(items, n, selected, held, force, now)
    ensures if Eligible(items, items[n], held, force, now) then Selects(items, n + 1, selected + [items[n]], held, force, now)
            else Selects(items, n + 1, selected, held, force, now)
  {
    assert items[..n + 1] == items[..n] + [items[n]];
    forall i | 0 <= i < |selected| ensures selected[i].key != items[n].key {
      assert selected[i] in selected;
      var j :| 0 <= j < n && items[..n][j] == selected[i];
      assert items[j] == selected[i];
    }
  }

  // ----- a round -----

  lemma AppendKeys(items: seq<QueueItem>, x: QueueItem)
    ensures KeysOf(items + [x]) == KeysOf(items) + {x.key}
    ensures DistinctKeys(items + [x]) <==> DistinctKeys(items) && x.key !in KeysOf(items)
  {
    var all := items + [x];
    assert all[|items|] == x;
    assert forall i :: 0 <= i < |items| ==> all[i] == items[i];
    forall k ensures k in KeysOf(all) <==> k == x.key || k in KeysOf(items) {
      if k in KeysOf(items) {
        var i :| 0 <= i < |items| && items[i].key == k;
        assert all[i].key == k;
      }
    }
  }

  /** Uploads and deletes of a selection, each in its order. */
  method Partition(selected: seq<QueueItem>) returns (puts: seq<QueueItem>, deletes: seq<QueueItem>)
    requires DistinctKeys(selected)
    ensures |puts| + |deletes| == |selected| && DistinctKeys(puts) && DistinctKeys(deletes)
    ensures KeysOf(puts) + KeysOf(deletes) == KeysOf(selected) && KeysOf(puts) !! KeysOf(deletes)
    ensures forall x :: x in puts ==> x in selected && x.op.Put?
    ensures forall x :: x in deletes ==> x in selected && x.op.Delete?
  {
    puts, deletes := [], [];
    for n := 0 to |selected|
      invariant |puts| + |deletes| == n && DistinctKeys(puts) && DistinctKeys(deletes)
      invariant KeysOf(puts) + KeysOf(deletes) == KeysOf(selected[..n]) && KeysOf(puts) !! KeysOf(deletes)
      invariant forall x :: x in puts ==> x in selected && x.op.Put?
      invariant forall x :: x in deletes ==> x in selected && x.op.Delete?
    {
      var x := selected[n];
      assert selected[..n + 1] == selected[..n] + [x];
      assert DistinctKeys(selected[..n + 1]);
      AppendKeys(selected[..n], x);
      AppendKeys(puts, x);
      AppendKeys(deletes, x);
      if x.op.Put? { puts := puts + [x]; } else { deletes := deletes + [x]; }
    }
    assert selected[..|selected|] == selected;
  }

  predicate PutPending(queue: Queue, host: Host) {
    exists k :: k in queue && queue[k].op.Put? && queue[k].host == host
  }

  // ----- a flush -----

  ghost predicate Within(rest: Queue, queue: Queue) {
    forall k :: k in rest ==> k in queue && rest[k] == queue[k]
  }

  ghost function PutHosts(queue: Queue): set<Host> {
    set k | k in queue && queue[k].op.Put? :: queue[k].host
  }

  lemma LessKeys(queue: Queue, selected: seq<QueueItem>)
    requires DistinctKeys(selected) && KeysOf(selected) <= queue.Keys
    ensures |queue - KeysOf(selected)| == |queue| - |selected|
  {
    CountKeys(selected);
    assert (queue - KeysOf(selected)).Keys == queue.Keys - KeysOf(selected);
  }

  /** The keys of distinct items are as many as the items. */
  lemma {:induction false} CountKeys(items: seq<QueueItem>)
    requires DistinctKeys(items)
    ensures |KeysOf(items)| == |items|
  {
    if items != [] {
      var n := |items| - 1;
      assert items == items[..n] + [items[n]];
      AppendKeys(items[..n], items[n]);
      CountKeys(items[..n]);
    }
  }

  /** Nothing eligible is left: no Put at all, and Deletes only of hosts that are being held. */
  ghost predicate Exhausted(queue: Queue, held: set<Host>) {
    forall k :: k in queue ==> queue[k].op.Delete? && queue[k].host in held
  }

  /** With force, an empty selection means nothing but held Deletes remains. */
  lemma NothingEligible(items: seq<QueueItem>, queue: Queue, held: set<Host>, now: nat)
    requires Lists(items, queue)
    requires forall i :: 0 <= i < |items| ==> !Eligible(items, items[i], held, true, now)
    ensures Exhausted(queue, held)
  {
    if items != [] { SomethingIsUnblocked(items); }
    forall k | k in queue ensures queue[k].op.Delete? && queue[k].host in held {
      var i :| 0 <= i < |items| && items[i].key == k;
      assert items[i].op.Delete?;
      assert !BlockedAmong(items, items[i]);
    }
  }

  lemma SelectedKeys(items: seq<QueueItem>, queue: Queue, selected: seq<QueueItem>)
    requires Lists(items, queue) && forall x :: x in selected ==> x in items
    ensures KeysOf(selected) <= queue.Keys
  {
    forall i | 0 <= i < |selected| ensures selected[i].key in queue { assert selected[i] in selected; }
  }

  /** What a forced flush does: it takes at most `max` entries away and changes no other; below the
      cap it leaves nothing but Deletes of hosts that began with a Put; and it takes something from a
      queue that is not empty. */
  ghost predicate Flushed(before: Queue, after: Queue, max: nat) {
    && Keyed(after) && Within(after, before)
    && |after| <= |before| <= |after| + max
    && (|before| < |after| + max ==> Exhausted(after, PutHosts(before)))
    && (before != map[] ==> |after| < |before|)
  }

  lemma HeldNeedsPut(queue: Queue)
    requires Exhausted(queue, PutHosts(queue))
    ensures queue == map[]
  {
    assert PutHosts(queue) == {};
  }

  /** Below the cap, what a flush leaves has no Put; and from a queue without Puts it leaves nothing. */
  lemma ShortFlush(before: Queue, after: Queue, max: nat)
    requires Flushed(before, after, max) && |before| < |after| + max
    ensures PutHosts(after) == {}
    ensures PutHosts(before) == {} ==> after == map[]
  {
  }

  /** Two forced flushes empty any queue the cap covers. */
  lemma TwoFlushesSuffice(a: Queue, b: Queue, c: Queue, max: nat)
    requires Flushed(a, b, max) && Flushed(b, c, max) && 0 < max && |a| <= max
    ensures c == map[]
  {
    if b != map[] {
      ShortFlush(a, b, max);
      ShortFlush(b, c, max);
    }
  }

  /** Forced flushes one after the other. */
  ghost predicate Flushes(states: seq<Queue>, max: nat) {
    states != [] && forall i :: 0 <= i < |states| - 1 ==> Flushed(states[i], states[i + 1], max)
  }

  /** However the flushes go, those that find something to do are few: all but two take away `max`
      entries, and all but one if there is no Put. */
  lemma {:induction false} FlushesAreFew(states: seq<Queue>, max: nat)
    requires Flushes(states, max) && forall i :: 0 <= i < |states| - 1 ==> states[i] != map[]
    ensures |states| - 1 <= |states[0]|
    ensures (|states| - 3) * max <= |states[0]|
    ensures PutHosts(states[0]) == {} && |states| >= 2 ==> (|states| - 2) * max <= |states[0]|
    decreases |states|
  {
    if |states| >= 2 {
      var before, rest := states[0], states[1..];
      assert Flushed(before, rest[0], max);
      forall i | 0 <= i < |rest| - 1 ensures rest[i] != map[] && Flushed(rest[i], rest[i + 1], max) {
        assert Flushed(states[i + 1], states[i + 2], max);
      }
      FlushesAreFew(rest, max);
      if |before| < |rest[0]| + max {
        ShortFlush(before, rest[0], max);
        if PutHosts(before) == {} { assert |states| == 2; }
      } else {
        NoNewPuts(before, rest[0]);
        assert (|states| - 3) * max == (|rest| - 3) * max + max;
        assert (|states| - 2) * max == (|rest| - 2) * max + max;
      }
    }
  }

  lemma NoNewPuts(before: Queue, after: Queue)
    requires Within(after, before)
    ensures PutHosts(after) <= PutHosts(before)
  {
  }

  /** Forced flushes that lead from `queue` to `rest`, each with something to do. */
  ghost predicate Leads(states: seq<Queue>, queue: Queue, rest: Queue, max: nat) {
    && Flushes(states, max) && states[0] == queue && states[|states| - 1] == rest
    && forall i :: 0 <= i < |states| - 1 ==> states[i] != map[]
  }

  lemma LeadsOn(states: seq<Queue>, queue: Queue, rest: Queue, next: Queue, max: nat)
    requires Leads(states, queue, rest, max) && rest != map[] && Flushed(rest, next, max)
    ensures Leads(states + [next], queue, next, max)
  {
    var longer := states + [next];
    forall i | 0 <= i < |longer| - 1 ensures Flushed(longer[i], longer[i + 1], max) {
      if i < |states| - 1 { assert Flushed(states[i], states[i + 1], max); }
    }
  }

  lemma FewLead(states: seq<Queue>, queue: Queue, max: nat)
    requires Leads(states, queue, map[], max) && 0 < max
    ensures |states| - 1 <= |queue| && (|states| - 3) * max <= |queue|
    ensures |queue| <= max ==> |states| <= 3
  {
    FlushesAreFew(states, max);
    if |queue| <= max && |states| > 3 {
      assert Flushed(states[0], states[1], max) && Flushed(states[1], states[2], max);
      TwoFlushesSuffice(states[0], states[1], states[2], max);
    }
  }
}
