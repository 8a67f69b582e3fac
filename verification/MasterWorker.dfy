/** The background worker over the master's directories: a round scans the queue, selects, sends and
    completes, each durable write a step of the step system; flushes repeat rounds until nothing is left. */
module MasterWorker {
  import opened Basics
  import opened BackendQueue
  import opened MasterState
  import opened MasterInvariant
  import opened CrashReplay
  import opened Boundaries
  import opened MasterServer
  import opened Drain

  /** Nobody holds the lock, nothing is in flight and no write is pending. */
  ghost predicate Resting(m: Server)
    reads m
  {
    m.Valid() && m.s.lock.Free? && m.s.flights == map[] && m.intents == map[]
  }

  ghost predicate SameViews(s: State, t: State) {
    forall k :: View(t, k) == View(s, k)
  }

  lemma QueueIsKeyed(m: Server)
    requires m.Valid()
    ensures Keyed(m.queue)
  {
    forall k | k in m.queue ensures m.queue[k].key == k {
      assert KeyOk(m.s, k);
      assert SlotOf(m.s.disk, k).queue == Some(m.queue[k]);
    }
  }

  /** Read the queue directory entry by entry. */
  ghost method RecordScan(m: Server)
    requires Resting(m) && m.s.worker.Idle?
    modifies m`s, m`log
    ensures m.Valid() && m.s == old(m.s).(worker := Uploading(m.clock, m.queue, {}))
  {
    var was, todo := m.s, m.queue.Keys;
    assert m.queue - todo == map[];
    m.Record(BeginScan);
    while todo != {}
      invariant m.Valid() && todo <= was.disk.queue.Keys && m.s == MidScan(was, todo)
      decreases |todo|
    {
      var k :| k in todo;
      RecordRead(m, was, todo, k);
      todo := todo - {k};
    }
    assert m.queue - todo == m.queue;
    m.Record(EndScan);
  }

  ghost method RecordRead(m: Server, was: State, todo: set<Key>, k: Key)
    requires m.Valid() && todo <= was.disk.queue.Keys && k in todo && m.s == MidScan(was, todo)
    modifies m`s, m`log
    ensures m.Valid() && m.s == MidScan(was, todo - {k})
  {
    ScanReads(was, todo, k);
    m.Record(ScanRead(k));
  }

  lemma ScanIsIndex(items: seq<QueueItem>, queue: Queue, x: QueueItem)
    requires Lists(items, queue) && !BlockedAmong(items, x)
    ensures !BlockedIn(queue, x)
  {
    forall k | k in queue ensures !Obstructs(queue[k], x) {
      var i :| 0 <= i < |items| && items[i].key == k;
      assert items[i] == queue[k];
    }
  }

  /** Completing an entry, or its backend effect, changes nothing a client reads. */
  lemma SentIsInvisible(s: State, t: State, k: Key, item: QueueItem)
    requires Inv(s) && Inv(t) && s.disk.intents == t.disk.intents == map[] && t.disk.store == s.disk.store
    requires Elsewhere(s, t, k) && k in s.disk.queue && s.disk.queue[k].op == item.op
    requires Finished(SlotOf(t.disk, k), Lookup(t.backend, k), item)
    ensures SameViews(s, t)
  {
    assert KeyOk(s, k) && KeyOk(t, k);
    forall j ensures View(t, j) == View(s, j) {
      if j != k { assert SlotOf(t.disk, j) == SlotOf(s.disk, j); }
    }
  }

  /** The state of a round: `gone` of the queue it scanned have been completed. */
  ghost predicate InRound(m: Server, scanned: Queue, gone: set<Key>, was: State)
    reads m
  {
    && Resting(m) && Seen(m.s.worker) == scanned && m.queue == scanned - gone
    && m.store == was.disk.store && SameViews(was, m.s) && was.disk.intents == map[]
  }

  ghost predicate Sendable(scanned: Queue, x: QueueItem) {
    x.key in scanned && scanned[x.key] == x && !BlockedIn(scanned, x)
  }

  method SendOne(m: Server, x: QueueItem, ghost scanned: Queue, ghost gone: set<Key>, ghost was: State)
    requires InRound(m, scanned, gone, was) && Sendable(scanned, x) && x.key !in gone
    requires if x.op.Put? then m.s.worker.Uploading? else m.s.worker.Deleting?
    modifies m
    ensures InRound(m, scanned, gone + {x.key}, was) && m.s.worker == old(m.s.worker)
  {
    ghost var before := m.s;
    assert KeyOk(m.s, x.key) && SlotOf(m.s.disk, x.key).queue == Some(x);
    var attempt := m.UploadBackendQueueItem(x.key, x, Answered, 0);
    SentIsInvisible(before, m.s, x.key, x);
    OneGone(before.disk.queue, m.s.disk, scanned, gone, x.key, before.disk);
  }

  lemma OneGone(queue: Queue, now: Disk, scanned: Queue, gone: set<Key>, k: Key, before: Disk)
    requires queue == before.queue == scanned - gone && SlotOf(now, k).queue.None?
    requires forall j :: j != k ==> SlotOf(now, j) == SlotOf(before, j)
    ensures now.queue == scanned - (gone + {k})
  {
    forall j ensures Lookup(now.queue, j) == Lookup(scanned - (gone + {k}), j) {
      assert SlotOf(now, j).queue == Lookup(now.queue, j) && SlotOf(before, j).queue == Lookup(before.queue, j);
    }
    SameLookups(now.queue, scanned - (gone + {k}));
  }

  /** The uploads of a round: each finds its own generation still queued and completes. */
  method SendPuts(m: Server, puts: seq<QueueItem>, ghost scanned: Queue, ghost was: State) returns (completed: nat)
    requires InRound(m, scanned, {}, was) && m.s.worker.Uploading? && DistinctKeys(puts)
    requires forall x :: x in puts ==> x.op.Put? && Sendable(scanned, x)
    modifies m
    ensures InRound(m, scanned, KeysOf(puts), was) && m.s.worker == old(m.s.worker) && completed == |puts|
  {
    completed := 0;
    for n := 0 to |puts|
      invariant InRound(m, scanned, KeysOf(puts[..n]), was) && m.s.worker == old(m.s.worker) && completed == n
    {
      NextKey(puts, n);
      SendOne(m, puts[n], scanned, KeysOf(puts[..n]), was);
      completed := completed + 1;
    }
    assert puts[..|puts|] == puts;
  }

  lemma NextKey(items: seq<QueueItem>, n: nat)
    requires DistinctKeys(items) && n < |items|
    ensures items[n] in items && items[n].key !in KeysOf(items[..n]) && KeysOf(items[..n + 1]) == KeysOf(items[..n]) + {items[n].key}
  {
    assert items[..n + 1] == items[..n] + [items[n]] && DistinctKeys(items[..n + 1]);
    AppendKeys(items[..n], items[n]);
  }

  /** The deletes of a round: hosts with a queued Put are looked at again, and none is found. */
  method SendDeletes(m: Server, deletes: seq<QueueItem>, ghost scanned: Queue, ghost gone: set<Key>, ghost was: State)
    returns (completed: nat)
    requires InRound(m, scanned, gone, was) && m.s.worker.Deleting? && DistinctKeys(deletes) && gone !! KeysOf(deletes)
    requires forall x :: x in deletes ==> x.op.Delete? && Sendable(scanned, x)
    modifies m
    ensures InRound(m, scanned, gone + KeysOf(deletes), was) && m.s.worker == old(m.s.worker) && completed == |deletes|
  {
    completed := 0;
    for n := 0 to |deletes|
      invariant InRound(m, scanned, gone + KeysOf(deletes[..n]), was) && m.s.worker == old(m.s.worker) && completed == n
    {
      NextKey(deletes, n);
      assert deletes[n].key in KeysOf(deletes);
      assert forall k :: k in m.queue ==> k in scanned && !Obstructs(scanned[k], deletes[n]);
      if !PutPending(m.queue, deletes[n].host) {
        SendOne(m, deletes[n], scanned, gone + KeysOf(deletes[..n]), was);
        assert gone + KeysOf(deletes[..n]) + {deletes[n].key} == gone + KeysOf(deletes[..n + 1]);
        completed := completed + 1;
      }
    }
    assert deletes[..|deletes|] == deletes;
  }

  /** Uploads, then deletes, of a selection of the scanned queue. All of it completes. */
  method RunRound(m: Server, selected: seq<QueueItem>, ghost scanned: Queue, ghost was: State) returns (completed: nat)
    requires InRound(m, scanned, {}, was) && m.s.worker.Uploading? && DistinctKeys(selected)
    requires forall x :: x in selected ==> Sendable(scanned, x)
    modifies m
    ensures Resting(m) && m.s.worker.Idle? && m.queue == scanned - KeysOf(selected) && completed == |selected|
    ensures m.store == was.disk.store && SameViews(was, m.s)
  {
    var puts, deletes := Partition(selected);
    completed := SendPuts(m, puts, scanned, was);
    m.Record(EndUploads);
    var more := SendDeletes(m, deletes, scanned, KeysOf(puts), was);
    m.Record(EndRound);
    completed := completed + more;
  }

  /** One round: scan, select, send. */
  method DrainRound(m: Server, held: set<Host>, force: bool, now: nat, cap: nat) returns (selectedCount: nat, completed: nat)
    requires Resting(m) && m.s.worker.Idle? && cap > 0
    modifies m
    ensures Resting(m) && m.s.worker.Idle? && m.store == old(m.store) && SameViews(old(m.s), m.s)
    ensures Within(m.queue, old(m.queue)) && |m.queue| + completed == |old(m.queue)| && completed == selectedCount <= cap
    ensures selectedCount == 0 ==> m.queue == old(m.queue) && (force ==> Exhausted(m.queue, held))
  {
    QueueIsKeyed(m);
    var selected := Plan(m.queue, held, force, now, cap);
    selectedCount := |selected|;
    completed := ScanAndRun(m, selected);
  }

  method ScanAndRun(m: Server, selected: seq<QueueItem>) returns (completed: nat)
    requires Resting(m) && m.s.worker.Idle? && DistinctKeys(selected) && forall x :: x in selected ==> Sendable(m.queue, x)
    modifies m
    ensures Resting(m) && m.s.worker.Idle? && m.queue == old(m.queue) - KeysOf(selected) && completed == |selected|
    ensures m.store == old(m.store) && SameViews(old(m.s), m.s)
  {
    ghost var scanned, was := m.queue, m.s;
    RecordScan(m);
    assert m.queue - {} == m.queue;
    completed := RunRound(m, selected, scanned, was);
  }

  /** What a round will send: entries that nothing obstructs, all that are eligible up to the cap. */
  method Plan(queue: Queue, held: set<Host>, force: bool, now: nat, cap: nat) returns (selected: seq<QueueItem>)
    requires Keyed(queue) && cap > 0
    ensures DistinctKeys(selected) && |selected| <= cap && forall x :: x in selected ==> Sendable(queue, x)
    ensures |queue - KeysOf(selected)| == |queue| - |selected| && (selected == [] ==> queue - KeysOf(selected) == queue)
    ensures selected == [] && force ==> Exhausted(queue, held)
    ensures forall k :: k in queue && queue[k] !in selected && Ripe(queue, queue[k], held, force, now) ==>
              |selected| == cap && forall x :: x in selected ==> NoLater(x, queue[k])
    ensures forall x :: x in selected ==> Ripe(queue, x, held, force, now)
  {
    var items := BackendQueueItems(queue);
    selected := Select(items, held, force, now, cap);
    if selected == [] && force { NothingEligible(items, queue, held, now); }
    SelectionIsSendable(items, queue, selected);
    forall x | x in items ensures Eligible(items, x, held, force, now) <==> Ripe(queue, x, held, force, now) {
      IndexIsScan(items, queue, x);
    }
    forall k | k in queue ensures queue[k] in items {
      var i :| 0 <= i < |items| && items[i].key == k;
    }
  }

  /** May be sent now: nothing obstructs it, its host is not held, and it is due or forced. */
  ghost predicate Ripe(queue: Queue, item: QueueItem, held: set<Host>, force: bool, now: nat) {
    && !BlockedIn(queue, item)
    && (item.op.Delete? ==> item.host !in held)
    && (force || item.retryAfter.None? || item.retryAfter.value <= now)
  }

  /** An entry put off is ripe again exactly at its time, or at once if forced, provided nothing else keeps it
      back; and it has one attempt more on record. */
  lemma PutOffWaits(queue: Queue, item: QueueItem, retryAt: nat, held: set<Host>, now: nat)
    ensures Ripe(queue, Deferred(item, retryAt), held, false, now) <==> retryAt <= now && Ripe(queue, item, held, true, now)
    ensures Ripe(queue, Deferred(item, retryAt), held, true, now) <==> Ripe(queue, item, held, true, now)
    ensures Deferred(item, retryAt).attempts == item.attempts + 1
  {
    assert forall c :: Obstructs(c, Deferred(item, retryAt)) <==> Obstructs(c, item);
  }

  lemma IndexIsScan(items: seq<QueueItem>, queue: Queue, x: QueueItem)
    requires Lists(items, queue)
    ensures BlockedAmong(items, x) <==> BlockedIn(queue, x)
  {
    if !BlockedAmong(items, x) { ScanIsIndex(items, queue, x); }
    if i :| 0 <= i < |items| && Obstructs(items[i], x) { assert queue[items[i].key] == items[i]; }
  }

  lemma SelectionIsSendable(items: seq<QueueItem>, queue: Queue, selected: seq<QueueItem>)
    requires Lists(items, queue) && DistinctKeys(selected) && forall x :: x in selected ==> x in items && !BlockedAmong(items, x)
    ensures forall x :: x in selected ==> Sendable(queue, x)
    ensures |queue - KeysOf(selected)| == |queue| - |selected| && (selected == [] ==> queue - KeysOf(selected) == queue)
  {
    SelectedKeys(items, queue, selected);
    LessKeys(queue, selected);
    forall x | x in selected ensures Sendable(queue, x) { SelectedIsSendable(items, queue, x); }
  }

  lemma SelectedIsSendable(items: seq<QueueItem>, queue: Queue, x: QueueItem)
    requires Lists(items, queue) && x in items && !BlockedAmong(items, x)
    ensures Sendable(queue, x)
  {
    var i :| 0 <= i < |items| && items[i] == x;
    ScanIsIndex(items, queue, x);
  }

  /** A flush: rounds over fresh listings until the cap is reached or nothing is eligible. It completes
      every entry it selects, touches no other, and changes nothing a client reads. */
  method DrainBackendQueue(m: Server, max: nat, force: bool, now: nat) returns (completed: nat)
    requires Resting(m) && m.s.worker.Idle? && max > 0
    modifies m
    ensures Resting(m) && m.s.worker.Idle? && m.store == old(m.store) && SameViews(old(m.s), m.s)
    ensures Within(m.queue, old(m.queue)) && |m.queue| + completed == |old(m.queue)| && completed <= max
    ensures force ==> Flushed(old(m.queue), m.queue, max)
  {
    ghost var queue := m.queue;
    var held := set k | k in m.queue && m.queue[k].op.Put? :: m.queue[k].host;
    completed := 0;
    var selectedObjects := 0;
    while selectedObjects < max
      invariant Resting(m) && m.s.worker.Idle? && m.store == old(m.store) && SameViews(old(m.s), m.s)
      invariant Within(m.queue, queue) && |m.queue| + completed == |queue|
      invariant completed == selectedObjects <= max
      invariant selectedObjects == 0 ==> m.queue == queue
      decreases max - selectedObjects
    {
      var selectedCount, roundCompleted := DrainRound(m, held, force, now, max - selectedObjects);
      if selectedCount == 0 { break; }
      selectedObjects := selectedObjects + selectedCount;
      completed := completed + roundCompleted;
      if roundCompleted == 0 { break; }
    }
    QueueIsKeyed(m);
    if force && completed == 0 { HeldNeedsPut(queue); }
  }

  /** Every stored payload that is not retained for deletion is in the backend, byte for byte. */
  ghost predicate BackedUp(s: State) {
    forall k :: k in s.disk.store && k !in s.disk.tombs ==> Lookup(s.backend, k) == Some(s.disk.store[k])
  }

  lemma EmptyIsBackedUp(s: State)
    requires Inv(s) && s.disk.queue == map[] && s.disk.intents == map[]
    ensures BackedUp(s)
  {
    forall k | k in s.disk.store && k !in s.disk.tombs ensures Lookup(s.backend, k) == Some(s.disk.store[k]) { assert KeyOk(s, k); }
  }

  /** Forced flushes against a healthy backend empty the queue; `states` are the queues in between. Then
      everything stored is backed up, and clients have noticed nothing. */
  method FlushUntilEmpty(m: Server, max: nat, now: nat) returns (flushes: nat, ghost states: seq<Queue>)
    requires Resting(m) && m.s.worker.Idle? && max > 0
    modifies m
    ensures Resting(m) && m.queue == map[] && BackedUp(m.s) && m.store == old(m.store) && SameViews(old(m.s), m.s)
    ensures |states| == flushes + 1 && Leads(states, old(m.queue), map[], max)
    ensures flushes <= |old(m.queue)| && (flushes - 2) * max <= |old(m.queue)|
    ensures |old(m.queue)| <= max ==> flushes <= 2
  {
    ghost var queue := m.queue;
    flushes, states := 0, [m.queue];
    while m.queue != map[]
      invariant Resting(m) && m.s.worker.Idle? && m.store == old(m.store) && SameViews(old(m.s), m.s)
      invariant |states| == flushes + 1 && Leads(states, queue, m.queue, max)
      decreases |m.queue|
    {
      ghost var before := m.queue;
      var completed := DrainBackendQueue(m, max, true, now);
      LeadsOn(states, queue, before, m.queue, max);
      flushes, states := flushes + 1, states + [m.queue];
    }
    FewLead(states, queue, max);
    EmptyIsBackedUp(m.s);
  }

  // ----- the worker's tick -----

  lemma {:induction false} RunSplits(s: State, first: seq<Action>, second: seq<Action>)
    requires Legal(s, first + second)
    ensures Legal(s, first) && Legal(After(s, first), second) && After(s, first + second) == After(After(s, first), second)
    decreases |first|
  {
    if first == [] {
      assert first + second == second;
    } else {
      assert (first + second)[1..] == first[1..] + second;
      RunSplits(Next(s, first[0]), first[1..], second);
    }
  }

  lemma {:induction false} WritesLeaveWorker(s: State, run: seq<Action>)
    requires Legal(s, run) && OnlyWrites(run)
    ensures var t := After(s, run);
            t.worker == s.worker && t.flights == s.flights && t.backend == s.backend && t.clock == s.clock
    decreases |run|
  {
    if run != [] {
      assert forall i :: 0 <= i < |run[1..]| ==> run[1..][i] == run[i + 1];
      WritesLeaveWorker(Next(s, run[0]), run[1..]);
    }
  }

  /** Nobody holds the lock and the worker is between two ticks; writes may be pending. */
  ghost predicate Between(m: Server)
    reads m
  {
    m.Valid() && m.s.lock.Free? && m.s.flights == map[] && m.s.worker.Idle?
  }

  method Recover(m: Server) returns (ok: bool)
    requires Between(m)
    modifies m
    ensures Between(m) && m.clock == old(m.clock) && m.backend == old(m.backend)
    ensures ok ==> m.intents == map[] && Recovered(old(m.s.disk), m.s.disk, {})
    ensures !ok ==> (exists k :: k in m.intents && QuotaObjects(m.s, k)) && exists todo :: Recovered(old(m.s.disk), m.s.disk, todo)
    ensures old(Blocked(m.s)) ==> !ok && m.s.disk == old(m.s.disk)
  {
    ghost var log, s := m.log, m.s;
    ok := m.RecoverMasterWriteIntents();
    ghost var more := m.log[|log|..];
    assert m.log == log + more;
    RunSplits(m.origin, log, more);
    WritesLeaveWorker(s, more);
  }

  method Collect(m: Server, due: seq<(Key, nat)>)
    requires Between(m)
    modifies m
    ensures Between(m) && m.queue == old(m.queue) && m.intents == old(m.intents)
    ensures Swept(old(m.s), m.s, old(m.clock))
    ensures forall i :: 0 <= i < |due| && old(Collectable(m.s.disk, due[i].0, due[i].1, m.clock)) ==> due[i].0 !in m.tombs
  {
    ghost var was := m.s;
    var removed := m.RunLocalGc(due, m.clock);
    SweptKeepsQueue(was, m.s, was.clock);
  }

  /** A tick: replay what is logged, drain if a flush is asked for or due, and collect. One logged write the
      quota refuses ends it before draining and before collecting, the only things that give room back. */
  method WorkerTick(m: Server, due: seq<(Key, nat)>, force: bool, flushDue: bool, max: nat, now: nat)
    returns (ok: bool, ghost recovered: Disk, ghost drained: State)
    requires Between(m) && max > 0
    modifies m
    ensures Between(m) && (old(m.intents) == map[] ==> ok)
    ensures !ok ==> (exists k :: k in m.intents && QuotaObjects(m.s, k)) && m.backend == old(m.backend)
    ensures !ok ==> exists todo :: Recovered(old(m.s.disk), m.s.disk, todo)
    ensures ok ==> Recovered(old(m.s.disk), recovered, {}) && m.intents == map[] && drained.disk.queue == m.queue
    ensures ok && force ==> Flushed(recovered.queue, m.queue, max)
    ensures ok && !force && !flushDue ==> m.queue == recovered.queue
    ensures ok ==> Swept(drained, m.s, drained.clock)
    ensures ok ==> forall i :: 0 <= i < |due| && Collectable(drained.disk, due[i].0, due[i].1, drained.clock) ==> due[i].0 !in m.tombs
    ensures old(Blocked(m.s)) ==> !ok && m.s.disk == old(m.s.disk)
  {
    ok := Recover(m);
    recovered, drained := m.s.disk, m.s;
    if !ok { return; }
    if force || flushDue { var completed := DrainBackendQueue(m, max, force, now); }
    drained := m.s;
    Collect(m, due);
  }

  lemma OneIntentIsRefused(s: State, t: State, k: Key, todo: set<Key>)
    requires Inv(s) && Inv(t) && t.config == s.config && s.disk.intents.Keys == {k} && Recovered(s.disk, t.disk, todo)
    requires exists j :: j in t.disk.intents && QuotaObjects(t, j)
    ensures QuotaObjects(s, k)
  {
    var j :| j in t.disk.intents && QuotaObjects(t, j);
    assert SlotOf(t.disk, j).intent.Some?;
    assert j in s.disk.intents by { assert SlotOf(s.disk, j).intent == Lookup(s.disk.intents, j); }
    forall x ensures SlotOf(t.disk, x) == SlotOf(s.disk, x) {
    }
    SameSlots(s.disk, t.disk);
    StillObjects(t, s, k);
  }

  lemma SameSlots(a: Disk, b: Disk)
    requires forall k :: SlotOf(a, k) == SlotOf(b, k)
    ensures a == b
  {
    forall k ensures Lookup(a.store, k) == Lookup(b.store, k) && Lookup(a.intents, k) == Lookup(b.intents, k)
                     && Lookup(a.queue, k) == Lookup(b.queue, k) && Lookup(a.receipts, k) == Lookup(b.receipts, k)
                     && Lookup(a.tombs, k) == Lookup(b.tombs, k)
    {
      assert SlotOf(a, k) == SlotOf(b, k);
    }
    SameLookups(a.store, b.store);
    SameLookups(a.intents, b.intents);
    SameLookups(a.queue, b.queue);
    SameLookups(a.receipts, b.receipts);
    SameLookups(a.tombs, b.tombs);
  }

  /** With a single write logged a tick is carried out exactly when the quota has room for it. */
  method TickWithOneIntent(m: Server, k: Key, due: seq<(Key, nat)>, force: bool, flushDue: bool, max: nat, now: nat)
    returns (ok: bool)
    requires Between(m) && max > 0 && m.intents.Keys == {k}
    modifies m
    ensures ok <==> !old(QuotaObjects(m.s, k))
    ensures !ok ==> m.s.disk == old(m.s.disk)
  {
    ghost var was := m.s;
    ghost var recovered, drained;
    ok, recovered, drained := WorkerTick(m, due, force, flushDue, max, now);
    if !ok {
      ghost var todo :| Recovered(was.disk, m.s.disk, todo);
      OneIntentIsRefused(was, m.s, k, todo);
    }
  }

  /** A blocked master stays blocked: no number of ticks drains or collects anything. */
  method TicksWhileBlocked(m: Server, due: seq<(Key, nat)>, force: bool, max: nat, now: nat, ticks: nat)
    requires Between(m) && max > 0 && Blocked(m.s)
    modifies m
    ensures Between(m) && Blocked(m.s) && m.s.disk == old(m.s.disk)
  {
    for n := 0 to ticks
      invariant Between(m) && Blocked(m.s) && m.s.disk == old(m.s.disk)
    {
      ghost var before := m.s;
      ghost var recovered, drained;
      var ok;
      ok, recovered, drained := WorkerTick(m, due, force, true, max, now);
      forall k | k in m.s.disk.intents ensures QuotaObjects(m.s, k) { StillObjects(before, m.s, k); }
    }
  }

  /** And a master can get there: a Put fails after its intent is logged, and other uploads take the room it
      was promised. */
  lemma BlockedIsReached(i: State, first: PutRequest, second: PutRequest) returns (t: State)
    requires Init(i) && i.config.limit.Some? && first.key != second.key && |first.bytes| > 0
    requires ContentAddressed(Lookup(i.config.canon, first.key), first) && ContentAddressed(Lookup(i.config.canon, second.key), second)
    requires |first.bytes| <= i.config.limit.value && |second.bytes| <= i.config.limit.value < |first.bytes| + |second.bytes|
    ensures Reaches(i, t) && t.lock.Free? && t.worker.Idle? && t.flights == map[] && Blocked(t)
    ensures Lookup(t.promised, second.key) == Some(Present(second.bytes))
  {
    var s := CutOffAfterLogging(i, first);
    NewPutReaches(i, s, second);
    t := AfterNewPut(s, second);
    assert t.disk.intents == map[first.key := first];
    assert SlotOf(t.disk, first.key).store.None? && QuotaObjects(t, first.key);
  }
}
