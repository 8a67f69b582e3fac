/** The grace period: how long a deleted payload stays on the master, and from when on local GC may take it. */
module Retention {
  import opened Basics
  import opened BackendQueue
  import opened MasterState
  import opened MasterInvariant
  import opened MasterRefinement

  /** The tombstone of `k` lasts until `floor` at least. */
  predicate Guarded(slot: Slot, floor: nat) {
    slot.tomb.Some? && slot.tomb.value.deleteAfter >= floor
  }

  /** The Delete of `k` has got as far as its tombstone. */
  predicate Recorded(lock: Lock, k: Key) {
    lock.Completing? && lock.key == k && !lock.complete.Retain?
  }

  /** `k`, deleted, still has its payload; its Delete is queued, or has left a tombstone good until `floor`. */
  predicate Retained(s: State, k: Key, b: Bytes, floor: nat) {
    var slot := SlotOf(s.disk, k);
    && Quiet(s, k)
    && slot.store == Some(b)
    && floor <= s.clock + s.config.grace
    && (slot.queue.Some? ==> slot.queue.value.op.Delete? && (Recorded(s.lock, k) ==> Guarded(slot, floor)))
    && (slot.queue.None? ==> Guarded(slot, floor) && !(s.lock.Collecting? && s.lock.key == k))
  }

  // ----- one step -----

  lemma DecisionRetains(lock: Lock, slot: Slot, env: Env, floor: nat)
    requires lock.Completing? && lock.item.op.Delete? && slot.store.Some? && floor <= env.clock + env.config.grace
    requires !lock.complete.Retain? ==> Guarded(slot, floor)
    ensures var d := Decide(lock, slot, env);
            var t := WriteSlot(slot, d.write);
            && t.store == slot.store && Guarded(t, floor)
            && t.queue == (if lock.complete.Dequeue? then None else slot.queue)
            && !d.lock.Collecting?
  {
  }

  lemma AdvanceRetains(s: State, k: Key, b: Bytes, floor: nat)
    requires Inv(s) && Enabled(s, Advance) && Retained(s, k, b, floor)
    ensures Retained(AdvanceLock(s), k, b, floor)
  {
    var t, key := AdvanceLock(s), LockedKey(s.lock).value;
    var d := Decide(s.lock, SlotOf(s.disk, key), EnvOf(s));
    assert KeyOk(s, key);
    QuietStays(s, Advance, k);
    WriteIsLocal(s.disk, key, d.write, k);
    if k == key { DecisionRetains(s.lock, SlotOf(s.disk, k), EnvOf(s), floor); } else { AdvanceStaysOnKey(s); }
  }

  lemma FailRetains(s: State, e: Key, retryAt: nat, k: Key, b: Bytes, floor: nat)
    requires Inv(s) && Enabled(s, Fail(e, retryAt)) && Retained(s, k, b, floor)
    ensures Retained(Next(s, Fail(e, retryAt)), k, b, floor)
  {
  }

  lemma OtherKeepsSlot(s: State, a: Action, k: Key)
    requires Enabled(s, a) && !a.Advance? && !a.Fail? && k in s.disk.store
    ensures var t := Next(s, a);
            SlotOf(t.disk, k) == SlotOf(s.disk, k) && s.clock <= t.clock && t.config == s.config
  {
  }

  /** Where the other steps leave the lock: a sweep takes it only when the tombstone is due, and a Delete is
      never skipped. */
  lemma OtherKeepsLock(s: State, a: Action, k: Key)
    requires Inv(s) && Enabled(s, a) && !a.Advance? && !a.Fail?
    requires k in s.disk.queue ==> s.disk.queue[k].op.Delete?
    ensures var l := Next(s, a).lock;
            && (Recorded(l, k) ==> Recorded(s.lock, k))
            && (l.Collecting? && l.key == k ==>
                  l == s.lock || (k in s.disk.tombs && s.disk.tombs[k].deleteAfter <= s.clock && k !in s.disk.queue))
  {
    if (a.Skip? || a.Complete?) && a.key == k { assert KeyOk(s, k); }
  }

  lemma OtherRetains(s: State, a: Action, k: Key, b: Bytes, floor: nat)
    requires Inv(s) && Enabled(s, a) && Retained(s, k, b, floor) && !RequestOn(a, k) && !a.Advance? && !a.Fail?
    ensures Retained(Next(s, a), k, b, floor) || floor <= s.clock
  {
    QuietStays(s, a, k);
    assert KeyOk(s, k) && SlotOf(s.disk, k).queue == Lookup(s.disk.queue, k) && SlotOf(s.disk, k).tomb == Lookup(s.disk.tombs, k);
    OtherKeepsSlot(s, a, k);
    OtherKeepsLock(s, a, k);
  }

  lemma StepRetains(s: State, a: Action, k: Key, b: Bytes, floor: nat)
    requires Inv(s) && Enabled(s, a) && Retained(s, k, b, floor) && !RequestOn(a, k)
    ensures Retained(Next(s, a), k, b, floor) || floor <= s.clock
  {
    match a {
      case Advance => AdvanceRetains(s, k, b, floor);
      case Fail(e, retryAt) => FailRetains(s, e, retryAt, k, b, floor);
      case _ => OtherRetains(s, a, k, b, floor);
    }
  }

  // ----- whole runs -----

  lemma {:induction false} TimeIsMonotone(s: State, run: seq<Action>)
    requires Legal(s, run)
    ensures s.clock <= After(s, run).clock && After(s, run).config == s.config
    decreases |run|
  {
    if run != [] { TimeIsMonotone(Next(s, run[0]), run[1..]); }
  }

  lemma {:induction false} RunRetains(s: State, run: seq<Action>, k: Key, b: Bytes, floor: nat)
    requires Inv(s) && Legal(s, run) && Unrequested(run, k) && Retained(s, k, b, floor)
    ensures After(s, run).clock < floor ==> Retained(After(s, run), k, b, floor)
    decreases |run|
  {
    if run != [] {
      StepRetains(s, run[0], k, b, floor);
      StepKeeps(s, run[0]);
      TimeIsMonotone(s, run);
      TimeIsMonotone(Next(s, run[0]), run[1..]);
      assert forall i :: 0 <= i < |run[1..]| ==> run[1..][i] == run[i + 1];
      if Retained(Next(s, run[0]), k, b, floor) { RunRetains(Next(s, run[0]), run[1..], k, b, floor); }
    }
  }

  /** A Delete of `k` is queued and its tombstone not yet written: it was acknowledged and waits, or it has
      been carried out in the backend and is being completed. */
  predicate AboutToRetain(s: State, k: Key) {
    && k !in s.disk.intents && k in s.disk.queue && s.disk.queue[k].op.Delete?
    && (LockedKey(s.lock) == Some(k) ==> s.lock.Completing? && s.lock.complete.Retain?)
  }

  /** The grace period is granted: whatever happens but a request on the key, the payload stays until the
      grace period after the Delete has passed, and so does any tombstone. */
  lemma GraceIsGranted(s: State, run: seq<Action>, k: Key)
    requires Inv(s) && Legal(s, run) && Unrequested(run, k) && AboutToRetain(s, k) && k in s.disk.store
    requires After(s, run).clock < s.clock + s.config.grace
    ensures var t := After(s, run);
            && Lookup(t.disk.store, k) == Some(s.disk.store[k])
            && (k !in t.disk.queue ==> k in t.disk.tombs && s.clock + s.config.grace <= t.disk.tombs[k].deleteAfter)
  {
    var t := After(s, run);
    RunRetains(s, run, k, s.disk.store[k], s.clock + s.config.grace);
    assert SlotOf(t.disk, k).store == Lookup(t.disk.store, k) && SlotOf(t.disk, k).queue == Lookup(t.disk.queue, k);
    assert SlotOf(t.disk, k).tomb == Lookup(t.disk.tombs, k);
  }

  // ----- and no longer -----

  /** `t` follows `s` without a request on `k`. */
  ghost predicate Drifts(s: State, t: State, k: Key) {
    exists run :: Legal(s, run) && Unrequested(run, k) && After(s, run) == t
  }

  lemma DriftsNext(s: State, t: State, k: Key, a: Action)
    requires Drifts(s, t, k) && Enabled(t, a) && !RequestOn(a, k)
    ensures Drifts(s, Next(t, a), k)
  {
    var run :| Legal(s, run) && Unrequested(run, k) && After(s, run) == t;
    RunThenStep(s, run, a);
    assert Unrequested(run + [a], k);
  }

  /** The three writes that complete a Delete. */
  function AfterDelete(s: State, k: Key): State
    requires k in s.disk.store
  {
    var b := s.disk.store[k];
    s.(disk := s.disk.(tombs := s.disk.tombs[k := Tombstone(s.nextGeneration, DigestOf(b), |b|, s.clock, s.clock + s.config.grace)],
                       receipts := s.disk.receipts - {k}, queue := s.disk.queue - {k}),
       nextGeneration := s.nextGeneration + 1, lock := Free)
  }

  predicate Completes(s: State, k: Key, stage: CompleteStage) {
    s.lock.Completing? && s.lock.key == k && s.lock.item.op.Delete? && s.lock.complete == stage
  }

  lemma TombIsWritten(s: State, k: Key)
    requires Completes(s, k, Retain) && k in s.disk.store
    ensures var b := s.disk.store[k];
            AdvanceLock(s) ==
            s.(disk := s.disk.(tombs := s.disk.tombs[k := Tombstone(s.nextGeneration, DigestOf(b), |b|, s.clock, s.clock + s.config.grace)]),
               nextGeneration := s.nextGeneration + 1, lock := s.lock.(complete := Receipt))
  {
  }

  lemma ReceiptIsDropped(s: State, k: Key)
    requires Completes(s, k, Receipt)
    ensures AdvanceLock(s) == s.(disk := s.disk.(receipts := s.disk.receipts - {k}), lock := s.lock.(complete := Dequeue))
  {
  }

  lemma EntryIsDropped(s: State, k: Key)
    requires Completes(s, k, Dequeue)
    ensures AdvanceLock(s) == s.(disk := s.disk.(queue := s.disk.queue - {k}), lock := Free)
  {
  }

  lemma DeleteCompletes(s: State, k: Key)
    requires Completes(s, k, Retain) && k in s.disk.store
    ensures Drifts(s, AfterDelete(s, k), k)
  {
    assert Legal(s, []) && Unrequested([], k) && After(s, []) == s;
    TombIsWritten(s, k);
    DriftsNext(s, s, k, Advance);
    var s1 := AdvanceLock(s);
    ReceiptIsDropped(s1, k);
    DriftsNext(s, s1, k, Advance);
    var s2 := AdvanceLock(s1);
    EntryIsDropped(s2, k);
    DriftsNext(s, s2, k, Advance);
  }

  lemma PayloadIsCollected(t: State, k: Key)
    requires t.lock == Collecting(k, Payload) && k in t.disk.tombs && k in t.disk.store
    requires t.disk.tombs[k].digest == DigestOf(t.disk.store[k])
    ensures Enabled(t, Advance)
    ensures AdvanceLock(t) == t.(disk := t.disk.(store := t.disk.store - {k}), storeBytes := Monus(t.storeBytes, |t.disk.store[k]|),
                                 lock := Collecting(k, Tomb))
  {
  }

  lemma TombIsCollected(t: State, k: Key)
    requires t.lock == Collecting(k, Tomb) && k in t.disk.tombs
    ensures Enabled(t, Advance)
    ensures AdvanceLock(t) == t.(disk := t.disk.(tombs := t.disk.tombs - {k}), lock := Free)
  {
  }

  lemma CollectionReaches(s: State, t: State, k: Key, now: nat)
    requires Drifts(s, t, k) && t.lock.Free? && k in t.disk.tombs && k !in t.disk.queue && now <= t.clock
    requires k in t.disk.store && t.disk.tombs[k].digest == DigestOf(t.disk.store[k]) && t.disk.tombs[k].deleteAfter <= now
    ensures Drifts(s, t.(disk := t.disk.(store := t.disk.store - {k}, tombs := t.disk.tombs - {k}),
                         storeBytes := Monus(t.storeBytes, |t.disk.store[k]|)), k)
  {
    DriftsNext(s, t, k, Collect(k, t.disk.tombs[k].generation, now));
    var t1 := t.(lock := Collecting(k, Payload));
    PayloadIsCollected(t1, k);
    DriftsNext(s, t1, k, Advance);
    var t2 := AdvanceLock(t1);
    TombIsCollected(t2, k);
    DriftsNext(s, t2, k, Advance);
  }

  /** Exactly how long: from the completion of a Delete on, local GC can have taken the payload by time `x`
      if and only if the grace period has passed by then. */
  lemma CollectableIff(s: State, k: Key, x: nat)
    requires Inv(s) && s.lock.Completing? && s.lock.key == k && s.lock.complete.Retain? && k !in s.disk.intents
    requires k in s.disk.store && s.clock <= x
    ensures (exists t :: Drifts(s, t, k) && t.clock == x && k !in t.disk.store) <==> s.clock + s.config.grace <= x
  {
    assert KeyOk(s, k);
    if x < s.clock + s.config.grace {
      forall t | Drifts(s, t, k) && t.clock == x ensures k in t.disk.store {
        var run :| Legal(s, run) && Unrequested(run, k) && After(s, run) == t;
        GraceIsGranted(s, run, k);
      }
    } else {
      DeleteCompletes(s, k);
      var t := AfterDelete(s, k);
      DriftsNext(s, t, k, Tick(x - s.clock));
      CollectionReaches(s, t.(clock := x), k, x);
    }
  }
}
