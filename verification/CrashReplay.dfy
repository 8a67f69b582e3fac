/** A crash, or several, anywhere inside a Put: replay of the logged intent ends where the
    uninterrupted Put would have ended. */
module CrashReplay {
  import opened Basics
  import opened BackendQueue
  import opened MasterState
  import opened MasterInvariant
  import opened MasterRefinement

  /** Durable writes the lock holder may still make. */
  function Remaining(lock: Lock): nat {
    match lock
    case Free => 0
    case Replaying(_, stage, next) =>
      (match stage case ReplayStore => 4 case ReplayQueue => 3 case ReplayCancel => 2 case ReplayRemove => 1)
      + (match next case Done => 0 case ThenPut(_) => 5 case ThenDelete(_) => 1)
    case Putting(_, stage, _) =>
      (match stage case Admit => 5 case StoreWrite => 4 case CancelGc => 3 case Enqueue => 2 case RemoveIntent => 1)
    case Removing(_, _) => 1
    case Completing(_, _, stage) => (match stage case Retain => 3 case Receipt => 2 case Dequeue => 1)
    case Collecting(_, stage) => (match stage case Payload => 2 case Tomb => 1)
  }

  lemma LockMoves(s: State)
    requires Inv(s) && !s.lock.Free?
    ensures Enabled(s, Advance) && Remaining(AdvanceLock(s).lock) < Remaining(s.lock)
  {
    assert KeyOk(s, LockedKey(s.lock).value);
  }

  /** Let the lock holder run to its end without interruption. */
  ghost function Settle(s: State): (t: State)
    requires Inv(s)
    ensures Inv(t) && t.lock.Free?
    decreases Remaining(s.lock)
  {
    if s.lock.Free? then s
    else
      LockMoves(s);
      AdvanceKeeps(s);
      Settle(AdvanceLock(s))
  }

  /** `k` holds what a completed `put` leaves behind: the payload, a queue entry for it, no
      tombstone and no intent. */
  predicate Landed(slot: Slot, put: PutRequest) {
    && slot.store == Some(put.bytes)
    && slot.intent.None?
    && slot.tomb.None?
    && slot.queue.Some? && slot.queue.value.op == PutOperation(put)
  }

  /** Replaying the logged intent of `k` cannot be refused: nothing is left to write, or neither the
      immutable check nor the quota stands in the way. */
  predicate Replayable(s: State, k: Key) {
    var slot := SlotOf(s.disk, k);
    slot.intent.Some? &&
    (Changes(slot, slot.intent.value.bytes) ==>
       && !(slot.intent.value.conditional && slot.store.Some?)
       && QuotaAllows(EnvOf(s), Len(slot.store), |slot.intent.value.bytes|))
  }

  /** The intent of `k` is still pending, or the write it logged has landed. */
  predicate InProgress(s: State, k: Key, put: PutRequest) {
    if k in s.disk.intents then s.disk.intents[k] == put && Replayable(s, k) else Landed(SlotOf(s.disk, k), put)
  }

  /** The lock holder is writing `put`, past admission. */
  predicate WritingPut(s: State, k: Key, put: PutRequest) {
    || (s.lock.Putting? && s.lock.req == put && put.key == k && !s.lock.stage.Admit?)
    || (s.lock.Replaying? && s.lock.key == k && s.lock.next.Done?)
  }

  /** Nothing is left to store, or nothing stands in the way of storing it. */
  predicate Acceptable(slot: Slot, env: Env)
    requires slot.intent.Some?
  {
    Changes(slot, slot.intent.value.bytes) ==>
      && !(slot.intent.value.conditional && slot.store.Some?)
      && QuotaAllows(env, Len(slot.store), |slot.intent.value.bytes|)
  }

  /** After one more write: landed, or still logged with the bytes stored. */
  predicate LandsOn(c: Cell, d: Cell)
    requires c.slot.intent.Some?
  {
    && d.slot.receipt == c.slot.receipt
    && (if d.slot.intent.None? then d.lock.Free? && Landed(d.slot, c.slot.intent.value)
        else d.slot.intent == c.slot.intent && !Changes(d.slot, c.slot.intent.value.bytes)
             && (if c.lock.Putting? then d.lock.Putting? && d.lock.req == c.lock.req && !d.lock.stage.Admit?
                 else c.lock.Replaying? && d.lock.Replaying? && d.lock.key == c.lock.key && d.lock.next == c.lock.next))
  }

  lemma PutDecisionLands(c: Cell, k: Key, worker: Worker, env: Env)
    requires Sound(c, k, worker, env) && c.slot.intent.Some? && c.lock.Putting? && !c.lock.stage.Admit? && Acceptable(c.slot, env)
    ensures LandsOn(c, Decided(c, env))
  {
  }

  lemma ReplayDecisionLands(c: Cell, k: Key, worker: Worker, env: Env)
    requires Sound(c, k, worker, env) && c.slot.intent.Some? && c.lock.Replaying? && c.lock.next.Done? && Acceptable(c.slot, env)
    ensures LandsOn(c, Decided(c, env))
  {
  }

  lemma AdvanceSlot(s: State, j: Key)
    requires Enabled(s, Advance)
    ensures var k := LockedKey(s.lock).value;
            var d := Decide(s.lock, SlotOf(s.disk, k), EnvOf(s));
            && SlotOf(AdvanceLock(s).disk, j) == (if j == k then WriteSlot(SlotOf(s.disk, k), d.write) else SlotOf(s.disk, j))
            && AdvanceLock(s).lock == d.lock
  {
    var k := LockedKey(s.lock).value;
    WriteIsLocal(s.disk, k, Decide(s.lock, SlotOf(s.disk, k), EnvOf(s)).write, j);
  }

  lemma DecisionProgresses(s: State, t: State, k: Key, put: PutRequest)
    requires KeyOk(s, k) && (!s.worker.Idle? ==> s.worker.start <= s.clock)
    requires WritingPut(s, k, put) && InProgress(s, k, put) && k in s.disk.intents
    requires t.lock == Decide(s.lock, SlotOf(s.disk, k), EnvOf(s)).lock
    requires SlotOf(t.disk, k) == WriteSlot(SlotOf(s.disk, k), Decide(s.lock, SlotOf(s.disk, k), EnvOf(s)).write)
    ensures InProgress(t, k, put)
    ensures if k in t.disk.intents then WritingPut(t, k, put) else t.lock.Free?
    ensures Lookup(t.disk.receipts, k) == Lookup(s.disk.receipts, k)
  {
    var c := CellOf(s, k);
    if c.lock.Putting? { PutDecisionLands(c, k, s.worker, EnvOf(s)); } else { ReplayDecisionLands(c, k, s.worker, EnvOf(s)); }
    var d := Decided(c, EnvOf(s));
    assert SlotOf(t.disk, k) == d.slot && t.lock == d.lock;
    assert SlotOf(t.disk, k).intent == Lookup(t.disk.intents, k);
    assert SlotOf(t.disk, k).receipt == Lookup(t.disk.receipts, k);
  }

  /** One more durable write: the request stays in progress or has landed, and is never refused. */
  lemma WriteProgresses(s: State, k: Key, put: PutRequest)
    requires Inv(s) && WritingPut(s, k, put) && InProgress(s, k, put) && k in s.disk.intents
    ensures Enabled(s, Advance)
    ensures var t := AdvanceLock(s);
            && InProgress(t, k, put)
            && (if k in t.disk.intents then WritingPut(t, k, put) else t.lock.Free?)
            && Lookup(t.disk.receipts, k) == Lookup(s.disk.receipts, k)
  {
    LockMoves(s);
    AdvanceSlot(s, k);
    assert KeyOk(s, k);
    DecisionProgresses(s, AdvanceLock(s), k, put);
  }

  /** All other keys are as they were. */
  ghost predicate OnlyTouches(s: State, t: State, k: Key) {
    && Lookup(t.disk.receipts, k) == Lookup(s.disk.receipts, k)
    && forall j :: j != k ==> SlotOf(t.disk, j) == SlotOf(s.disk, j)
  }

  /** Left alone, the writer lands. */
  lemma {:induction false} SettleLands(s: State, k: Key, put: PutRequest)
    requires Inv(s) && WritingPut(s, k, put) && InProgress(s, k, put) && k in s.disk.intents
    ensures Landed(SlotOf(Settle(s).disk, k), put) && OnlyTouches(s, Settle(s), k)
    decreases Remaining(s.lock)
  {
    var t := AdvanceLock(s);
    WriteProgresses(s, k, put);
    LockMoves(s);
    AdvanceKeeps(s);
    forall j | j != k ensures SlotOf(t.disk, j) == SlotOf(s.disk, j) { AdvanceSlot(s, j); }
    if k in t.disk.intents { SettleLands(t, k, put); }
  }

  // ----- crashes and I/O errors anywhere, any number of times -----

  /** What can happen to the master before it serves again. */
  predicate RecoveryStep(a: Action, k: Key) {
    a.Advance? || a.IoError? || a.Crash? || a.Tick? || a.Effect? || a == BeginReplay(k)
  }

  predicate RecoveryRun(run: seq<Action>, k: Key) {
    forall i :: 0 <= i < |run| ==> RecoveryStep(run[i], k)
  }

  /** Nobody holds the lock, or it is held to write `put`. */
  predicate Recovering(s: State, k: Key, put: PutRequest) {
    InProgress(s, k, put) && (s.lock.Free? || (k in s.disk.intents && WritingPut(s, k, put)))
  }

  lemma RecoveryProgresses(s: State, a: Action, k: Key, put: PutRequest)
    requires Inv(s) && Enabled(s, a) && RecoveryStep(a, k) && Recovering(s, k, put)
    ensures Recovering(Next(s, a), k, put) && OnlyTouches(s, Next(s, a), k)
  {
    if a.Advance? {
      WriteProgresses(s, k, put);
      forall j | j != k ensures SlotOf(AdvanceLock(s).disk, j) == SlotOf(s.disk, j) { AdvanceSlot(s, j); }
    } else {
      assert Next(s, a).disk == s.disk && Next(s, a).storeBytes == s.storeBytes;
    }
  }

  /** Crash replay: through any number of crashes and I/O errors at any durable write, the first
      attempt's or a replay's, the request is never refused and never lost, no other key moves, and
      from every point at which the lock is free an uninterrupted replay ends as the Put would. */
  lemma {:induction false} CrashReplayLands(s: State, run: seq<Action>, k: Key, put: PutRequest)
    requires Inv(s) && Legal(s, run) && RecoveryRun(run, k) && Recovering(s, k, put)
    ensures var t := After(s, run);
            && Inv(t) && Recovering(t, k, put) && OnlyTouches(s, t, k)
            && (k !in t.disk.intents ==> Landed(SlotOf(t.disk, k), put))
            && (t.lock.Free? && k in t.disk.intents ==>
                  && Enabled(t, BeginReplay(k)) && Inv(Next(t, BeginReplay(k)))
                  && Landed(SlotOf(Settle(Next(t, BeginReplay(k))).disk, k), put)
                  && OnlyTouches(t, Settle(Next(t, BeginReplay(k))), k))
    decreases |run|
  {
    if run != [] {
      RecoveryProgresses(s, run[0], k, put);
      StepKeeps(s, run[0]);
      assert forall i :: 0 <= i < |run[1..]| ==> run[1..][i] == run[i + 1];
      CrashReplayLands(Next(s, run[0]), run[1..], k, put);
    } else if s.lock.Free? && k in s.disk.intents {
      BeginReplayKeeps(s, k);
      SettleLands(Next(s, BeginReplay(k)), k, put);
    }
  }

  /** A request enters that regime the moment its intent is logged; until then the disk is as it was. */
  lemma LoggedIsRecovering(s: State)
    requires Inv(s) && s.lock.Putting? && s.lock.stage.Admit?
    ensures Enabled(s, Advance)
    ensures var t, put := Next(s, Advance), s.lock.req;
            if t.lock.Free? then t.disk == s.disk
            else put.key in t.disk.intents && Recovering(t, put.key, put) && Logged(t, put.key, put)
  {
    assert KeyOk(s, s.lock.req.key);
  }

  // ----- anything else going on meanwhile -----

  /** `put` is logged for `k`, and whoever holds the lock on `k` is writing it or works in the background. */
  predicate Logged(s: State, k: Key, put: PutRequest) {
    && Lookup(s.disk.intents, k) == Some(put)
    && (LockedKey(s.lock) == Some(k) ==> WritingPut(s, k, put) || s.lock.Completing? || s.lock.Collecting?)
  }

  /** The logged write has been made, and nothing about `k` is in progress. */
  predicate Written(s: State, k: Key, put: PutRequest) {
    Quiet(s, k) && View(s, k) == Some(put.bytes)
  }

  lemma DecisionStaysLogged(c: Cell, k: Key, worker: Worker, env: Env, put: PutRequest)
    requires Sound(c, k, worker, env) && c.slot.intent == Some(put)
    requires (c.lock.Putting? && !c.lock.stage.Admit?) || (c.lock.Replaying? && c.lock.next.Done?) || c.lock.Completing? || c.lock.Collecting?
    ensures var d := Decided(c, env);
            && (d.slot.intent == Some(put) ==>
                  d.lock.Free? || (d.lock.Putting? && d.lock.req == put && !d.lock.stage.Admit?)
                  || (d.lock.Replaying? && d.lock.next.Done?) || d.lock.Completing? || d.lock.Collecting?)
            && (d.slot.intent != Some(put) ==> d.lock.Free? && Landed(d.slot, put))
  {
  }

  lemma AdvanceStaysLogged(s: State, k: Key, put: PutRequest)
    requires Inv(s) && Enabled(s, Advance) && Logged(s, k, put)
    ensures Logged(AdvanceLock(s), k, put) || Written(AdvanceLock(s), k, put)
  {
    var t, key := AdvanceLock(s), LockedKey(s.lock).value;
    AdvanceStaysOnKey(s);
    AdvanceSlot(s, k);
    assert KeyOk(s, k) && SlotOf(t.disk, k).intent == Lookup(t.disk.intents, k);
    if key == k { DecisionStaysLogged(CellOf(s, k), k, s.worker, EnvOf(s), put); }
  }

  lemma OtherStaysLogged(s: State, a: Action, k: Key, put: PutRequest)
    requires Enabled(s, a) && !a.Advance? && !RequestOn(a, k) && Logged(s, k, put)
    ensures Logged(Next(s, a), k, put)
  {
    assert Next(s, a).disk.intents == s.disk.intents;
  }

  /** A logged Put is never lost. Through any run with any other requests, uploads, collections, crashes and
      errors, until the next request on its key: it stays logged until it is written, and then it is what
      is read. From every point at which the lock is free a replay writes it, unless the quota refuses it
      by then, and that changes no file. */
  lemma {:induction false} LoggedIsNeverLost(s: State, run: seq<Action>, k: Key, put: PutRequest)
    requires Inv(s) && Legal(s, run) && Unrequested(run, k) && (Logged(s, k, put) || Written(s, k, put))
    ensures var t := After(s, run);
            && Inv(t) && (if k in t.disk.intents then Logged(t, k, put) else Written(t, k, put))
            && (t.lock.Free? && k in t.disk.intents ==>
                  var u := Next(t, BeginReplay(k));
                  && Inv(u)
                  && (if QuotaObjects(t, k) then Settle(u).disk == t.disk
                      else Landed(SlotOf(Settle(u).disk, k), put) && OnlyTouches(t, Settle(u), k)))
    decreases |run|
  {
    if run != [] {
      assert forall i :: 0 <= i < |run[1..]| ==> run[1..][i] == run[i + 1];
      assert !RequestOn(run[0], k);
      StepKeeps(s, run[0]);
      if k in s.disk.intents {
        if run[0].Advance? { AdvanceStaysLogged(s, k, put); } else { OtherStaysLogged(s, run[0], k, put); }
      } else {
        assert Legal(s, [run[0]]) by { assert [run[0]][1..] == []; }
        QuietViewStays(s, [run[0]], k);
      }
      LoggedIsNeverLost(Next(s, run[0]), run[1..], k, put);
    } else if s.lock.Free? && k in s.disk.intents {
      BeginReplayKeeps(s, k);
      ReplayRefusedIff(s, k);
      if QuotaObjects(s, k) { ReplayIsRefused(s, k); } else { SettleLands(Next(s, BeginReplay(k)), k, put); }
    }
  }

  /** Meanwhile the key reads as before or as the logged bytes. */
  lemma {:induction false} PendingViewStays(s: State, run: seq<Action>, k: Key, put: PutRequest)
    requires Inv(s) && Legal(s, run) && Unrequested(run, k) && (Logged(s, k, put) || Written(s, k, put))
    ensures View(After(s, run), k) in {View(s, k), Some(put.bytes)}
    decreases |run|
  {
    if run != [] {
      assert forall i :: 0 <= i < |run[1..]| ==> run[1..][i] == run[i + 1];
      assert !RequestOn(run[0], k);
      StepKeeps(s, run[0]);
      StepRefines(s, run[0], k);
      if k in s.disk.intents {
        if run[0].Advance? { AdvanceStaysLogged(s, k, put); } else { OtherStaysLogged(s, run[0], k, put); }
      } else {
        assert Legal(s, [run[0]]) by { assert [run[0]][1..] == []; }
        QuietViewStays(s, [run[0]], k);
      }
      PendingViewStays(Next(s, run[0]), run[1..], k, put);
    }
  }

  /** The logged bytes are not stored yet, and the quota has no room for them. */
  predicate QuotaObjects(s: State, k: Key)
    requires k in s.disk.intents
  {
    var slot, bytes := SlotOf(s.disk, k), s.disk.intents[k].bytes;
    Changes(slot, bytes) && !QuotaAllows(EnvOf(s), Len(slot.store), |bytes|)
  }

  /** Immutability never stands in the way of a replay; only the quota can. */
  lemma ReplayRefusedIff(s: State, k: Key)
    requires Inv(s) && k in s.disk.intents
    ensures Replayable(s, k) <==> !QuotaObjects(s, k)
  {
    assert KeyOk(s, k);
  }

  lemma ReplayIsRefused(s: State, k: Key)
    requires Inv(s) && s.lock.Free? && k in s.disk.intents && QuotaObjects(s, k)
    ensures Inv(Next(s, BeginReplay(k))) && Settle(Next(s, BeginReplay(k))).disk == s.disk
  {
    var u := Next(s, BeginReplay(k));
    BeginReplayKeeps(s, k);
    LockMoves(u);
    AdvanceKeeps(u);
    assert AdvanceLock(u).lock.Free? && AdvanceLock(u).disk == s.disk;
  }
}
