/** The list cache over whole runs of listings, Put batches, Deletes and background work, and the runs in
    which it goes stale. */
module ListRuns {
  import opened Basics
  import opened KeyOrder
  import opened MasterState
  import opened MasterInvariant
  import opened MasterRefinement
  import opened CrashReplay
  import opened Boundaries
  import opened ListCache

  /** What the master does between two looks at the cache. A silent event makes the writes `items` without an
      update of the cache: a batch that stops at a refusal, or a replay of a write that an error had cut
      off. */
  datatype Event =
    | ListEvent(prefix: Key)
    | SizesEvent(prefix: Key)
    | PutsEvent(items: seq<PutRequest>)
    | SilentEvent(items: seq<PutRequest>)
    | DeleteEvent
    | QuietEvent(run: seq<Action>)

  /** Event `e` takes the master from `s` to `t`. A silent event is harmless to the cache when what it wrote was
      visible before, in the same sizes. */
  ghost predicate Follows(s: State, e: Event, t: State) {
    match e
    case ListEvent(_) => t == s
    case SizesEvent(_) => t == s
    case PutsEvent(items) => BatchApplied(s, t, items)
    case SilentEvent(items) =>
      BatchApplied(s, t, items) && forall i :: 0 <= i < |items| ==> KeepsSize(items, items[i].key, View(s, items[i].key))
    case DeleteEvent => true
    case QuietEvent(run) => Inv(s) && Legal(s, run) && t == After(s, run) && forall k :: Quiet(s, k) && Unrequested(run, k)
  }

  ghost predicate IsRun(states: seq<State>, events: seq<Event>) {
    |states| == |events| + 1 && forall i :: 0 <= i < |events| ==> Follows(states[i], events[i], states[i + 1])
  }

  /** The listings given out; other events give out empty ones. */
  datatype Answer = Answer(keys: seq<Key>, sizes: seq<Stat>)

  ghost predicate Right(s: State, e: Event, answer: Answer) {
    && (e.ListEvent? ==> ListsKeys(s, e.prefix, answer.keys))
    && (e.SizesEvent? ==> ListsSizes(s, e.prefix, answer.sizes))
  }

  lemma SilentKeepsCache(cache: Cache, s: State, t: State, items: seq<PutRequest>)
    requires cache.Agrees(s) && Follows(s, SilentEvent(items), t)
    ensures cache.Agrees(t)
  {
    forall p | p in cache.keys ensures ListsKeys(t, p, cache.keys[p].list) {
      SkippedUpdateIsHarmlessIff(s, t, items, p, cache.keys[p].list);
    }
    forall p | p in cache.sizes ensures ListsSizes(t, p, cache.sizes[p].list) {
      SkippedSizesAreHarmlessIff(s, t, items, p, cache.sizes[p].list);
    }
  }

  method Handle(cache: Cache, s: State, e: Event, ghost t: State, now: nat) returns (answer: Answer)
    requires cache.Agrees(s) && Follows(s, e, t)
    modifies cache
    ensures cache.Agrees(t) && Right(s, e, answer)
  {
    answer := Answer([], []);
    match e {
      case ListEvent(prefix) =>
        var keys := cache.List(s, prefix, now, true);
        answer := Answer(keys, []);
      case SizesEvent(prefix) =>
        var sizes := cache.ListWithSizes(s, prefix, now, true);
        answer := Answer([], sizes);
      case PutsEvent(items) => cache.UpdateAfterPuts(s, t, items);
      case SilentEvent(items) => SilentKeepsCache(cache, s, t, items);
      case DeleteEvent => cache.Clear();
      case QuietEvent(run) => BackgroundKeepsCache(cache, s, run);
    }
  }

  /** Over every run with a backend that answers: each listing given out, cached or not, is the one a fresh
      scan would give at that moment. */
  method Serve(cache: Cache, states: seq<State>, events: seq<Event>, times: seq<nat>) returns (answers: seq<Answer>)
    requires IsRun(states, events) && |times| == |events| && cache.Agrees(states[0])
    modifies cache
    ensures |answers| == |events| && cache.Agrees(states[|events|])
    ensures forall i :: 0 <= i < |events| ==> Right(states[i], events[i], answers[i])
  {
    answers := [];
    for n := 0 to |events|
      invariant |answers| == n && cache.Agrees(states[n])
      invariant forall i :: 0 <= i < n ==> Right(states[i], events[i], answers[i])
    {
      var answer := Handle(cache, states[n], events[n], states[n + 1], times[n]);
      answers := answers + [answer];
    }
  }

  // ----- how it goes stale -----

  /** A listing made while the backend is down is cached, and given out again after it is back: it hides
      every object that only the backend holds. */
  method DegradedListingIsCached(cache: Cache, s: State, k: Key, prefix: Key, now: nat) returns (down: seq<Key>, up: seq<Key>)
    requires Init(s) && k in s.backend && StartsWith(k, prefix) && cache.ttl > 0 && prefix !in cache.keys
    modifies cache
    ensures View(s, k).Some? && down == up == [] && !cache.Agrees(s)
  {
    down := cache.List(s, prefix, now, false);
    assert Visible(s.(backend := Listed(s, false)), prefix) == {};
    FirstIsListed(down);
    up := cache.List(s, prefix, now, true);
    VisibleIsTheView(s, prefix, k);
    assert k !in Elements([]);
  }

  /** A batch writes a new key and stops at an object the quota refuses: the listing cached before lacks
      the new key. */
  lemma StoppedBatchHidesKey(i: State, first: PutRequest, second: PutRequest, prefix: Key) returns (t: State)
    requires Init(i) && i.backend == map[] && i.config.limit.Some? && first.key != second.key && StartsWith(first.key, prefix)
    requires ContentAddressed(Lookup(i.config.canon, first.key), first) && |first.bytes| <= i.config.limit.value < |second.bytes|
    ensures Reaches(i, t) && BatchApplied(i, t, [first])
    ensures AdmissionOf(SlotOf(t.disk, second.key), EnvOf(t), second).Refused?
    ensures ListsKeys(i, prefix, []) && !ListsKeys(t, prefix, [])
  {
    t := AfterNewPut(i, first);
    ReachesItself(i);
    NewPutReaches(i, i, first);
    forall k ensures View(t, k) == LastWrite([first], k, View(i, k)) { assert [first][..0] == []; }
    assert Visible(i, prefix) == {};
    VisibleIsTheView(t, prefix, first.key);
    assert first.key !in Elements([]);
  }

  /** A batch overwrites a visible key with bytes of another size and stops at an object the quota refuses: the
      key list stays right, the sized listing does not. */
  lemma StoppedBatchHidesSize(i: State, put: PutRequest, second: PutRequest, was: Bytes, prefix: Key) returns (t: State)
    requires Init(i) && i.backend == map[put.key := was] && i.config.limit.Some? && put.key != second.key && StartsWith(put.key, prefix)
    requires ContentAddressed(Lookup(i.config.canon, put.key), put) && |put.bytes| <= i.config.limit.value < |second.bytes|
    requires |was| != |put.bytes|
    ensures Reaches(i, t) && BatchApplied(i, t, [put])
    ensures AdmissionOf(SlotOf(t.disk, second.key), EnvOf(t), second).Refused?
    ensures ListsKeys(i, prefix, [put.key]) && ListsKeys(t, prefix, [put.key])
    ensures ListsSizes(i, prefix, [(put.key, |was|)]) && !ListsSizes(t, prefix, [(put.key, |was|)])
  {
    t := AfterNewPut(i, put);
    ReachesItself(i);
    NewPutReaches(i, i, put);
    forall k ensures View(t, k) == LastWrite([put], k, View(i, k)) { assert [put][..0] == []; }
    assert Visible(i, prefix) == {put.key} == Visible(t, prefix) && Elements([put.key]) == {put.key};
    assert KeysIn([(put.key, |was|)]) == [put.key];
  }

  lemma {:induction false} SettleReaches(i: State, s: State)
    requires Reaches(i, s) && Inv(s)
    ensures Reaches(i, Settle(s)) && Settle(s).backend == s.backend
    decreases Remaining(s.lock)
  {
    if !s.lock.Free? {
      LockMoves(s);
      AdvanceKeeps(s);
      ReachesNext(i, s, Advance);
      SettleReaches(i, AdvanceLock(s));
    }
  }

  /** A Put fails after its intent is logged, and the worker replays it later: a listing cached in between
      lacks the new key. */
  lemma ReplayHidesKey(i: State, put: PutRequest, prefix: Key) returns (s: State, t: State)
    requires Init(i) && i.backend == map[] && StartsWith(put.key, prefix) && QuotaAllows(EnvOf(i), 0, |put.bytes|)
    requires ContentAddressed(Lookup(i.config.canon, put.key), put)
    ensures Reaches(i, s) && Reaches(i, t) && s.lock.Free? && BatchApplied(s, t, [put])
    ensures ListsKeys(s, prefix, []) && !ListsKeys(t, prefix, [])
  {
    var k := put.key;
    s := CutOffAfterLogging(i, put);
    InitInv(i);
    var u := Next(s, BeginReplay(k));
    assert Legal(s, []) && Unrequested([], k) && CrashReplay.Logged(s, k, put);
    LoggedIsNeverLost(s, [], k, put);
    ReachesNext(i, s, BeginReplay(k));
    SettleReaches(i, u);
    t := Settle(u);
    ReplayApplies(s, t, put);
    assert Visible(s, prefix) == {};
    VisibleIsTheView(t, prefix, k);
    assert k !in Elements([]);
  }

  lemma ReplayApplies(s: State, t: State, put: PutRequest)
    requires s.backend == t.backend == map[] && s.disk == Disk(map[], map[put.key := put], map[], map[], map[])
    requires Landed(SlotOf(t.disk, put.key), put) && OnlyTouches(s, t, put.key)
    ensures BatchApplied(s, t, [put])
  {
    forall k ensures View(t, k) == LastWrite([put], k, View(s, k)) {
      assert [put][..0] == [];
      if k != put.key { assert SlotOf(t.disk, k) == SlotOf(s.disk, k); }
    }
  }
}
