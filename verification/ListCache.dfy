/** Listings and their cache: a cached listing equals the one a fresh scan of store, backend and
    deletions would produce. */
module ListCache {
  import opened Basics
  import opened KeyOrder
  import opened MasterState
  import opened MasterInvariant
  import opened MasterRefinement

  // ----- what a listing is -----

  ghost function Visible(s: State, prefix: Key): set<Key> {
    set k | k in s.disk.store.Keys + s.backend.Keys && StartsWith(k, prefix) && View(s, k).Some?
  }

  lemma VisibleIsTheView(s: State, prefix: Key, k: Key)
    ensures k in Visible(s, prefix) <==> StartsWith(k, prefix) && View(s, k).Some?
  {
  }

  ghost predicate ListsKeys(s: State, prefix: Key, list: seq<Key>) {
    Ascending(list) && Elements(list) == Visible(s, prefix)
  }

  type Stat = (Key, nat)

  function KeysIn(list: seq<Stat>): seq<Key> {
    seq(|list|, i requires 0 <= i < |list| => list[i].0)
  }

  ghost predicate ListsSizes(s: State, prefix: Key, list: seq<Stat>) {
    && ListsKeys(s, prefix, KeysIn(list))
    && forall i :: 0 <= i < |list| ==> View(s, list[i].0).Some? && list[i].1 == |View(s, list[i].0).value|
  }

  /** The backend as a LIST sees it: a failing backend is reported and left out. */
  function Listed(s: State, available: bool): map<Key, Bytes> {
    if available then s.backend else map[]
  }

  /** The keys a listing leaves out: the queued operation is a Delete, or there is a tombstone. */
  function DeletedKeys(s: State, prefix: Key): set<Key> {
    (set k | k in s.disk.queue && s.disk.queue[k].op.Delete? && StartsWith(k, prefix))
    + (set k | k in s.disk.tombs && StartsWith(k, prefix))
  }

  /** The backend's objects, overridden by the store's. */
  function SizedScan(s: State, prefix: Key): (objects: map<Key, nat>)
    ensures objects.Keys == Visible(s, prefix)
    ensures forall k :: k in objects ==> objects[k] == |View(s, k).value|
  {
    var deleted := DeletedKeys(s, prefix);
    (map k | k in s.backend && StartsWith(k, prefix) && k !in deleted :: |s.backend[k]|)
    + map k | k in s.disk.store && StartsWith(k, prefix) && k !in deleted :: |s.disk.store[k]|
  }

  /** A fresh sized listing, in key order. */
  method MasterListWithSizes(s: State, prefix: Key, available: bool) returns (list: seq<Stat>)
    ensures ListsSizes(s.(backend := Listed(s, available)), prefix, list)
  {
    var objects := SizedScan(s.(backend := Listed(s, available)), prefix);
    var keys := Sort(objects.Keys);
    forall i | 0 <= i < |keys| ensures keys[i] in objects { assert keys[i] in Elements(keys); }
    list := seq(|keys|, i requires 0 <= i < |keys| && keys[i] in objects => (keys[i], objects[keys[i]]));
    assert KeysIn(list) == keys;
  }

  /** A fresh listing: deleted keys are removed from the store's and from the backend's keys, and the
      union is sorted. */
  method MasterList(s: State, prefix: Key, available: bool) returns (list: seq<Key>)
    ensures ListsKeys(s.(backend := Listed(s, available)), prefix, list)
  {
    var deleted := DeletedKeys(s, prefix);
    var stored := set k | k in s.disk.store && StartsWith(k, prefix) && k !in deleted;
    var remote := set k | k in Listed(s, available) && StartsWith(k, prefix) && k !in deleted;
    list := Sort(stored + remote);
    assert stored + remote == Visible(s.(backend := Listed(s, available)), prefix);
  }

  /** A listing made without the backend is the full one exactly when every visible key under the
      prefix still has its payload on the master. */
  lemma DegradedListingIsCompleteIff(s: State, prefix: Key, list: seq<Key>)
    requires ListsKeys(s.(backend := Listed(s, false)), prefix, list)
    ensures ListsKeys(s, prefix, list) <==> Visible(s, prefix) <= s.disk.store.Keys
  {
    var t := s.(backend := map[]);
    assert Visible(t, prefix) == Visible(s, prefix) * s.disk.store.Keys;
  }

  // ----- a batch of Puts -----

  /** Add or replace one size in a sorted sized listing. */
  function Upsert(list: seq<Stat>, k: Key, size: nat): seq<Stat> {
    if list == [] then [(k, size)]
    else if list[0].0 == k then [(k, size)] + list[1..]
    else if Below(k, list[0].0) then [(k, size)] + list
    else [list[0]] + Upsert(list[1..], k, size)
  }

  lemma KeysOfCons(x: Stat, list: seq<Stat>)
    ensures KeysIn([x] + list) == [x.0] + KeysIn(list)
  {
  }

  lemma {:induction false} UpsertKeys(list: seq<Stat>, k: Key, size: nat)
    ensures KeysIn(Upsert(list, k, size)) == Insert(KeysIn(list), k)
  {
    if list != [] {
      var tail := list[1..];
      assert KeysIn(tail) == KeysIn(list)[1..];
      if list[0].0 == k {
        KeysOfCons((k, size), tail);
      } else if Below(k, list[0].0) {
        KeysOfCons((k, size), list);
      } else {
        UpsertKeys(tail, k, size);
        KeysOfCons(list[0], Upsert(tail, k, size));
      }
    }
  }

  lemma MemberOfCons(x: Stat, head: Stat, tail: seq<Stat>)
    ensures x in [head] + tail <==> x == head || x in tail
  {
  }

  lemma {:induction false} UpsertMembers(list: seq<Stat>, k: Key, size: nat, x: Stat)
    requires Ascending(KeysIn(list))
    ensures x in Upsert(list, k, size) <==> x == (k, size) || (x in list && x.0 != k)
  {
    if list != [] {
      var tail := list[1..];
      assert list == [list[0]] + tail;
      MemberOfCons(x, list[0], tail);
      if list[0].0 == k {
        HeadIsFirst(list);
        MemberOfCons(x, (k, size), tail);
      } else if Below(k, list[0].0) {
        BelowHeadIsNew(list, k);
        MemberOfCons(x, (k, size), list);
      } else {
        assert KeysIn(tail) == KeysIn(list)[1..];
        TailElements(KeysIn(list));
        UpsertMembers(tail, k, size, x);
        MemberOfCons(x, list[0], Upsert(tail, k, size));
      }
    }
  }

  lemma UpsertIsInsert(list: seq<Stat>, k: Key, size: nat)
    requires Ascending(KeysIn(list))
    ensures KeysIn(Upsert(list, k, size)) == Insert(KeysIn(list), k)
    ensures forall x :: x in Upsert(list, k, size) <==> x == (k, size) || (x in list && x.0 != k)
  {
    UpsertKeys(list, k, size);
    forall x ensures x in Upsert(list, k, size) <==> x == (k, size) || (x in list && x.0 != k) { UpsertMembers(list, k, size, x); }
  }

  /** In a sorted listing the key of the head occurs once. */
  lemma HeadIsFirst(list: seq<Stat>)
    requires Ascending(KeysIn(list)) && list != []
    ensures forall x :: x in list[1..] ==> x.0 != list[0].0
  {
    var keys := KeysIn(list);
    forall x | x in list[1..] ensures x.0 != list[0].0 {
      var i :| 0 <= i < |list[1..]| && list[1..][i] == x;
      assert keys[i + 1] == x.0 && Below(keys[0], keys[i + 1]);
      BelowIsAsymmetric(keys[0], keys[i + 1]);
    }
  }

  /** A key below the head is not listed. */
  lemma BelowHeadIsNew(list: seq<Stat>, k: Key)
    requires Ascending(KeysIn(list)) && list != [] && Below(k, list[0].0)
    ensures forall x :: x in list ==> x.0 != k
  {
    var keys := KeysIn(list);
    forall x | x in list ensures x.0 != k {
      var i :| 0 <= i < |list| && list[i] == x;
      assert keys[i] == x.0;
      if i > 0 { BelowIsTransitive(k, keys[0], keys[i]); }
      BelowIsAsymmetric(k, keys[i]);
    }
  }

  /** `list` shows the keys visible after the first Puts of a batch. */
  ghost predicate KeysAfter(s: State, items: seq<PutRequest>, prefix: Key, list: seq<Key>) {
    && Ascending(list)
    && forall k :: k in list <==> StartsWith(k, prefix) && LastWrite(items, k, View(s, k)).Some?
  }

  ghost predicate SizesAfter(s: State, items: seq<PutRequest>, prefix: Key, list: seq<Stat>) {
    && KeysAfter(s, items, prefix, KeysIn(list))
    && forall x :: x in list ==> var v := LastWrite(items, x.0, View(s, x.0)); v.Some? && x.1 == |v.value|
  }

  lemma KeysInMembers(list: seq<Stat>)
    ensures forall k :: k in KeysIn(list) <==> exists x :: x in list && x.0 == k
  {
    var keys := KeysIn(list);
    forall k ensures k in keys <==> exists x :: x in list && x.0 == k {
      if k in keys {
        var i :| 0 <= i < |keys| && keys[i] == k;
        assert list[i] in list;
      }
      if x :| x in list && x.0 == k {
        var i :| 0 <= i < |list| && list[i] == x;
        assert keys[i] == k;
      }
    }
  }

  lemma NothingYet(s: State, prefix: Key, keys: seq<Key>)
    ensures ListsKeys(s, prefix, keys) <==> KeysAfter(s, [], prefix, keys)
  {
    assert forall k :: k in keys <==> k in Elements(keys);
  }

  lemma BatchDone(s: State, t: State, items: seq<PutRequest>, prefix: Key, keys: seq<Key>)
    requires BatchApplied(s, t, items) && KeysAfter(s, items, prefix, keys)
    ensures ListsKeys(t, prefix, keys)
  {
    assert forall k :: k in keys <==> StartsWith(k, prefix) && View(t, k).Some?;
    assert Elements(keys) == Visible(t, prefix);
  }

  /** The keys are pushed to the end and the list is sorted afterwards. */
  method RefreshKeys(ghost s: State, items: seq<PutRequest>, prefix: Key, list: seq<Key>) returns (r: seq<Key>)
    requires KeysAfter(s, [], prefix, list)
    ensures KeysAfter(s, items, prefix, r)
  {
    var pushed := list;
    for n := 0 to |items|
      invariant forall k :: k in pushed <==> StartsWith(k, prefix) && LastWrite(items[..n], k, View(s, k)).Some?
    {
      assert items[..n + 1][..n] == items[..n];
      if StartsWith(items[n].key, prefix) && items[n].key !in pushed { pushed := pushed + [items[n].key]; }
    }
    assert items[..|items|] == items;
    r := Sort(set k | k in pushed);
    assert forall k :: k in r <==> k in Elements(r);
  }

  ghost predicate OneEach(list: seq<Stat>) {
    forall i, j :: 0 <= i < j < |list| ==> list[i].0 != list[j].0
  }

  /** Change the size of a listed key, or push a new entry. */
  method SetSize(list: seq<Stat>, k: Key, size: nat) returns (r: seq<Stat>)
    requires OneEach(list)
    ensures OneEach(r) && forall x :: x in r <==> x == (k, size) || (x in list && x.0 != k)
  {
    for i := 0 to |list|
      invariant forall j :: 0 <= j < i ==> list[j].0 != k
    {
      if list[i].0 == k {
        r := list[i := (k, size)];
        assert r == list[..i] + [(k, size)] + list[i + 1..] && list == list[..i] + [list[i]] + list[i + 1..];
        return;
      }
    }
    r := list + [(k, size)];
  }

  method SortByKey(list: seq<Stat>) returns (r: seq<Stat>)
    requires OneEach(list)
    ensures Ascending(KeysIn(r)) && forall x :: x in r <==> x in list
  {
    r := [];
    for n := 0 to |list|
      invariant Ascending(KeysIn(r)) && forall x :: x in r <==> x in list[..n]
    {
      UpsertIsInsert(r, list[n].0, list[n].1);
      InsertSorts(KeysIn(r), list[n].0);
      assert forall x :: x in list[..n + 1] <==> x in list[..n] || x == list[n];
      r := Upsert(r, list[n].0, list[n].1);
    }
    assert list[..|list|] == list;
  }

  /** The entries a sized listing has after the first Puts of a batch. */
  ghost predicate StatAfter(s: State, items: seq<PutRequest>, prefix: Key, x: Stat) {
    var v := LastWrite(items, x.0, View(s, x.0));
    StartsWith(x.0, prefix) && v.Some? && x.1 == |v.value|
  }

  lemma SizesAreStats(s: State, items: seq<PutRequest>, prefix: Key, list: seq<Stat>)
    requires Ascending(KeysIn(list))
    ensures SizesAfter(s, items, prefix, list) <==> forall x :: x in list <==> StatAfter(s, items, prefix, x)
  {
    KeysInMembers(list);
    if SizesAfter(s, items, prefix, list) {
      forall x | StatAfter(s, items, prefix, x) ensures x in list { assert x.0 in KeysIn(list); }
    }
    if forall x :: x in list <==> StatAfter(s, items, prefix, x) {
      forall k | StartsWith(k, prefix) && LastWrite(items, k, View(s, k)).Some? ensures k in KeysIn(list) {
        assert StatAfter(s, items, prefix, (k, |LastWrite(items, k, View(s, k)).value|));
      }
    }
  }

  method RefreshSizes(ghost s: State, items: seq<PutRequest>, prefix: Key, list: seq<Stat>) returns (r: seq<Stat>)
    requires SizesAfter(s, [], prefix, list)
    ensures SizesAfter(s, items, prefix, r)
  {
    SizesAreStats(s, [], prefix, list);
    AscendingIsOneEach(list);
    var pushed := list;
    for n := 0 to |items|
      invariant OneEach(pushed) && forall x :: x in pushed <==> StatAfter(s, items[..n], prefix, x)
    {
      assert items[..n + 1][..n] == items[..n];
      if StartsWith(items[n].key, prefix) { pushed := SetSize(pushed, items[n].key, |items[n].bytes|); }
    }
    assert items[..|items|] == items;
    r := SortByKey(pushed);
    SizesAreStats(s, items, prefix, r);
  }

  lemma AscendingIsOneEach(list: seq<Stat>)
    requires Ascending(KeysIn(list))
    ensures OneEach(list)
  {
    forall i, j | 0 <= i < j < |list| ensures list[i].0 != list[j].0 {
      BelowIsAsymmetric(KeysIn(list)[i], KeysIn(list)[j]);
    }
  }

  lemma SizesStart(s: State, prefix: Key, list: seq<Stat>)
    ensures ListsSizes(s, prefix, list) <==> SizesAfter(s, [], prefix, list)
  {
    NothingYet(s, prefix, KeysIn(list));
    assert forall i :: 0 <= i < |list| ==> list[i] in list;
  }

  lemma SizesDone(s: State, t: State, items: seq<PutRequest>, prefix: Key, list: seq<Stat>)
    requires BatchApplied(s, t, items) && SizesAfter(s, items, prefix, list)
    ensures ListsSizes(t, prefix, list)
  {
    BatchDone(s, t, items, prefix, KeysIn(list));
    assert forall i :: 0 <= i < |list| ==> list[i] in list;
  }

  // ----- the cache -----

  datatype Entry<T> = Entry(created: nat, list: seq<T>)

  ghost predicate SameView(s: State, t: State) {
    forall k :: View(s, k) == View(t, k)
  }

  class Cache {
    const ttl: nat
    var keys: map<Key, Entry<Key>>
    var sizes: map<Key, Entry<Stat>>
    var prefixes: map<Key, Entry<Key>>

    /** Every cached listing is the one a fresh scan would give. */
    ghost predicate Agrees(s: State)
      reads this
    {
      && (ttl == 0 ==> keys == map[] && sizes == map[])
      && (forall p :: p in keys ==> ListsKeys(s, p, keys[p].list))
      && (forall p :: p in sizes ==> ListsSizes(s, p, sizes[p].list))
    }

    constructor (ttl: nat)
      ensures this.ttl == ttl && keys == map[] && sizes == map[] && prefixes == map[]
      ensures forall s :: Agrees(s)
    {
      this.ttl := ttl;
      keys, sizes, prefixes := map[], map[], map[];
    }

    predicate Hits<T>(cached: map<Key, Entry<T>>, prefix: Key, now: nat) {
      ttl > 0 && prefix in cached && now < cached[prefix].created + ttl
    }

    /** LIST: the cached listing if it is young enough, else a fresh one, which is cached. With the
        backend answering, either is the listing of what is visible now. */
    method List(s: State, prefix: Key, now: nat, available: bool) returns (list: seq<Key>)
      modifies this`keys
      ensures old(Agrees(s)) && available ==> Agrees(s) && ListsKeys(s, prefix, list)
      ensures old(Agrees(s)) && !available ==> Elements(list) <= Visible(s, prefix)
      ensures old(Hits(keys, prefix, now)) ==> list == old(keys[prefix].list)
      ensures !old(Hits(keys, prefix, now)) ==> ListsKeys(s.(backend := Listed(s, available)), prefix, list)
      ensures ttl > 0 ==> prefix in keys && keys[prefix].list == list && now < keys[prefix].created + ttl
    {
      if ttl > 0 && prefix in keys {
        if now < keys[prefix].created + ttl { return keys[prefix].list; }
        keys := keys - {prefix};
      }
      list := MasterList(s, prefix, available);
      assert available ==> s.(backend := Listed(s, available)) == s;
      if ttl > 0 { keys := keys[prefix := Entry(now, list)]; }
    }

    method ListWithSizes(s: State, prefix: Key, now: nat, available: bool) returns (list: seq<Stat>)
      modifies this`sizes
      ensures old(Agrees(s)) && available ==> Agrees(s) && ListsSizes(s, prefix, list)
      ensures old(Agrees(s)) && !available ==> Elements(KeysIn(list)) <= Visible(s, prefix)
      ensures old(Hits(sizes, prefix, now)) ==> list == old(sizes[prefix].list)
      ensures !old(Hits(sizes, prefix, now)) ==> ListsSizes(s.(backend := Listed(s, available)), prefix, list)
      ensures ttl > 0 ==> prefix in sizes && sizes[prefix].list == list && now < sizes[prefix].created + ttl
    {
      if ttl > 0 && prefix in sizes {
        if now < sizes[prefix].created + ttl { return sizes[prefix].list; }
        sizes := sizes - {prefix};
      }
      list := MasterListWithSizes(s, prefix, available);
      assert available ==> s.(backend := Listed(s, available)) == s;
      if ttl > 0 { sizes := sizes[prefix := Entry(now, list)]; }
    }

    /** A Delete empties the cache. */
    method Clear()
      modifies this
      ensures forall s :: Agrees(s)
      ensures keys == map[] && sizes == map[] && prefixes == map[]
    {
      keys, sizes, prefixes := map[], map[], map[];
    }

    /** After a batch of Puts the listings are edited in place, and agree with the new state. */
    method UpdateAfterPuts(ghost s: State, ghost t: State, items: seq<PutRequest>)
      requires Agrees(s) && BatchApplied(s, t, items)
      modifies this
      ensures Agrees(t)
      ensures ttl > 0 ==> prefixes == map[]
      ensures keys.Keys == old(keys.Keys) && sizes.Keys == old(sizes.Keys)
    {
      if ttl == 0 { return; }
      prefixes := map[];
      RefreshAllKeys(s, t, items);
      RefreshAllSizes(s, t, items);
    }

    method RefreshAllKeys(ghost s: State, ghost t: State, items: seq<PutRequest>)
      requires BatchApplied(s, t, items) && forall p :: p in keys ==> ListsKeys(s, p, keys[p].list)
      modifies this`keys
      ensures keys.Keys == old(keys.Keys) && forall p :: p in keys ==> ListsKeys(t, p, keys[p].list)
    {
      var todo := keys.Keys;
      while todo != {}
        invariant keys.Keys == old(keys.Keys) && todo <= keys.Keys
        invariant forall p :: p in keys ==> ListsKeys(if p in todo then s else t, p, keys[p].list)
        decreases |todo|
      {
        var p :| p in todo;
        NothingYet(s, p, keys[p].list);
        var list := RefreshKeys(s, items, p, keys[p].list);
        BatchDone(s, t, items, p, list);
        keys := keys[p := keys[p].(list := list)];
        todo := todo - {p};
      }
    }

    method RefreshAllSizes(ghost s: State, ghost t: State, items: seq<PutRequest>)
      requires BatchApplied(s, t, items) && forall p :: p in sizes ==> ListsSizes(s, p, sizes[p].list)
      modifies this`sizes
      ensures sizes.Keys == old(sizes.Keys) && forall p :: p in sizes ==> ListsSizes(t, p, sizes[p].list)
    {
      var todo := sizes.Keys;
      while todo != {}
        invariant sizes.Keys == old(sizes.Keys) && todo <= sizes.Keys
        invariant forall p :: p in sizes ==> ListsSizes(if p in todo then s else t, p, sizes[p].list)
        decreases |todo|
      {
        var p :| p in todo;
        SizesStart(s, p, sizes[p].list);
        var list := RefreshSizes(s, items, p, sizes[p].list);
        SizesDone(s, t, items, p, list);
        sizes := sizes[p := sizes[p].(list := list)];
        todo := todo - {p};
      }
    }
  }

  // ----- whole runs -----

  lemma SameListings(s: State, t: State, prefix: Key)
    requires SameView(s, t)
    ensures Visible(s, prefix) == Visible(t, prefix)
  {
    forall k ensures k in Visible(s, prefix) <==> k in Visible(t, prefix) {
      VisibleIsTheView(s, prefix, k);
      VisibleIsTheView(t, prefix, k);
    }
  }

  lemma AgreementCarriesOver(cache: Cache, s: State, t: State)
    requires SameView(s, t) && cache.Agrees(s)
    ensures cache.Agrees(t)
  {
    forall p ensures Visible(s, p) == Visible(t, p) { SameListings(s, t, p); }
  }

  /** Between requests the cache needs no attention: however long the background works, through
      crashes and I/O errors, the cached listings stay those of a fresh scan. */
  lemma BackgroundKeepsCache(cache: Cache, s: State, run: seq<Action>)
    requires Inv(s) && Legal(s, run) && forall k :: Quiet(s, k) && Unrequested(run, k)
    requires cache.Agrees(s)
    ensures cache.Agrees(After(s, run))
  {
    forall k ensures View(s, k) == View(After(s, run), k) { QuietViewStays(s, run, k); }
    AgreementCarriesOver(cache, s, After(s, run));
  }

  /** A batch that stops at an error skips the update of the cache. A cached listing survives that
      exactly when every key the batch did write under its prefix was visible before. */
  lemma SkippedUpdateIsHarmlessIff(s: State, t: State, items: seq<PutRequest>, prefix: Key, list: seq<Key>)
    requires BatchApplied(s, t, items) && ListsKeys(s, prefix, list)
    ensures ListsKeys(t, prefix, list) <==>
            forall i :: 0 <= i < |items| && StartsWith(items[i].key, prefix) ==> View(s, items[i].key).Some?
  {
    forall k ensures k in Visible(t, prefix) <==>
                     k in Visible(s, prefix) || (StartsWith(k, prefix) && exists i :: 0 <= i < |items| && items[i].key == k)
    {
      WrittenKeysAreVisible(items, k, View(s, k));
    }
    forall i | 0 <= i < |items| && StartsWith(items[i].key, prefix) ensures items[i].key in Visible(t, prefix) {
    }
  }

  /** A sized listing moreover needs every such key to have kept its size. */
  lemma SkippedSizesAreHarmlessIff(s: State, t: State, items: seq<PutRequest>, prefix: Key, list: seq<Stat>)
    requires BatchApplied(s, t, items) && ListsSizes(s, prefix, list)
    ensures ListsSizes(t, prefix, list) <==>
            forall i :: 0 <= i < |items| && StartsWith(items[i].key, prefix) ==> KeepsSize(items, items[i].key, View(s, items[i].key))
  {
    SkippedUpdateIsHarmlessIff(s, t, items, prefix, KeysIn(list));
    if ListsSizes(t, prefix, list) {
      forall i | 0 <= i < |items| && StartsWith(items[i].key, prefix) ensures KeepsSize(items, items[i].key, View(s, items[i].key)) {
        var k := items[i].key;
        assert View(s, k).Some? && k in Visible(s, prefix) && k in KeysIn(list);
        var j :| 0 <= j < |list| && KeysIn(list)[j] == k;
      }
    }
    if forall i :: 0 <= i < |items| && StartsWith(items[i].key, prefix) ==> KeepsSize(items, items[i].key, View(s, items[i].key)) {
      forall j | 0 <= j < |list| ensures View(t, list[j].0).Some? && list[j].1 == |View(t, list[j].0).value| {
        var k := list[j].0;
        assert KeysIn(list)[j] == k && k in Elements(KeysIn(list));
        WrittenKeysAreVisible(items, k, View(s, k));
      }
    }
  }

  /** The last write of the batch to `k` has the size of what was there. */
  predicate KeepsSize(items: seq<PutRequest>, k: Key, before: Option<Bytes>) {
    before.Some? && Len(LastWrite(items, k, before)) == |before.value|
  }

  lemma {:induction false} WrittenKeysAreVisible(items: seq<PutRequest>, k: Key, before: Option<Bytes>)
    ensures LastWrite(items, k, before).Some? <==> before.Some? || exists i :: 0 <= i < |items| && items[i].key == k
    ensures (forall i :: 0 <= i < |items| ==> items[i].key != k) ==> LastWrite(items, k, before) == before
  {
    if items != [] {
      WrittenKeysAreVisible(items[..|items| - 1], k, before);
    }
  }
}
