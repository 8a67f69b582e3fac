/** The in-memory index of local tombstones: its secondary indexes, its scans, and its agreement with
    the tombstone files while refreshes and writers interleave. */
module GcCatalog {
  import opened Basics
  import opened KeyOrder

  datatype GcItem = GcItem(generation: nat, key: Key, size: nat, deletedAt: nat, deleteAfter: nat)

  function SaturatingSub(a: nat, b: nat): nat {
    if a < b then 0 else a - b
  }

  ghost function TotalSize(items: map<Key, GcItem>): nat
    decreases |items|
  {
    if items == map[] then 0
    else
      var k :| k in items;
      items[k].size + TotalSize(items - {k})
  }

  lemma {:induction false} TotalSizeWithout(items: map<Key, GcItem>, k: Key)
    requires k in items
    ensures TotalSize(items) == items[k].size + TotalSize(items - {k})
    decreases |items|
  {
    var c :| c in items && TotalSize(items) == items[c].size + TotalSize(items - {c});
    if c != k {
      TotalSizeWithout(items - {c}, k);
      TotalSizeWithout(items - {k}, c);
      assert items - {c} - {k} == items - {k} - {c};
    }
  }

  // ----- time indexes -----

  type Stamp = (nat, Key)

  /** The order of a time index: time, then key. */
  predicate Earlier(a: Stamp, b: Stamp) {
    a.0 < b.0 || (a.0 == b.0 && Below(a.1, b.1))
  }

  function InsertStamp(stamps: seq<Stamp>, x: Stamp): seq<Stamp> {
    if stamps == [] || Earlier(x, stamps[0]) then [x] + stamps else [stamps[0]] + InsertStamp(stamps[1..], x)
  }

  ghost predicate ByTime(stamps: seq<Stamp>) {
    forall i, j :: 0 <= i < j < |stamps| ==> stamps[i].0 <= stamps[j].0
  }

  lemma {:induction false} InsertStampByTime(stamps: seq<Stamp>, x: Stamp)
    requires ByTime(stamps)
    ensures ByTime(InsertStamp(stamps, x)) && forall y :: y in InsertStamp(stamps, x) <==> y == x || y in stamps
  {
    if stamps != [] && !Earlier(x, stamps[0]) {
      var rest := InsertStamp(stamps[1..], x);
      InsertStampByTime(stamps[1..], x);
      assert stamps == [stamps[0]] + stamps[1..];
      forall j | 0 <= j < |rest| ensures stamps[0].0 <= rest[j].0 {
        assert rest[j] in rest;
        if rest[j] != x {
          var i :| 0 <= i < |stamps[1..]| && stamps[1..][i] == rest[j];
          assert stamps[i + 1] == rest[j];
        }
      }
    }
  }

  /** Walk a time index in order. */
  method InTimeOrder(index: set<Stamp>) returns (stamps: seq<Stamp>)
    ensures ByTime(stamps) && forall x :: x in stamps <==> x in index
  {
    stamps := [];
    var todo := index;
    while todo != {}
      invariant todo <= index && ByTime(stamps) && forall x :: x in stamps <==> x in index && x !in todo
      decreases |todo|
    {
      var x :| x in todo;
      InsertStampByTime(stamps, x);
      stamps := InsertStamp(stamps, x);
      todo := todo - {x};
    }
  }

  class LocalGcCatalog {
    var items: map<Key, GcItem>
    var deletedAt: set<Stamp>
    var deleteAfter: set<Stamp>
    var bytes: nat

    /** Both time indexes and the byte total are functions of the item map. */
    ghost predicate Valid()
      reads this
    {
      && (forall k :: k in items ==> items[k].key == k)
      && (forall x :: x in deletedAt <==> x.1 in items && items[x.1].deletedAt == x.0)
      && (forall x :: x in deleteAfter <==> x.1 in items && items[x.1].deleteAfter == x.0)
      && bytes == TotalSize(items)
    }

    constructor ()
      ensures Valid() && items == map[]
    {
      items, deletedAt, deleteAfter, bytes := map[], {}, {}, 0;
    }

    method Remove(key: Key)
      requires Valid()
      modifies this
      ensures Valid() && items == old(items) - {key}
    {
      if key in items {
        TotalSizeWithout(items, key);
        var item := items[key];
        items := items - {key};
        bytes := SaturatingSub(bytes, item.size);
        deletedAt := deletedAt - {(item.deletedAt, item.key)};
        deleteAfter := deleteAfter - {(item.deleteAfter, item.key)};
      }
    }

    method Insert(item: GcItem)
      requires Valid()
      modifies this
      ensures Valid() && items == old(items)[item.key := item]
    {
      Remove(item.key);
      bytes := bytes + item.size;
      deletedAt := deletedAt + {(item.deletedAt, item.key)};
      deleteAfter := deleteAfter + {(item.deleteAfter, item.key)};
      assert items[item.key := item] - {item.key} == items;
      TotalSizeWithout(items[item.key := item], item.key);
      items := items[item.key := item];
    }

    /** Counts and extremes, read off the indexes. */
    method Stats() returns (objects: nat, total: nat, oldest: Option<nat>, next: Option<nat>)
      requires Valid()
      ensures objects == |items| && total == TotalSize(items)
      ensures oldest.None? <==> items == map[]
      ensures oldest.Some? ==> (exists k :: k in items && items[k].deletedAt == oldest.value)
                               && forall k :: k in items ==> oldest.value <= items[k].deletedAt
      ensures next.None? <==> items == map[]
      ensures next.Some? ==> (exists k :: k in items && items[k].deleteAfter == next.value)
                             && forall k :: k in items ==> next.value <= items[k].deleteAfter
    {
      objects, total := |items|, bytes;
      oldest := First(deletedAt);
      next := First(deleteAfter);
      if items != map[] {
        var k :| k in items;
        assert (items[k].deletedAt, k) in deletedAt && (items[k].deleteAfter, k) in deleteAfter;
      }
      assert forall k :: k in items ==> (items[k].deletedAt, k) in deletedAt && (items[k].deleteAfter, k) in deleteAfter;
    }

    method First(index: set<Stamp>) returns (at: Option<nat>)
      ensures at.None? <==> index == {}
      ensures at.Some? ==> (exists x :: x in index && x.0 == at.value) && forall x :: x in index ==> at.value <= x.0
    {
      var stamps := InTimeOrder(index);
      if stamps == [] {
        return None;
      }
      assert stamps[0] in stamps;
      return Some(stamps[0].0);
    }

    /** The ordered range from `prefix`, taken while the prefix lasts, is the set of keys with it. */
    method KeysWithPrefix(prefix: Key) returns (found: seq<Key>)
      requires Valid()
      ensures Ascending(found) && forall k :: k in found <==> k in items && StartsWith(k, prefix)
    {
      var keys := Sort(items.Keys);
      assert forall k :: k in Elements(keys) <==> k in items;
      var start := 0;
      while start < |keys| && !AtMost(prefix, keys[start])
        invariant start <= |keys| && forall i :: 0 <= i < start ==> !AtMost(prefix, keys[i])
      {
        start := start + 1;
      }
      var end := start;
      while end < |keys| && StartsWith(keys[end], prefix)
        invariant start <= end <= |keys| && forall i :: start <= i < end ==> StartsWith(keys[i], prefix)
      {
        end := end + 1;
      }
      found := keys[start..end];
      forall k ensures k in found <==> k in items && StartsWith(k, prefix) {
        if k in items && StartsWith(k, prefix) {
          var i :| 0 <= i < |keys| && keys[i] == k;
          PrefixIsAtMost(prefix, k);
          RangeEnds(keys, prefix, start, end, i);
          assert found[i - start] == k;
        }
        if k in found {
          var i :| 0 <= i < |found| && found[i] == k;
          assert keys[start + i] == k && k in Elements(keys);
        }
      }
    }

    /** The time index, taken while it is due, is the set of due items. */
    method Due(now: nat) returns (due: seq<GcItem>)
      requires Valid()
      ensures forall x :: x in due <==> x.key in items && items[x.key] == x && x.deleteAfter <= now
    {
      var stamps := InTimeOrder(deleteAfter);
      due := [];
      var n := 0;
      while n < |stamps| && stamps[n].0 <= now
        invariant n <= |stamps|
        invariant forall x :: x in due ==> x.key in items && items[x.key] == x && x.deleteAfter <= now
        invariant forall i :: 0 <= i < n ==> stamps[i].1 in items && items[stamps[i].1] in due
      {
        assert stamps[n] in stamps;
        due := due + [items[stamps[n].1]];
        n := n + 1;
      }
      forall x: GcItem | x.key in items && items[x.key] == x && x.deleteAfter <= now ensures x in due {
        assert (x.deleteAfter, x.key) in stamps;
        var i :| 0 <= i < |stamps| && stamps[i] == (x.deleteAfter, x.key);
      }
    }
  }

  lemma RangeEnds(keys: seq<Key>, prefix: Key, start: nat, end: nat, i: nat)
    requires Ascending(keys) && start <= end <= |keys| && i < |keys| && StartsWith(keys[i], prefix)
    requires forall j :: 0 <= j < start ==> !AtMost(prefix, keys[j])
    requires start < |keys| ==> AtMost(prefix, keys[start])
    requires forall j :: start <= j < end ==> StartsWith(keys[j], prefix)
    requires end < |keys| ==> !StartsWith(keys[end], prefix)
    ensures start <= i < end
  {
    PrefixIsAtMost(prefix, keys[i]);
    if end < i {
      if end > start { PrefixIsAtMost(prefix, keys[start]); AtMostBelow(prefix, keys[start], keys[end]); }
      PrefixIsContiguous(prefix, keys[end], keys[i]);
    }
  }

  lemma AtMostBelow(a: Key, b: Key, c: Key)
    requires AtMost(a, b) && Below(b, c)
    ensures AtMost(a, c)
  {
    if a != b { BelowIsTransitive(a, b, c); }
  }

  // ----- refreshes and writers -----

  type Files = map<Key, GcItem>

  /** A refresh holds the catalog lock while it reads the directory entry by entry. `astray` are the keys whose
      writer was cut off since they were read. */
  datatype Scan = NoScan | Reading(unread: set<Key>, read: Files, astray: set<Key>)

  /** A writer holds the durable lock from its file write to its catalog update. */
  datatype Writer = NoWriter | Dirty(key: Key)

  /** `astray` are the keys whose writer was cut off, by an error after its file write, since the catalog last
      took them from the directory. */
  datatype Sync = Sync(disk: Files, catalog: Option<Files>, writer: Writer, scan: Scan, astray: set<Key>)

  datatype SyncStep =
    | WriteFile(key: Key, item: Option<GcItem>)
    | UpdateCatalog
    | AbandonWrite
    | Resync(key: Key)
    | BeginRefresh
    | NoticeFile(key: Key)
    | ReadFile(key: Key)
    | EndRefresh
    | FailRefresh
    | Restart

  function Assign(m: Files, k: Key, v: Option<GcItem>): Files {
    if v.Some? then m[k := v.value] else m - {k}
  }

  predicate CanSync(s: Sync, a: SyncStep) {
    match a
    case WriteFile(_, _) => s.writer.NoWriter?
    case UpdateCatalog => s.writer.Dirty? && s.scan.NoScan?
    case AbandonWrite => s.writer.Dirty?
    case Resync(_) => s.writer.NoWriter? && s.scan.NoScan?
    case BeginRefresh => s.scan.NoScan?
    case NoticeFile(k) => s.scan.Reading? && k in s.disk
    case ReadFile(k) => s.scan.Reading? && k in s.scan.unread
    case EndRefresh => s.scan.Reading? && s.scan.unread == {}
    case FailRefresh => s.scan.Reading?
    case Restart => true
  }

  /** A catalog that was never loaded is not updated. */
  function Updated(s: Sync, k: Key): Option<Files> {
    if s.catalog.Some? then Some(Assign(s.catalog.value, k, Lookup(s.disk, k))) else None
  }

  function NextSync(s: Sync, a: SyncStep): Sync
    requires CanSync(s, a)
  {
    match a
    case WriteFile(k, item) => s.(disk := Assign(s.disk, k, item), writer := Dirty(k))
    case UpdateCatalog => s.(catalog := Updated(s, s.writer.key), writer := NoWriter, astray := s.astray - {s.writer.key})
    case AbandonWrite =>
      s.(writer := NoWriter, astray := s.astray + {s.writer.key},
         scan := if s.scan.Reading? then s.scan.(astray := s.scan.astray + {s.writer.key}) else NoScan)
    case Resync(k) => s.(catalog := Updated(s, k), astray := s.astray - {k})
    case BeginRefresh => s.(scan := Reading(s.disk.Keys, map[], {}))
    case NoticeFile(k) => s.(scan := s.scan.(unread := s.scan.unread + {k}))
    case ReadFile(k) => s.(scan := Reading(s.scan.unread - {k}, Assign(s.scan.read, k, Lookup(s.disk, k)), s.scan.astray - {k}))
    case EndRefresh => s.(catalog := Some(s.scan.read), scan := NoScan, astray := s.scan.astray)
    case FailRefresh => s.(scan := NoScan)
    case Restart => s.(catalog := None, writer := NoWriter, scan := NoScan, astray := {})
  }

  /** Only the key between its file write and its catalog update, and keys gone astray, may differ. */
  ghost predicate InStep(s: Sync) {
    && (s.catalog.Some? ==> forall k :: s.writer != Dirty(k) && k !in s.astray ==> Lookup(s.catalog.value, k) == Lookup(s.disk, k))
    && (s.scan.Reading? ==>
          forall k :: s.writer != Dirty(k) && k !in s.scan.astray ==> k in s.scan.unread || Lookup(s.scan.read, k) == Lookup(s.disk, k))
  }

  lemma SyncKeeps(s: Sync, a: SyncStep)
    requires InStep(s) && CanSync(s, a)
    ensures InStep(NextSync(s, a))
  {
  }

  predicate CanSyncAll(s: Sync, run: seq<SyncStep>)
    decreases |run|
  {
    run == [] || (CanSync(s, run[0]) && CanSyncAll(NextSync(s, run[0]), run[1..]))
  }

  function AfterSync(s: Sync, run: seq<SyncStep>): Sync
    requires CanSyncAll(s, run)
    decreases |run|
  {
    if run == [] then s else AfterSync(NextSync(s, run[0]), run[1..])
  }

  lemma {:induction false} SyncRunKeeps(s: Sync, run: seq<SyncStep>)
    requires InStep(s) && CanSyncAll(s, run)
    ensures InStep(AfterSync(s, run))
    decreases |run|
  {
    if run != [] {
      SyncKeeps(s, run[0]);
      SyncRunKeeps(NextSync(s, run[0]), run[1..]);
    }
  }

  function Unloaded(disk: Files): Sync {
    Sync(disk, None, NoWriter, NoScan, {})
  }

  /** Whatever refreshes read while writers were at work, a loaded catalog differs from the tombstone files at
      most on the key being written and on keys whose writer was cut off since they were last read. */
  lemma CatalogFollowsFiles(disk: Files, run: seq<SyncStep>, k: Key)
    requires CanSyncAll(Unloaded(disk), run)
    ensures var t := AfterSync(Unloaded(disk), run);
            t.catalog.Some? && t.writer != Dirty(k) && k !in t.astray ==> Lookup(t.catalog.value, k) == Lookup(t.disk, k)
  {
    SyncRunKeeps(Unloaded(disk), run);
  }

  predicate NoneAbandoned(run: seq<SyncStep>) {
    forall i :: 0 <= i < |run| ==> !run[i].AbandonWrite?
  }

  lemma {:induction false} NoneAstray(s: Sync, run: seq<SyncStep>)
    requires CanSyncAll(s, run) && NoneAbandoned(run) && s.astray == {} && (s.scan.Reading? ==> s.scan.astray == {})
    ensures AfterSync(s, run).astray == {}
    decreases |run|
  {
    if run != [] {
      assert forall i :: 0 <= i < |run[1..]| ==> run[1..][i] == run[i + 1];
      assert !run[0].AbandonWrite?;
      NoneAstray(NextSync(s, run[0]), run[1..]);
    }
  }

  /** If no writer is cut off, a loaded catalog equals the files whenever no writer is between its two
      writes. */
  lemma CatalogEqualsFiles(disk: Files, run: seq<SyncStep>)
    requires CanSyncAll(Unloaded(disk), run) && NoneAbandoned(run)
    ensures var t := AfterSync(Unloaded(disk), run);
            t.catalog.Some? && t.writer.NoWriter? ==> t.catalog.value == t.disk
  {
    var t := AfterSync(Unloaded(disk), run);
    NoneAstray(Unloaded(disk), run);
    if t.catalog.Some? && t.writer.NoWriter? {
      forall k ensures Lookup(t.catalog.value, k) == Lookup(t.disk, k) { CatalogFollowsFiles(disk, run, k); }
      SameLookups(t.catalog.value, t.disk);
    }
  }

  /** A writer that is cut off leaves the catalog behind the files. */
  lemma AbandonedWriteIsMissed(k: Key, item: GcItem)
    ensures var run := [BeginRefresh, EndRefresh, WriteFile(k, Some(item)), AbandonWrite];
            && CanSyncAll(Unloaded(map[]), run)
            && var t := AfterSync(Unloaded(map[]), run); t.catalog == Some(map[]) && t.writer.NoWriter? && t.disk == map[k := item]
  {
    var s0 := Unloaded(map[]);
    var s1 := NextSync(s0, BeginRefresh);
    var s2 := NextSync(s1, EndRefresh);
    var s3 := NextSync(s2, WriteFile(k, Some(item)));
    var run := [BeginRefresh, EndRefresh, WriteFile(k, Some(item)), AbandonWrite];
    assert run[1..][1..][1..] == [AbandonWrite] && [AbandonWrite][1..] == [];
    assert CanSyncAll(s3, [AbandonWrite]) && AfterSync(s3, [AbandonWrite]) == NextSync(s3, AbandonWrite);
    var t := NextSync(s3, AbandonWrite);
    assert CanSyncAll(s2, run[1..][1..]) && AfterSync(s2, run[1..][1..]) == t;
    assert CanSyncAll(s1, run[1..]) && AfterSync(s1, run[1..]) == t;
  }
}
