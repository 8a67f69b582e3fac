/** Local garbage collection: the mark phase finds exactly what the exported snapshots need, and the
    sweep removes exactly the rest. */
module MarkSweep {
  import opened Basics
  import opened ObjectGraph

  datatype Tree = Tree(entries: map<Path, Payload>, rootNode: Option<Key>, subtrees: seq<Key>)

  /** The objects that can be read and parsed, by key. A large manifest lists its chunks, a snapshot
      manifest its root trees. */
  datatype Objects = Objects(manifests: map<Key, seq<Key>>, trees: map<Key, Tree>, nodes: Nodes, larges: map<Key, seq<Key>>)

  datatype Snapshot = Snapshot(manifestKey: Key, inlined: Option<seq<Key>>)
  datatype BlobRow = BlobRow(oid: Oid, objectKey: Key, pack: Option<string>)
  datatype PackRow = PackRow(id: string, packKey: Key, indexKey: Key)
  datatype Metadata = Metadata(snapshots: seq<Snapshot>, blobs: seq<BlobRow>, packs: seq<PackRow>)

  // ----- what is live -----

  /** The records of a tree, as a restore sees them. */
  function TreeEntries(objects: Objects, ghost rank: Key -> nat, tree: Tree): Result<map<Path, Payload>>
    requires Acyclic(objects.nodes, rank)
  {
    if tree.entries != map[] || tree.rootNode.None? then Ok(tree.entries)
    else MergedEntries(objects.nodes, rank, tree.rootNode.value)
  }

  ghost predicate HasRecord(objects: Objects, rank: Key -> nat, tree: Tree, payload: Payload)
    requires Acyclic(objects.nodes, rank)
  {
    TreeEntries(objects, rank, tree).Ok? && payload in TreeEntries(objects, rank, tree).value.Values
  }

  function NodeRoots(tree: Tree): seq<Key> {
    (if tree.rootNode.Some? then [tree.rootNode.value] else []) + tree.subtrees
  }

  ghost predicate LargeLive(larges: map<Key, seq<Key>>, payloads: set<Payload>, k: Key) {
    exists m :: LargeRef(m) in payloads && (k == m || (m in larges && k in larges[m]))
  }

  ghost predicate TreeLive(objects: Objects, rank: Key -> nat, t: Key, k: Key)
    requires Acyclic(objects.nodes, rank)
  {
    || k == t
    || (t in objects.trees
        && (|| ReachableFrom(objects.nodes, NodeRoots(objects.trees[t]), k)
            || (TreeEntries(objects, rank, objects.trees[t]).Ok?
                && LargeLive(objects.larges, TreeEntries(objects, rank, objects.trees[t]).value.Values, k))))
  }

  ghost predicate TreeReadable(objects: Objects, rank: Key -> nat, t: Key)
    requires Acyclic(objects.nodes, rank)
  {
    && t in objects.trees
    && AllPresentFrom(objects.nodes, NodeRoots(objects.trees[t]))
    && forall m :: HasRecord(objects, rank, objects.trees[t], LargeRef(m)) ==> m in objects.larges
  }

  ghost predicate TreeNames(objects: Objects, rank: Key -> nat, t: Key, oid: Oid)
    requires Acyclic(objects.nodes, rank)
  {
    t in objects.trees && exists key :: HasRecord(objects, rank, objects.trees[t], BlobRef(oid, key))
  }

  function RootTrees(objects: Objects, s: Snapshot): Option<seq<Key>> {
    if s.inlined.Some? then s.inlined else Lookup(objects.manifests, s.manifestKey)
  }

  ghost predicate SnapshotLive(objects: Objects, rank: Key -> nat, s: Snapshot, k: Key)
    requires Acyclic(objects.nodes, rank)
  {
    || k == s.manifestKey
    || (RootTrees(objects, s).Some? && exists t :: t in RootTrees(objects, s).value && TreeLive(objects, rank, t, k))
  }

  ghost predicate SnapshotReadable(objects: Objects, rank: Key -> nat, s: Snapshot)
    requires Acyclic(objects.nodes, rank)
  {
    RootTrees(objects, s).Some? && forall t :: t in RootTrees(objects, s).value ==> TreeReadable(objects, rank, t)
  }

  ghost predicate SnapshotNames(objects: Objects, rank: Key -> nat, s: Snapshot, oid: Oid)
    requires Acyclic(objects.nodes, rank)
  {
    RootTrees(objects, s).Some? && exists t :: t in RootTrees(objects, s).value && TreeNames(objects, rank, t, oid)
  }

  /** Where a blob's payload is: its loose object, or its pack and the pack's index. */
  ghost predicate Houses(row: BlobRow, packs: seq<PackRow>, k: Key) {
    if row.pack.None? then k == row.objectKey
    else exists p :: p in packs && p.id == row.pack.value && (k == p.packKey || k == p.indexKey)
  }

  ghost predicate Live(objects: Objects, rank: Key -> nat, meta: Metadata, k: Key)
    requires Acyclic(objects.nodes, rank)
  {
    || (exists s :: s in meta.snapshots && SnapshotLive(objects, rank, s, k))
    || (exists s, row :: s in meta.snapshots && row in meta.blobs && SnapshotNames(objects, rank, s, row.oid)
                         && Houses(row, meta.packs, k))
  }

  ghost predicate Readable(objects: Objects, rank: Key -> nat, meta: Metadata)
    requires Acyclic(objects.nodes, rank)
  {
    forall s :: s in meta.snapshots ==> SnapshotReadable(objects, rank, s)
  }

  // ----- the mark phase -----

  datatype Marks = Marks(keys: set<Key>, oids: set<Oid>)

  method MarkNodes(nodes: Nodes, ghost rank: Key -> nat, roots: seq<Key>) returns (r: Result<set<Key>>)
    requires Acyclic(nodes, rank)
    ensures r.Ok? <==> AllPresentFrom(nodes, roots)
    ensures r.Ok? ==> forall k :: k in r.value <==> ReachableFrom(nodes, roots, k)
  {
    var keys: seq<Key> := [];
    for i := 0 to |roots|
      invariant AllPresentFrom(nodes, roots[..i])
      invariant forall k :: k in keys <==> ReachableFrom(nodes, roots[..i], k)
    {
      ghost var was := keys;
      assert roots[i] in roots;
      ReachableHere(nodes, roots[i]);
      var deeper := PushChildTreeNodeKeys(nodes, rank, keys + [roots[i]], roots[i]);
      if deeper.Err? { return Err; }
      keys := deeper.value;
      assert keys == was + [roots[i]] + keys[|was| + 1..];
      assert forall c :: c in roots[..i + 1] <==> c in roots[..i] || c == roots[i];
    }
    assert roots[..|roots|] == roots;
    r := Ok(set k | k in keys);
  }

  method MarkRecords(larges: map<Key, seq<Key>>, payloads: set<Payload>) returns (r: Result<Marks>)
    ensures r.Ok? <==> forall m :: LargeRef(m) in payloads ==> m in larges
    ensures r.Ok? ==> forall k :: k in r.value.keys <==> LargeLive(larges, payloads, k)
    ensures r.Ok? ==> forall oid :: oid in r.value.oids <==> exists key :: BlobRef(oid, key) in payloads
  {
    var todo, keys, oids := payloads, {}, {};
    while todo != {}
      invariant todo <= payloads
      invariant forall m :: LargeRef(m) in payloads - todo ==> m in larges
      invariant forall k :: k in keys <==> LargeLive(larges, payloads - todo, k)
      invariant forall oid :: oid in oids <==> exists key :: BlobRef(oid, key) in payloads - todo
      decreases |todo|
    {
      var payload :| payload in todo;
      ghost var done := payloads - todo;
      if payload.BlobRef? {
        oids := oids + {payload.oid};
      } else if payload.LargeRef? {
        if payload.manifestKey !in larges { return Err; }
        keys := keys + {payload.manifestKey} + set c | c in larges[payload.manifestKey];
      }
      todo := todo - {payload};
      assert payloads - todo == done + {payload};
    }
    assert payloads - todo == payloads;
    r := Ok(Marks(keys, oids));
  }

  method MarkTree(objects: Objects, ghost rank: Key -> nat, t: Key) returns (r: Result<Marks>)
    requires Acyclic(objects.nodes, rank)
    ensures r.Ok? <==> TreeReadable(objects, rank, t)
    ensures r.Ok? ==> forall k :: k in r.value.keys <==> TreeLive(objects, rank, t, k)
    ensures r.Ok? ==> forall oid :: oid in r.value.oids <==> TreeNames(objects, rank, t, oid)
  {
    if t !in objects.trees { return Err; }
    var tree := objects.trees[t];
    var below := MarkNodes(objects.nodes, rank, NodeRoots(tree));
    if below.Err? { return Err; }
    if tree.rootNode.Some? {
      assert tree.rootNode.value in NodeRoots(tree);
      MergeIsRecords(objects.nodes, rank, tree.rootNode.value);
    }
    var entries := TreeEntries(objects, rank, tree);
    if entries.Err? { return Err; }
    var records := MarkRecords(objects.larges, entries.value.Values);
    if records.Err? { return Err; }
    r := Ok(Marks({t} + below.value + records.value.keys, records.value.oids));
  }

  ghost predicate TreesLive(objects: Objects, rank: Key -> nat, trees: seq<Key>, k: Key)
    requires Acyclic(objects.nodes, rank)
  {
    exists t :: t in trees && TreeLive(objects, rank, t, k)
  }

  ghost predicate TreesName(objects: Objects, rank: Key -> nat, trees: seq<Key>, oid: Oid)
    requires Acyclic(objects.nodes, rank)
  {
    exists t :: t in trees && TreeNames(objects, rank, t, oid)
  }

  method MarkSnapshot(objects: Objects, ghost rank: Key -> nat, s: Snapshot) returns (r: Result<Marks>)
    requires Acyclic(objects.nodes, rank)
    ensures r.Ok? <==> SnapshotReadable(objects, rank, s)
    ensures r.Ok? ==> forall k :: k in r.value.keys <==> SnapshotLive(objects, rank, s, k)
    ensures r.Ok? ==> forall oid :: oid in r.value.oids <==> SnapshotNames(objects, rank, s, oid)
  {
    var roots := RootTrees(objects, s);
    if roots.None? { return Err; }
    var trees, keys, oids := roots.value, {s.manifestKey}, {};
    for i := 0 to |trees|
      invariant forall t :: t in trees[..i] ==> TreeReadable(objects, rank, t)
      invariant forall k :: k in keys <==> k == s.manifestKey || TreesLive(objects, rank, trees[..i], k)
      invariant forall oid :: oid in oids <==> TreesName(objects, rank, trees[..i], oid)
    {
      assert trees[i] in trees;
      assert forall t :: t in trees[..i + 1] <==> t in trees[..i] || t == trees[i];
      var marks := MarkTree(objects, rank, trees[i]);
      if marks.Err? { return Err; }
      keys, oids := keys + marks.value.keys, oids + marks.value.oids;
    }
    assert trees[..|trees|] == trees;
    r := Ok(Marks(keys, oids));
  }

  ghost predicate SnapshotsLive(objects: Objects, rank: Key -> nat, snapshots: seq<Snapshot>, k: Key)
    requires Acyclic(objects.nodes, rank)
  {
    exists s :: s in snapshots && SnapshotLive(objects, rank, s, k)
  }

  ghost predicate SnapshotsName(objects: Objects, rank: Key -> nat, snapshots: seq<Snapshot>, oid: Oid)
    requires Acyclic(objects.nodes, rank)
  {
    exists s :: s in snapshots && SnapshotNames(objects, rank, s, oid)
  }

  method MarkSnapshots(objects: Objects, ghost rank: Key -> nat, snapshots: seq<Snapshot>) returns (r: Result<Marks>)
    requires Acyclic(objects.nodes, rank)
    ensures r.Ok? <==> forall s :: s in snapshots ==> SnapshotReadable(objects, rank, s)
    ensures r.Ok? ==> forall k :: k in r.value.keys <==> SnapshotsLive(objects, rank, snapshots, k)
    ensures r.Ok? ==> forall oid :: oid in r.value.oids <==> SnapshotsName(objects, rank, snapshots, oid)
  {
    var keys, oids := {}, {};
    for i := 0 to |snapshots|
      invariant forall s :: s in snapshots[..i] ==> SnapshotReadable(objects, rank, s)
      invariant forall k :: k in keys <==> SnapshotsLive(objects, rank, snapshots[..i], k)
      invariant forall oid :: oid in oids <==> SnapshotsName(objects, rank, snapshots[..i], oid)
    {
      assert snapshots[i] in snapshots;
      assert forall s :: s in snapshots[..i + 1] <==> s in snapshots[..i] || s == snapshots[i];
      var marks := MarkSnapshot(objects, rank, snapshots[i]);
      if marks.Err? { return Err; }
      keys, oids := keys + marks.value.keys, oids + marks.value.oids;
    }
    assert snapshots[..|snapshots|] == snapshots;
    r := Ok(Marks(keys, oids));
  }

  /** Loose objects, packs and indexes of the referenced blobs. */
  method MarkBlobs(blobs: seq<BlobRow>, packs: seq<PackRow>, oids: set<Oid>) returns (keys: set<Key>)
    ensures forall k :: k in keys <==> exists row :: row in blobs && row.oid in oids && Houses(row, packs, k)
  {
    var loose := set row | row in blobs && row.oid in oids && row.pack.None? :: row.objectKey;
    var livePacks := set row | row in blobs && row.oid in oids && row.pack.Some? :: row.pack.value;
    var packKeys := set p | p in packs && p.id in livePacks :: p.packKey;
    var indexKeys := set p | p in packs && p.id in livePacks :: p.indexKey;
    keys := loose + packKeys + indexKeys;
    forall k ensures k in keys <==> exists row :: row in blobs && row.oid in oids && Houses(row, packs, k) {
      if row :| row in blobs && row.oid in oids && Houses(row, packs, k) {
        if row.pack.Some? {
          var p :| p in packs && p.id == row.pack.value && (k == p.packKey || k == p.indexKey);
          assert p.id in livePacks;
        }
      }
    }
  }

  /** The mark phase fails exactly when something on the way cannot be read; otherwise it finds exactly
      the live keys. */
  method LocalObjectKeys(objects: Objects, ghost rank: Key -> nat, meta: Metadata) returns (r: Result<set<Key>>)
    requires Acyclic(objects.nodes, rank)
    ensures r.Ok? <==> Readable(objects, rank, meta)
    ensures r.Ok? ==> forall k :: k in r.value <==> Live(objects, rank, meta, k)
  {
    var marks := MarkSnapshots(objects, rank, meta.snapshots);
    if marks.Err? { return Err; }
    var housed := MarkBlobs(meta.blobs, meta.packs, marks.value.oids);
    r := Ok(marks.value.keys + housed);
    forall k ensures k in r.value <==> Live(objects, rank, meta, k) {
      LiveSplits(objects, rank, meta, k);
    }
  }

  lemma LiveSplits(objects: Objects, rank: Key -> nat, meta: Metadata, k: Key)
    requires Acyclic(objects.nodes, rank)
    ensures Live(objects, rank, meta, k) <==>
            || SnapshotsLive(objects, rank, meta.snapshots, k)
            || exists row :: row in meta.blobs && SnapshotsName(objects, rank, meta.snapshots, row.oid) && Houses(row, meta.packs, k)
  {
  }

  // ----- the sweep -----

  /** Keys the upload queue reads from and the journal's durable payloads. `sources` are the queued
      source paths relative to the home directory; a source outside it protects nothing. */
  method QueuedLocalObjectKeys(sources: seq<Option<Key>>, journal: seq<(Option<Key>, Option<Key>)>, valid: Key -> bool)
    returns (keys: set<Key>)
    ensures forall k :: k in keys <==> valid(k) && (Some(k) in sources || exists e :: e in journal && (e.0 == Some(k) || e.1 == Some(k)))
  {
    keys := {};
    for i := 0 to |sources|
      invariant forall k :: k in keys <==> valid(k) && Some(k) in sources[..i]
    {
      assert forall x :: x in sources[..i + 1] <==> x in sources[..i] || x == sources[i];
      if sources[i].Some? && valid(sources[i].value) { keys := keys + {sources[i].value}; }
    }
    assert sources[..|sources|] == sources;
    for i := 0 to |journal|
      invariant forall k :: k in keys <==> valid(k) && (Some(k) in sources || exists e :: e in journal[..i] && (e.0 == Some(k) || e.1 == Some(k)))
    {
      assert forall x :: x in journal[..i + 1] <==> x in journal[..i] || x == journal[i];
      if journal[i].0.Some? && valid(journal[i].0.value) { keys := keys + {journal[i].0.value}; }
      if journal[i].1.Some? && valid(journal[i].1.value) { keys := keys + {journal[i].1.value}; }
    }
    assert journal[..|journal|] == journal;
  }

  datatype Swept = Swept(unreferenced: nat, removed: nat)

  ghost function Garbage(files: set<Key>, objects: Objects, rank: Key -> nat, meta: Metadata, queued: set<Key>): set<Key>
    requires Acyclic(objects.nodes, rank)
  {
    set k | k in files && !Live(objects, rank, meta, k) && k !in queued
  }

  /** Removes exactly the files that are neither live nor queued, and nothing when the mark phase fails
      or in a dry run, whose count is the number a real run would remove. */
  method Gc(files: set<Key>, objects: Objects, ghost rank: Key -> nat, meta: Metadata, queued: set<Key>, dryRun: bool)
    returns (r: Result<Swept>, kept: set<Key>)
    requires Acyclic(objects.nodes, rank)
    ensures r.Ok? <==> Readable(objects, rank, meta)
    ensures r.Err? || dryRun ==> kept == files
    ensures r.Ok? && !dryRun ==> kept == files - Garbage(files, objects, rank, meta, queued)
    ensures r.Ok? ==> var n := |Garbage(files, objects, rank, meta, queued)|; r.value == Swept(n, if dryRun then 0 else n)
  {
    kept := files;
    var marked := LocalObjectKeys(objects, rank, meta);
    if marked.Err? { return Err, files; }
    var swept;
    swept, kept := Sweep(files, marked.value + queued, dryRun);
    assert files - (marked.value + queued) == Garbage(files, objects, rank, meta, queued);
    r := Ok(swept);
  }

  method Sweep(files: set<Key>, referenced: set<Key>, dryRun: bool) returns (swept: Swept, kept: set<Key>)
    ensures kept == if dryRun then files else files - (files - referenced)
    ensures swept == Swept(|files - referenced|, if dryRun then 0 else |files - referenced|)
  {
    kept := files;
    var todo, unreferenced, removed := files, 0, 0;
    while todo != {}
      invariant todo <= files
      invariant unreferenced == |files - todo - referenced| && removed == if dryRun then 0 else unreferenced
      invariant kept == if dryRun then files else files - (files - todo - referenced)
      decreases |todo|
    {
      var key :| key in todo;
      ghost var dead := files - todo - referenced;
      todo := todo - {key};
      if key !in referenced {
        assert files - todo - referenced == dead + {key};
        unreferenced := unreferenced + 1;
        if !dryRun {
          kept := kept - {key};
          removed := removed + 1;
        }
      } else {
        assert files - todo - referenced == dead;
      }
    }
    assert files - todo - referenced == files - referenced;
    swept := Swept(unreferenced, removed);
  }

  // ----- what a sweep leaves -----

  function Restrict<V>(m: map<Key, V>, kept: set<Key>): map<Key, V> {
    map k | k in m && k in kept :: m[k]
  }

  function After(objects: Objects, kept: set<Key>): Objects {
    Objects(Restrict(objects.manifests, kept), Restrict(objects.trees, kept), Restrict(objects.nodes, kept),
            Restrict(objects.larges, kept))
  }

  /** Marking reads every object it needs into the local directory before the sweep lists it. */
  ghost predicate Stored(objects: Objects, files: set<Key>) {
    objects.manifests.Keys <= files && objects.trees.Keys <= files && objects.nodes.Keys <= files && objects.larges.Keys <= files
  }

  /** What `Gc` leaves of `files`, where everything `objects` holds is a local file. */
  ghost predicate SweptTo(files: set<Key>, objects: Objects, rank: Key -> nat, meta: Metadata, queued: set<Key>, kept: set<Key>)
    requires Acyclic(objects.nodes, rank)
  {
    Stored(objects, files) && kept == files - Garbage(files, objects, rank, meta, queued)
  }

  lemma TreeIsLive(objects: Objects, rank: Key -> nat, meta: Metadata, s: Snapshot, t: Key, k: Key)
    requires Acyclic(objects.nodes, rank) && s in meta.snapshots && RootTrees(objects, s).Some? && t in RootTrees(objects, s).value
    requires TreeLive(objects, rank, t, k)
    ensures Live(objects, rank, meta, k)
  {
  }

  /** Restoring an exported snapshot reads the same after the sweep: the same trees, the same records,
      the same large manifests, with every chunk that was there before. */
  lemma RestoreSurvives(files: set<Key>, objects: Objects, rank: Key -> nat, meta: Metadata, queued: set<Key>, kept: set<Key>, s: Snapshot, t: Key)
    requires Acyclic(objects.nodes, rank) && Readable(objects, rank, meta) && SweptTo(files, objects, rank, meta, queued, kept)
    requires s in meta.snapshots && t in RootTrees(objects, s).value
    ensures Acyclic(After(objects, kept).nodes, rank) && RootTrees(After(objects, kept), s) == RootTrees(objects, s)
    ensures Lookup(After(objects, kept).trees, t) == Lookup(objects.trees, t)
    ensures TreeEntries(After(objects, kept), rank, objects.trees[t]) == TreeEntries(objects, rank, objects.trees[t])
    ensures forall m :: HasRecord(objects, rank, objects.trees[t], LargeRef(m)) ==>
              Lookup(After(objects, kept).larges, m) == Some(objects.larges[m]) && forall c :: c in objects.larges[m] && c in files ==> c in kept
  {
    var after, tree := After(objects, kept), objects.trees[t];
    assert SnapshotLive(objects, rank, s, s.manifestKey);
    TreeIsLive(objects, rank, meta, s, t, t);
    if tree.rootNode.Some? {
      var root := tree.rootNode.value;
      assert root in NodeRoots(tree);
      forall k | Reachable(objects.nodes, root, k) ensures Lookup(after.nodes, k) == Lookup(objects.nodes, k) {
        assert ReachableFrom(objects.nodes, NodeRoots(tree), k);
        TreeIsLive(objects, rank, meta, s, t, k);
      }
      MergeIsLocal(objects.nodes, after.nodes, rank, root);
    }
    forall m | HasRecord(objects, rank, tree, LargeRef(m))
      ensures Lookup(after.larges, m) == Some(objects.larges[m]) && forall c :: c in objects.larges[m] && c in files ==> c in kept
    {
      TreeIsLive(objects, rank, meta, s, t, m);
      forall c | c in objects.larges[m] && c in files ensures c in kept { TreeIsLive(objects, rank, meta, s, t, c); }
    }
  }

  lemma TreeSurvives(files: set<Key>, objects: Objects, rank: Key -> nat, meta: Metadata, queued: set<Key>, kept: set<Key>, s: Snapshot, t: Key)
    requires Acyclic(objects.nodes, rank) && Readable(objects, rank, meta) && SweptTo(files, objects, rank, meta, queued, kept)
    requires s in meta.snapshots && t in RootTrees(objects, s).value
    ensures Acyclic(After(objects, kept).nodes, rank) && TreeReadable(After(objects, kept), rank, t)
    ensures forall k :: TreeLive(After(objects, kept), rank, t, k) <==> TreeLive(objects, rank, t, k)
    ensures forall oid :: TreeNames(After(objects, kept), rank, t, oid) <==> TreeNames(objects, rank, t, oid)
  {
    RestoreSurvives(files, objects, rank, meta, queued, kept, s, t);
    var after, roots := After(objects, kept), NodeRoots(objects.trees[t]);
    assert after.trees[t] == objects.trees[t];
    forall c | c in roots
      ensures AllPresent(after.nodes, c) && forall k :: Reachable(after.nodes, c, k) <==> Reachable(objects.nodes, c, k)
    {
      forall k | Reachable(objects.nodes, c, k) ensures Lookup(after.nodes, k) == Lookup(objects.nodes, k) {
        assert ReachableFrom(objects.nodes, roots, k);
        TreeIsLive(objects, rank, meta, s, t, k);
      }
      ReachabilityIsLocal(objects.nodes, after.nodes, rank, c);
    }
    forall k ensures ReachableFrom(after.nodes, roots, k) <==> ReachableFrom(objects.nodes, roots, k) {
      if c :| c in roots && Reachable(after.nodes, c, k) { assert Reachable(objects.nodes, c, k); }
      if c :| c in roots && Reachable(objects.nodes, c, k) { assert Reachable(after.nodes, c, k); }
    }
    var entries := TreeEntries(objects, rank, objects.trees[t]);
    if entries.Ok? { LargeLiveStays(objects.larges, after.larges, entries.value.Values); }
  }

  lemma LargeLiveStays(larges: map<Key, seq<Key>>, after: map<Key, seq<Key>>, payloads: set<Payload>)
    requires forall m :: LargeRef(m) in payloads ==> Lookup(after, m) == Lookup(larges, m)
    ensures forall k :: LargeLive(after, payloads, k) <==> LargeLive(larges, payloads, k)
  {
    forall k ensures LargeLive(after, payloads, k) <==> LargeLive(larges, payloads, k) {
      if m :| LargeRef(m) in payloads && (k == m || (m in larges && k in larges[m])) {
        assert Lookup(after, m) == Lookup(larges, m);
      }
      if m :| LargeRef(m) in payloads && (k == m || (m in after && k in after[m])) {
        assert Lookup(after, m) == Lookup(larges, m);
      }
    }
  }

  /** After a sweep everything is still readable and the live keys are the same, so that a second
      sweep finds nothing. */
  lemma SweepIsStable(files: set<Key>, objects: Objects, rank: Key -> nat, meta: Metadata, queued: set<Key>, kept: set<Key>)
    requires Acyclic(objects.nodes, rank) && Readable(objects, rank, meta) && SweptTo(files, objects, rank, meta, queued, kept)
    ensures Acyclic(After(objects, kept).nodes, rank) && Readable(After(objects, kept), rank, meta)
    ensures forall k :: Live(After(objects, kept), rank, meta, k) <==> Live(objects, rank, meta, k)
    ensures Garbage(kept, After(objects, kept), rank, meta, queued) == {}
  {
    var after := After(objects, kept);
    forall s | s in meta.snapshots
      ensures SnapshotReadable(after, rank, s)
      ensures forall j :: SnapshotLive(after, rank, s, j) <==> SnapshotLive(objects, rank, s, j)
      ensures forall oid :: SnapshotNames(after, rank, s, oid) <==> SnapshotNames(objects, rank, s, oid)
    {
      SnapshotSurvives(files, objects, rank, meta, queued, kept, s);
    }
    forall k ensures Live(after, rank, meta, k) <==> Live(objects, rank, meta, k) {
    }
  }

  lemma SnapshotSurvives(files: set<Key>, objects: Objects, rank: Key -> nat, meta: Metadata, queued: set<Key>, kept: set<Key>, s: Snapshot)
    requires Acyclic(objects.nodes, rank) && Readable(objects, rank, meta) && SweptTo(files, objects, rank, meta, queued, kept)
    requires s in meta.snapshots
    ensures Acyclic(After(objects, kept).nodes, rank) && SnapshotReadable(After(objects, kept), rank, s)
    ensures forall k :: SnapshotLive(After(objects, kept), rank, s, k) <==> SnapshotLive(objects, rank, s, k)
    ensures forall oid :: SnapshotNames(After(objects, kept), rank, s, oid) <==> SnapshotNames(objects, rank, s, oid)
  {
    assert SnapshotLive(objects, rank, s, s.manifestKey);
    forall t | t in RootTrees(objects, s).value
      ensures TreeReadable(After(objects, kept), rank, t)
      ensures forall k :: TreeLive(After(objects, kept), rank, t, k) <==> TreeLive(objects, rank, t, k)
      ensures forall oid :: TreeNames(After(objects, kept), rank, t, oid) <==> TreeNames(objects, rank, t, oid)
    {
      TreeSurvives(files, objects, rank, meta, queued, kept, s, t);
    }
  }

  /** An indexed blob keeps its loose object, or its pack and the pack's index, if they are there. */
  lemma IndexedBlobSurvives(files: set<Key>, objects: Objects, rank: Key -> nat, meta: Metadata, queued: set<Key>, kept: set<Key>, s: Snapshot, t: Key,
                            oid: Oid, key: Key, row: BlobRow, k: Key)
    requires Acyclic(objects.nodes, rank) && Readable(objects, rank, meta) && SweptTo(files, objects, rank, meta, queued, kept)
    requires s in meta.snapshots && t in RootTrees(objects, s).value && HasRecord(objects, rank, objects.trees[t], BlobRef(oid, key))
    requires row in meta.blobs && row.oid == oid && Houses(row, meta.packs, k)
    ensures k in files ==> k in kept
  {
    assert TreeNames(objects, rank, t, oid);
    assert SnapshotNames(objects, rank, s, row.oid);
  }

  // ----- reading a blob -----

  /** Oids and pack ids are primary keys. */
  ghost predicate Keyed(meta: Metadata) {
    && (forall a, b :: a in meta.blobs && b in meta.blobs && a.oid == b.oid ==> a == b)
    && (forall p, q :: p in meta.packs && q in meta.packs && p.id == q.id ==> p == q)
  }

  function FindRow(blobs: seq<BlobRow>, oid: Oid): (r: Option<BlobRow>)
    ensures r.Some? ==> r.value in blobs && r.value.oid == oid
    ensures r.None? ==> forall row :: row in blobs ==> row.oid != oid
  {
    if blobs == [] then None else if blobs[0].oid == oid then Some(blobs[0]) else FindRow(blobs[1..], oid)
  }

  function FindPack(packs: seq<PackRow>, id: string): (r: Option<PackRow>)
    ensures r.Some? ==> r.value in packs && r.value.id == id
    ensures r.None? ==> forall p :: p in packs ==> p.id != id
  {
    if packs == [] then None else if packs[0].id == id then Some(packs[0]) else FindPack(packs[1..], id)
  }

  /** The local file a blob is read from: its pack, or, when there is no row, no pack or no pack file, the
      key in the record. */
  function ReadsFrom(meta: Metadata, files: set<Key>, oid: Oid, key: Key): Option<Key> {
    var row, loose := FindRow(meta.blobs, oid), if key in files then Some(key) else None;
    if row.None? || row.value.pack.None? then loose
    else
      var p := FindPack(meta.packs, row.value.pack.value);
      if p.None? then None else if p.value.packKey in files then Some(p.value.packKey) else loose
  }

  /** `key` is kept for the sake of something other than blob `oid`. */
  ghost predicate KeptAnyway(objects: Objects, rank: Key -> nat, meta: Metadata, queued: set<Key>, oid: Oid, key: Key)
    requires Acyclic(objects.nodes, rank)
  {
    || key in queued
    || SnapshotsLive(objects, rank, meta.snapshots, key)
    || exists row :: row in meta.blobs && row.oid != oid && SnapshotsName(objects, rank, meta.snapshots, row.oid)
                     && Houses(row, meta.packs, key)
  }

  /** The row of `oid` protects the file it is read from: a loose row names the record's own key, or the
      pack file is there. */
  predicate RowShelters(meta: Metadata, files: set<Key>, oid: Oid, key: Key) {
    var row := FindRow(meta.blobs, oid);
    && row.Some?
    && if row.value.pack.None? then row.value.objectKey == key
       else
         var p := FindPack(meta.packs, row.value.pack.value);
         p.Some? && (p.value.packKey in files || p.value.indexKey == key)
  }

  /** The snapshot lists `t` itself, or its manifest does. */
  predicate NamesTree(objects: Objects, s: Snapshot, t: Key) {
    if s.inlined.Some? then t in s.inlined.value
    else s.manifestKey in objects.manifests && t in objects.manifests[s.manifestKey]
  }

  /** Every node below a recorded subtree of an exported snapshot's tree survives the sweep, and so does every
      node below its root node, and the tree. */
  lemma NodesSurvive(files: set<Key>, objects: Objects, rank: Key -> nat, meta: Metadata, queued: set<Key>, kept: set<Key>,
                     s: Snapshot, t: Key, top: Key, k: Key)
    requires Acyclic(objects.nodes, rank) && SweptTo(files, objects, rank, meta, queued, kept)
    requires s in meta.snapshots && NamesTree(objects, s, t) && t in objects.trees
    requires top in objects.trees[t].subtrees || objects.trees[t].rootNode == Some(top)
    requires Reachable(objects.nodes, top, k)
    ensures t in kept && (k in files ==> k in kept)
    ensures k in objects.nodes ==> Lookup(After(objects, kept).nodes, k) == Some(objects.nodes[k])
  {
    assert top in NodeRoots(objects.trees[t]);
    TreeIsLive(objects, rank, meta, s, t, t);
    TreeIsLive(objects, rank, meta, s, t, k);
  }

  /** The records that count: the tree's own if it has any, else those merged over its nodes, where the last
      node visited wins. */
  predicate Records(objects: Objects, ghost rank: Key -> nat, tree: Tree, p: Path, payload: Payload)
    requires Acyclic(objects.nodes, rank)
  {
    if tree.entries != map[] then Lookup(tree.entries, p) == Some(payload)
    else
      && tree.rootNode.Some? && MergedEntries(objects.nodes, rank, tree.rootNode.value).Ok?
      && Lookup(MergedEntries(objects.nodes, rank, tree.rootNode.value).value, p) == Some(payload)
  }

  /** A large file of an exported snapshot keeps its manifest and every chunk that was here. */
  lemma LargeFilesSurvive(files: set<Key>, objects: Objects, rank: Key -> nat, meta: Metadata, queued: set<Key>, kept: set<Key>,
                          s: Snapshot, t: Key, p: Path, m: Key, c: Key)
    requires Acyclic(objects.nodes, rank) && SweptTo(files, objects, rank, meta, queued, kept)
    requires s in meta.snapshots && NamesTree(objects, s, t) && t in objects.trees
    requires Records(objects, rank, objects.trees[t], p, LargeRef(m))
    requires c == m || (m in objects.larges && c in objects.larges[m])
    ensures c in files ==> c in kept
  {
    var entries := TreeEntries(objects, rank, objects.trees[t]).value;
    assert entries[p] == LargeRef(m) && LargeRef(m) in entries.Values;
    assert LargeLive(objects.larges, entries.Values, c);
    TreeIsLive(objects, rank, meta, s, t, c);
  }

  /** Exactly when a blob of an exported snapshot that could be read before a sweep can be read after it. If
      so, it is read from the same file. */
  lemma BlobStaysReadableIff(files: set<Key>, objects: Objects, rank: Key -> nat, meta: Metadata, queued: set<Key>, kept: set<Key>,
                             s: Snapshot, t: Key, oid: Oid, key: Key)
    requires Acyclic(objects.nodes, rank) && Readable(objects, rank, meta) && SweptTo(files, objects, rank, meta, queued, kept)
    requires s in meta.snapshots && t in RootTrees(objects, s).value && HasRecord(objects, rank, objects.trees[t], BlobRef(oid, key))
    requires Keyed(meta) && ReadsFrom(meta, files, oid, key).Some?
    ensures ReadsFrom(meta, kept, oid, key).Some? <==>
              KeptAnyway(objects, rank, meta, queued, oid, key) || RowShelters(meta, files, oid, key)
    ensures ReadsFrom(meta, kept, oid, key).Some? ==> ReadsFrom(meta, kept, oid, key) == ReadsFrom(meta, files, oid, key)
  {
    var row := FindRow(meta.blobs, oid);
    assert TreeNames(objects, rank, t, oid);
    assert SnapshotNames(objects, rank, s, oid);
    LiveSplits(objects, rank, meta, key);
    if row.Some? && row.value.pack.Some? {
      var p := FindPack(meta.packs, row.value.pack.value).value;
      assert Houses(row.value, meta.packs, p.packKey) && Houses(row.value, meta.packs, p.indexKey);
      LiveSplits(objects, rank, meta, p.packKey);
    }
  }

  /** One snapshot of one tree with one blob, and the files `tree` and `object`. */
  function OneBlob(): Objects {
    Objects(map[], map["tree" := Tree(map["file" := BlobRef("oid", "object")], None, [])], map[], map[])
  }

  function OneSnapshot(blobs: seq<BlobRow>, packs: seq<PackRow>): Metadata {
    Metadata([Snapshot("manifest", Some(["tree"]))], blobs, packs)
  }

  /** The blob is readable, and a collection leaves the tree alone. */
  ghost predicate Collects(meta: Metadata) {
    var objects, files := OneBlob(), {"tree", "object"};
    && Acyclic(objects.nodes, _ => 0) && Readable(objects, _ => 0, meta)
    && HasRecord(objects, _ => 0, objects.trees["tree"], BlobRef("oid", "object"))
    && Garbage(files, objects, _ => 0, meta, {}) == {"object"}
    && ReadsFrom(meta, files, "oid", "object") == Some("object")
    && ReadsFrom(meta, files - {"object"}, "oid", "object") == None
  }

  lemma UnshelteredIsCollected(meta: Metadata)
    requires meta == OneSnapshot(meta.blobs, meta.packs) && Keyed(meta)
    requires forall row :: row in meta.blobs ==> !Houses(row, meta.packs, "object")
    requires ReadsFrom(meta, {"tree", "object"}, "oid", "object") == Some("object")
    ensures Collects(meta)
  {
    var payload := BlobRef("oid", "object");
    var tree := Tree(map["file" := payload], None, []);
    var objects, rank := OneBlob(), (k: Key) => 0;
    assert tree.entries["file"] == payload;
    assert NodeRoots(tree) == [];
    assert tree.entries.Values == {payload};
    LiveSplits(objects, rank, meta, "object");
    assert SnapshotLive(objects, rank, meta.snapshots[0], "tree") by { assert "tree" in RootTrees(objects, meta.snapshots[0]).value; }
    LiveSplits(objects, rank, meta, "tree");
  }

  /** Three ways to lose the only local copy: no row; a row whose pack file is not here; and a loose row that
      names another key than the record. */
  lemma OnlyCopyIsCollected()
    ensures Collects(OneSnapshot([], []))
    ensures Collects(OneSnapshot([BlobRow("oid", "object", Some("p"))], [PackRow("p", "pack", "index")]))
    ensures Collects(OneSnapshot([BlobRow("oid", "other", None)], []))
  {
    UnshelteredIsCollected(OneSnapshot([], []));
    UnshelteredIsCollected(OneSnapshot([BlobRow("oid", "object", Some("p"))], [PackRow("p", "pack", "index")]));
    UnshelteredIsCollected(OneSnapshot([BlobRow("oid", "other", None)], []));
  }
}
