/** The tree nodes of a snapshot: the recursive enumeration is reachability, and the merged entries
    are the records of the reachable nodes. */
module ObjectGraph {
  import opened Basics

  type Oid = string
  type Path = string

  datatype Payload = BlobRef(oid: Oid, objectKey: Key) | LargeRef(manifestKey: Key) | Inline
  datatype Node = Node(entries: map<Path, Payload>, children: seq<Key>)
  type Nodes = map<Key, Node>

  /** Node keys are hashes of the node, children's keys included, so references descend. */
  ghost predicate Acyclic(nodes: Nodes, rank: Key -> nat) {
    forall k, c :: k in nodes && c in nodes[k].children ==> rank(c) < rank(k)
  }

  // ----- the traversals -----

  /** The keys below `key`, in visiting order; fails at a node that cannot be read. */
  function ChildNodeKeys(nodes: Nodes, ghost rank: Key -> nat, key: Key): Result<seq<Key>>
    requires Acyclic(nodes, rank)
    decreases rank(key) + 1, 0
  {
    if key !in nodes then Err else KeysBelow(nodes, rank, nodes[key].children, rank(key))
  }

  function KeysBelow(nodes: Nodes, ghost rank: Key -> nat, children: seq<Key>, ghost bound: nat): Result<seq<Key>>
    requires Acyclic(nodes, rank) && forall c :: c in children ==> rank(c) < bound
    decreases bound, |children|
  {
    if children == [] then Ok([])
    else
      var first, rest := ChildNodeKeys(nodes, rank, children[0]), KeysBelow(nodes, rank, children[1..], bound);
      if first.Err? || rest.Err? then Err else Ok([children[0]] + first.value + rest.value)
  }

  /** All entries at and below a node, later ones replacing earlier ones of the same path. */
  function MergedEntries(nodes: Nodes, ghost rank: Key -> nat, key: Key): Result<map<Path, Payload>>
    requires Acyclic(nodes, rank)
    decreases rank(key) + 1, 0
  {
    if key !in nodes then Err
    else
      var below := EntriesBelow(nodes, rank, nodes[key].children, rank(key));
      if below.Err? then Err else Ok(nodes[key].entries + below.value)
  }

  function EntriesBelow(nodes: Nodes, ghost rank: Key -> nat, children: seq<Key>, ghost bound: nat): Result<map<Path, Payload>>
    requires Acyclic(nodes, rank) && forall c :: c in children ==> rank(c) < bound
    decreases bound, |children|
  {
    if children == [] then Ok(map[])
    else
      var first, rest := MergedEntries(nodes, rank, children[0]), EntriesBelow(nodes, rank, children[1..], bound);
      if first.Err? || rest.Err? then Err else Ok(first.value + rest.value)
  }

  // ----- reachability -----

  ghost predicate Walk(nodes: Nodes, path: seq<Key>) {
    path != [] && (|path| > 1 ==> path[0] in nodes && path[1] in nodes[path[0]].children && Walk(nodes, path[1..]))
  }

  ghost predicate Reachable(nodes: Nodes, a: Key, b: Key) {
    exists path :: Walk(nodes, path) && path[0] == a && path[|path| - 1] == b
  }

  lemma ReachableHere(nodes: Nodes, a: Key)
    ensures Reachable(nodes, a, a)
  {
    assert Walk(nodes, [a]);
  }

  lemma ReachableBelow(nodes: Nodes, a: Key, c: Key, b: Key)
    requires a in nodes && c in nodes[a].children && Reachable(nodes, c, b)
    ensures Reachable(nodes, a, b)
  {
    var path :| Walk(nodes, path) && path[0] == c && path[|path| - 1] == b;
    var longer := [a] + path;
    assert longer[1..] == path;
    assert Walk(nodes, longer);
  }

  lemma ReachableFirst(nodes: Nodes, a: Key, b: Key) returns (c: Key)
    requires Reachable(nodes, a, b) && a != b
    ensures a in nodes && c in nodes[a].children && Reachable(nodes, c, b)
  {
    var path :| Walk(nodes, path) && path[0] == a && path[|path| - 1] == b;
    c := path[1];
    assert Walk(nodes, path[1..]);
  }

  /** The nodes the children lead to. */
  ghost predicate ReachableFrom(nodes: Nodes, keys: seq<Key>, b: Key) {
    exists c :: c in keys && Reachable(nodes, c, b)
  }

  ghost predicate AllPresent(nodes: Nodes, a: Key) {
    forall b :: Reachable(nodes, a, b) ==> b in nodes
  }

  ghost predicate AllPresentFrom(nodes: Nodes, keys: seq<Key>) {
    forall c :: c in keys ==> AllPresent(nodes, c)
  }

  lemma ReachableUnfolds(nodes: Nodes, a: Key, b: Key)
    ensures Reachable(nodes, a, b) <==> a == b || (a in nodes && ReachableFrom(nodes, nodes[a].children, b))
  {
    ReachableHere(nodes, a);
    if Reachable(nodes, a, b) && a != b {
      var c := ReachableFirst(nodes, a, b);
    }
    if a in nodes && ReachableFrom(nodes, nodes[a].children, b) {
      var c :| c in nodes[a].children && Reachable(nodes, c, b);
      ReachableBelow(nodes, a, c, b);
    }
  }

  lemma PresenceUnfolds(nodes: Nodes, a: Key)
    ensures AllPresent(nodes, a) <==> a in nodes && AllPresentFrom(nodes, nodes[a].children)
  {
    ReachableHere(nodes, a);
    if a in nodes {
      forall b ensures Reachable(nodes, a, b) <==> a == b || ReachableFrom(nodes, nodes[a].children, b) {
        ReachableUnfolds(nodes, a, b);
      }
    }
  }

  lemma FromUnfolds(nodes: Nodes, keys: seq<Key>, b: Key)
    requires keys != []
    ensures ReachableFrom(nodes, keys, b) <==> Reachable(nodes, keys[0], b) || ReachableFrom(nodes, keys[1..], b)
  {
    assert forall c :: c in keys <==> c == keys[0] || c in keys[1..];
  }

  // ----- the enumeration is reachability -----

  /** Enumeration succeeds exactly when every reachable node can be read, and then lists exactly the
      nodes reachable from `key`, beside `key` itself. */
  lemma {:induction false} EnumerationIsReachability(nodes: Nodes, rank: Key -> nat, key: Key)
    requires Acyclic(nodes, rank)
    ensures ChildNodeKeys(nodes, rank, key).Ok? <==> AllPresent(nodes, key)
    ensures ChildNodeKeys(nodes, rank, key).Ok? ==>
              forall b :: b == key || b in ChildNodeKeys(nodes, rank, key).value <==> Reachable(nodes, key, b)
    decreases rank(key) + 1, 0
  {
    PresenceUnfolds(nodes, key);
    if key in nodes {
      EnumerationBelow(nodes, rank, nodes[key].children, rank(key));
      forall b ensures Reachable(nodes, key, b) <==> key == b || ReachableFrom(nodes, nodes[key].children, b) {
        ReachableUnfolds(nodes, key, b);
      }
    }
  }

  lemma {:induction false} EnumerationBelow(nodes: Nodes, rank: Key -> nat, children: seq<Key>, bound: nat)
    requires Acyclic(nodes, rank) && forall c :: c in children ==> rank(c) < bound
    ensures KeysBelow(nodes, rank, children, bound).Ok? <==> AllPresentFrom(nodes, children)
    ensures KeysBelow(nodes, rank, children, bound).Ok? ==>
              forall b :: b in KeysBelow(nodes, rank, children, bound).value <==> ReachableFrom(nodes, children, b)
    decreases bound, |children|
  {
    if children != [] {
      EnumerationIsReachability(nodes, rank, children[0]);
      EnumerationBelow(nodes, rank, children[1..], bound);
      assert forall c :: c in children <==> c == children[0] || c in children[1..];
      forall b ensures ReachableFrom(nodes, children, b) <==>
                       Reachable(nodes, children[0], b) || ReachableFrom(nodes, children[1..], b)
      {
        FromUnfolds(nodes, children, b);
      }
    }
  }

  /** The source's form: keys are appended to a vector while the recursion descends. */
  method PushChildTreeNodeKeys(nodes: Nodes, ghost rank: Key -> nat, keys: seq<Key>, key: Key) returns (r: Result<seq<Key>>)
    requires Acyclic(nodes, rank)
    ensures r.Ok? <==> AllPresent(nodes, key)
    ensures r.Ok? ==> keys <= r.value && forall b :: b == key || b in r.value[|keys|..] <==> Reachable(nodes, key, b)
    decreases rank(key)
  {
    ghost var whole := ChildNodeKeys(nodes, rank, key);
    EnumerationIsReachability(nodes, rank, key);
    r := PushKeys(nodes, rank, keys, key);
    if r.Ok? { assert r.value[|keys|..] == whole.value; }
  }

  method PushKeys(nodes: Nodes, ghost rank: Key -> nat, keys: seq<Key>, key: Key) returns (r: Result<seq<Key>>)
    requires Acyclic(nodes, rank)
    ensures var below := ChildNodeKeys(nodes, rank, key); r == if below.Ok? then Ok(keys + below.value) else Err
    decreases rank(key)
  {
    if key !in nodes { return Err; }
    var children, out := nodes[key].children, keys;
    ghost var added: seq<Key> := [];
    NothingPrepended(KeysBelow(nodes, rank, children, rank(key)));
    assert children[0..] == children;
    for i := 0 to |children|
      invariant out == keys + added
      invariant ChildNodeKeys(nodes, rank, key) == Prepend(added, KeysBelow(nodes, rank, children[i..], rank(key)))
    {
      PushStep(nodes, rank, children, i, rank(key), added);
      var deeper := PushKeys(nodes, rank, out + [children[i]], children[i]);
      if deeper.Err? { return Err; }
      out := deeper.value;
      added := added + [children[i]] + ChildNodeKeys(nodes, rank, children[i]).value;
    }
    assert children[|children|..] == [] && added + [] == added;
    r := Ok(out);
  }

  lemma NothingPrepended(r: Result<seq<Key>>)
    ensures Prepend([], r) == r
  {
    assert r.Ok? ==> [] + r.value == r.value;
  }

  ghost function Prepend(xs: seq<Key>, r: Result<seq<Key>>): Result<seq<Key>> {
    if r.Err? then Err else Ok(xs + r.value)
  }

  lemma PushStep(nodes: Nodes, rank: Key -> nat, children: seq<Key>, i: nat, bound: nat, added: seq<Key>)
    requires Acyclic(nodes, rank) && i < |children| && forall c :: c in children ==> rank(c) < bound
    ensures Prepend(added, KeysBelow(nodes, rank, children[i..], bound)) ==
            var below := ChildNodeKeys(nodes, rank, children[i]);
            if below.Err? then Err
            else Prepend(added + [children[i]] + below.value, KeysBelow(nodes, rank, children[i + 1..], bound))
  {
    assert children[i..][1..] == children[i + 1..] && children[i..][0] == children[i];
    var below, rest := ChildNodeKeys(nodes, rank, children[i]), KeysBelow(nodes, rank, children[i + 1..], bound);
    if below.Ok? && rest.Ok? {
      assert added + ([children[i]] + below.value + rest.value) == added + [children[i]] + below.value + rest.value;
    }
  }

  // ----- merged entries -----

  ghost predicate RecordAt(nodes: Nodes, a: Key, p: Path, payload: Payload) {
    exists k :: Reachable(nodes, a, k) && k in nodes && p in nodes[k].entries && nodes[k].entries[p] == payload
  }

  ghost predicate RecordFrom(nodes: Nodes, keys: seq<Key>, p: Path, payload: Payload) {
    exists c :: c in keys && RecordAt(nodes, c, p, payload)
  }

  lemma RecordUnfolds(nodes: Nodes, a: Key, p: Path, payload: Payload)
    requires a in nodes
    ensures RecordAt(nodes, a, p, payload) <==>
            (p in nodes[a].entries && nodes[a].entries[p] == payload) || RecordFrom(nodes, nodes[a].children, p, payload)
  {
    ReachableHere(nodes, a);
    if RecordAt(nodes, a, p, payload) {
      var k :| Reachable(nodes, a, k) && k in nodes && p in nodes[k].entries && nodes[k].entries[p] == payload;
      if k != a { var c := ReachableFirst(nodes, a, k); }
    }
    if RecordFrom(nodes, nodes[a].children, p, payload) {
      var c :| c in nodes[a].children && RecordAt(nodes, c, p, payload);
      var k :| Reachable(nodes, c, k) && k in nodes && p in nodes[k].entries && nodes[k].entries[p] == payload;
      ReachableBelow(nodes, a, c, k);
    }
  }

  /** What `merged` has to do with the records below `a`: each entry is one of them, and every path of
      one of them has an entry. */
  ghost predicate Merges(nodes: Nodes, a: Key, merged: map<Path, Payload>) {
    && (forall p :: p in merged ==> RecordAt(nodes, a, p, merged[p]))
    && (forall p, payload :: RecordAt(nodes, a, p, payload) ==> p in merged)
  }

  ghost predicate MergesFrom(nodes: Nodes, keys: seq<Key>, merged: map<Path, Payload>) {
    && (forall p :: p in merged ==> RecordFrom(nodes, keys, p, merged[p]))
    && (forall p, payload :: RecordFrom(nodes, keys, p, payload) ==> p in merged)
  }

  lemma {:induction false} MergeIsRecords(nodes: Nodes, rank: Key -> nat, key: Key)
    requires Acyclic(nodes, rank)
    ensures MergedEntries(nodes, rank, key).Ok? <==> AllPresent(nodes, key)
    ensures MergedEntries(nodes, rank, key).Ok? ==> Merges(nodes, key, MergedEntries(nodes, rank, key).value)
    decreases rank(key) + 1, 0
  {
    PresenceUnfolds(nodes, key);
    if key in nodes {
      MergeBelow(nodes, rank, nodes[key].children, rank(key));
      if MergedEntries(nodes, rank, key).Ok? {
        forall p, payload ensures RecordAt(nodes, key, p, payload) <==>
            (p in nodes[key].entries && nodes[key].entries[p] == payload) || RecordFrom(nodes, nodes[key].children, p, payload)
        {
          RecordUnfolds(nodes, key, p, payload);
        }
      }
    }
  }

  lemma {:induction false} MergeBelow(nodes: Nodes, rank: Key -> nat, children: seq<Key>, bound: nat)
    requires Acyclic(nodes, rank) && forall c :: c in children ==> rank(c) < bound
    ensures EntriesBelow(nodes, rank, children, bound).Ok? <==> AllPresentFrom(nodes, children)
    ensures EntriesBelow(nodes, rank, children, bound).Ok? ==> MergesFrom(nodes, children, EntriesBelow(nodes, rank, children, bound).value)
    decreases bound, |children|
  {
    if children != [] {
      MergeIsRecords(nodes, rank, children[0]);
      MergeBelow(nodes, rank, children[1..], bound);
      assert forall c :: c in children <==> c == children[0] || c in children[1..];
      if EntriesBelow(nodes, rank, children, bound).Ok? {
        forall p, payload ensures RecordFrom(nodes, children, p, payload) <==>
            RecordAt(nodes, children[0], p, payload) || RecordFrom(nodes, children[1..], p, payload) {}
      }
    }
  }

  /** The merge shows every record exactly when no two reachable nodes give one path two payloads. */
  lemma MergeIsCompleteIff(nodes: Nodes, rank: Key -> nat, key: Key)
    requires Acyclic(nodes, rank) && MergedEntries(nodes, rank, key).Ok?
    ensures var merged := MergedEntries(nodes, rank, key).value;
            (forall p, payload :: RecordAt(nodes, key, p, payload) ==> p in merged && merged[p] == payload)
            <==> (forall p, x, y :: RecordAt(nodes, key, p, x) && RecordAt(nodes, key, p, y) ==> x == y)
  {
    MergeIsRecords(nodes, rank, key);
  }

  // ----- which record wins -----

  function EntriesOf(nodes: Nodes, key: Key): map<Path, Payload> {
    if key in nodes then nodes[key].entries else map[]
  }

  /** The entries of the nodes one after the other. */
  function Overlay(nodes: Nodes, keys: seq<Key>): map<Path, Payload> {
    if keys == [] then map[] else EntriesOf(nodes, keys[0]) + Overlay(nodes, keys[1..])
  }

  lemma PlusIsAssociative(a: map<Path, Payload>, b: map<Path, Payload>, c: map<Path, Payload>)
    ensures (a + b) + c == a + (b + c)
  {
  }

  lemma {:induction false} OverlayConcat(nodes: Nodes, a: seq<Key>, b: seq<Key>)
    ensures Overlay(nodes, a + b) == Overlay(nodes, a) + Overlay(nodes, b)
  {
    if a == [] {
      assert a + b == b;
    } else {
      assert (a + b)[1..] == a[1..] + b;
      OverlayConcat(nodes, a[1..], b);
      PlusIsAssociative(EntriesOf(nodes, a[0]), Overlay(nodes, a[1..]), Overlay(nodes, b));
    }
  }

  /** The last node with the path decides. */
  lemma {:induction false} OverlayAt(nodes: Nodes, keys: seq<Key>, p: Path, i: nat)
    requires i < |keys| && p in EntriesOf(nodes, keys[i])
    requires forall j :: i < j < |keys| ==> p !in EntriesOf(nodes, keys[j])
    ensures p in Overlay(nodes, keys) && Overlay(nodes, keys)[p] == EntriesOf(nodes, keys[i])[p]
  {
    var tail := keys[1..];
    assert forall j :: 0 <= j < |tail| ==> tail[j] == keys[j + 1];
    if i > 0 { OverlayAt(nodes, tail, p, i - 1); } else { OverlayMisses(nodes, tail, p); }
  }

  lemma {:induction false} OverlayMisses(nodes: Nodes, keys: seq<Key>, p: Path)
    requires forall j :: 0 <= j < |keys| ==> p !in EntriesOf(nodes, keys[j])
    ensures p !in Overlay(nodes, keys)
  {
    if keys != [] {
      assert forall j :: 0 <= j < |keys[1..]| ==> keys[1..][j] == keys[j + 1];
      OverlayMisses(nodes, keys[1..], p);
    }
  }

  lemma {:induction false} MergeIsOverlay(nodes: Nodes, rank: Key -> nat, key: Key)
    requires Acyclic(nodes, rank) && MergedEntries(nodes, rank, key).Ok?
    ensures ChildNodeKeys(nodes, rank, key).Ok?
    ensures MergedEntries(nodes, rank, key).value == Overlay(nodes, [key] + ChildNodeKeys(nodes, rank, key).value)
    decreases rank(key) + 1, 0
  {
    OverlayBelow(nodes, rank, nodes[key].children, rank(key));
    var below := ChildNodeKeys(nodes, rank, key).value;
    assert ([key] + below)[1..] == below;
  }

  lemma {:induction false} OverlayBelow(nodes: Nodes, rank: Key -> nat, children: seq<Key>, bound: nat)
    requires Acyclic(nodes, rank) && (forall c :: c in children ==> rank(c) < bound)
    requires EntriesBelow(nodes, rank, children, bound).Ok?
    ensures KeysBelow(nodes, rank, children, bound).Ok?
    ensures EntriesBelow(nodes, rank, children, bound).value == Overlay(nodes, KeysBelow(nodes, rank, children, bound).value)
    decreases bound, |children|
  {
    if children != [] {
      MergeIsOverlay(nodes, rank, children[0]);
      OverlayBelow(nodes, rank, children[1..], bound);
      OverlayConcat(nodes, [children[0]] + ChildNodeKeys(nodes, rank, children[0]).value,
                    KeysBelow(nodes, rank, children[1..], bound).value);
    }
  }

  /** Of two records of one path, the merge shows the one of the node the enumeration visits last. */
  lemma LastVisitedWins(nodes: Nodes, rank: Key -> nat, key: Key, p: Path, i: nat)
    requires Acyclic(nodes, rank) && MergedEntries(nodes, rank, key).Ok? && ChildNodeKeys(nodes, rank, key).Ok?
    requires var order := [key] + ChildNodeKeys(nodes, rank, key).value;
             i < |order| && p in EntriesOf(nodes, order[i]) && forall j :: i < j < |order| ==> p !in EntriesOf(nodes, order[j])
    ensures var order, merged := [key] + ChildNodeKeys(nodes, rank, key).value, MergedEntries(nodes, rank, key).value;
            p in merged && merged[p] == EntriesOf(nodes, order[i])[p]
  {
    MergeIsOverlay(nodes, rank, key);
    OverlayAt(nodes, [key] + ChildNodeKeys(nodes, rank, key).value, p, i);
  }

  // ----- only reachable nodes matter -----

  lemma {:induction false} MergeIsLocal(nodes: Nodes, kept: Nodes, rank: Key -> nat, key: Key)
    requires Acyclic(nodes, rank) && Acyclic(kept, rank)
    requires forall k :: Reachable(nodes, key, k) ==> Lookup(kept, k) == Lookup(nodes, k)
    ensures MergedEntries(kept, rank, key) == MergedEntries(nodes, rank, key)
    decreases rank(key) + 1, 0
  {
    ReachableHere(nodes, key);
    assert Lookup(kept, key) == Lookup(nodes, key);
    if key in nodes {
      forall c, k | c in nodes[key].children && Reachable(nodes, c, k) ensures Lookup(kept, k) == Lookup(nodes, k) {
        ReachableBelow(nodes, key, c, k);
      }
      MergeBelowIsLocal(nodes, kept, rank, nodes[key].children, rank(key));
    }
  }

  lemma {:induction false} MergeBelowIsLocal(nodes: Nodes, kept: Nodes, rank: Key -> nat, children: seq<Key>, bound: nat)
    requires Acyclic(nodes, rank) && Acyclic(kept, rank) && forall c :: c in children ==> rank(c) < bound
    requires forall c, k :: c in children && Reachable(nodes, c, k) ==> Lookup(kept, k) == Lookup(nodes, k)
    ensures EntriesBelow(kept, rank, children, bound) == EntriesBelow(nodes, rank, children, bound)
    decreases bound, |children|
  {
    if children != [] {
      MergeIsLocal(nodes, kept, rank, children[0]);
      MergeBelowIsLocal(nodes, kept, rank, children[1..], bound);
    }
  }

  lemma {:induction false} EnumerationIsLocal(nodes: Nodes, kept: Nodes, rank: Key -> nat, key: Key)
    requires Acyclic(nodes, rank) && Acyclic(kept, rank)
    requires forall k :: Reachable(nodes, key, k) ==> Lookup(kept, k) == Lookup(nodes, k)
    ensures ChildNodeKeys(kept, rank, key) == ChildNodeKeys(nodes, rank, key)
    decreases rank(key) + 1, 0
  {
    ReachableHere(nodes, key);
    assert Lookup(kept, key) == Lookup(nodes, key);
    if key in nodes {
      forall c, k | c in nodes[key].children && Reachable(nodes, c, k) ensures Lookup(kept, k) == Lookup(nodes, k) {
        ReachableBelow(nodes, key, c, k);
      }
      EnumerationBelowIsLocal(nodes, kept, rank, nodes[key].children, rank(key));
    }
  }

  lemma {:induction false} EnumerationBelowIsLocal(nodes: Nodes, kept: Nodes, rank: Key -> nat, children: seq<Key>, bound: nat)
    requires Acyclic(nodes, rank) && Acyclic(kept, rank) && forall c :: c in children ==> rank(c) < bound
    requires forall c, k :: c in children && Reachable(nodes, c, k) ==> Lookup(kept, k) == Lookup(nodes, k)
    ensures KeysBelow(kept, rank, children, bound) == KeysBelow(nodes, rank, children, bound)
    decreases bound, |children|
  {
    if children != [] {
      EnumerationIsLocal(nodes, kept, rank, children[0]);
      EnumerationBelowIsLocal(nodes, kept, rank, children[1..], bound);
    }
  }

  /** Keeping what is reachable keeps reachability. */
  lemma ReachabilityIsLocal(nodes: Nodes, kept: Nodes, rank: Key -> nat, key: Key)
    requires Acyclic(nodes, rank) && Acyclic(kept, rank) && AllPresent(nodes, key)
    requires forall k :: Reachable(nodes, key, k) ==> Lookup(kept, k) == Lookup(nodes, k)
    ensures AllPresent(kept, key) && forall k :: Reachable(kept, key, k) <==> Reachable(nodes, key, k)
  {
    EnumerationIsLocal(nodes, kept, rank, key);
    EnumerationIsReachability(nodes, rank, key);
    EnumerationIsReachability(kept, rank, key);
  }
}
