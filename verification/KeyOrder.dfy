/** The order of keys in the source's sorted maps and listings, and sorted listings themselves. */
module KeyOrder {
  import opened Basics

  /** Lexicographic order on keys. */
  predicate Below(a: Key, b: Key) {
    b != [] && (a == [] || a[0] < b[0] || (a[0] == b[0] && Below(a[1..], b[1..])))
  }

  predicate AtMost(a: Key, b: Key) {
    a == b || Below(a, b)
  }

  lemma {:induction false} BelowIsTotal(a: Key, b: Key)
    ensures a == b || Below(a, b) || Below(b, a)
  {
    if a != [] && b != [] && a[0] == b[0] {
      BelowIsTotal(a[1..], b[1..]);
      assert a == [a[0]] + a[1..] && b == [b[0]] + b[1..];
    }
  }

  lemma {:induction false} BelowIsTransitive(a: Key, b: Key, c: Key)
    requires Below(a, b) && Below(b, c)
    ensures Below(a, c)
  {
    if a != [] && a[0] == b[0] && b[0] == c[0] { BelowIsTransitive(a[1..], b[1..], c[1..]); }
  }

  lemma {:induction false} BelowIsAsymmetric(a: Key, b: Key)
    requires Below(a, b)
    ensures !Below(b, a) && a != b
  {
    if a != [] && a[0] == b[0] { BelowIsAsymmetric(a[1..], b[1..]); }
  }

  lemma {:induction false} PrefixIsAtMost(prefix: Key, k: Key)
    requires StartsWith(k, prefix)
    ensures AtMost(prefix, k)
  {
    if prefix != [] && k != prefix {
      PrefixIsAtMost(prefix[1..], k[1..]);
      assert prefix == [prefix[0]] + prefix[1..] && k == [k[0]] + k[1..];
    }
  }

  /** Keys with a prefix are consecutive: past the first key at or above the prefix that lacks it,
      no key has it. */
  lemma {:induction false} PrefixIsContiguous(prefix: Key, a: Key, b: Key)
    requires AtMost(prefix, a) && !StartsWith(a, prefix) && Below(a, b)
    ensures !StartsWith(b, prefix)
  {
    if prefix != [] && StartsWith(b, prefix) {
      if a[0] == prefix[0] {
        assert prefix == [prefix[0]] + prefix[1..] && a == [a[0]] + a[1..];
        PrefixIsContiguous(prefix[1..], a[1..], b[1..]);
      }
    }
  }

  // ----- sorted listings -----

  ghost predicate Ascending(keys: seq<Key>) {
    forall i, j :: 0 <= i < j < |keys| ==> Below(keys[i], keys[j])
  }

  ghost function Elements(keys: seq<Key>): set<Key> {
    set k | k in keys
  }

  lemma FirstIsListed(keys: seq<Key>)
    ensures keys != [] ==> keys[0] in Elements(keys)
  {
  }

  lemma TailElements(xs: seq<Key>)
    requires Ascending(xs) && xs != []
    ensures Elements(xs[1..]) == Elements(xs) - {xs[0]} && Ascending(xs[1..])
  {
    forall k ensures k in xs[1..] <==> k in xs && k != xs[0] {
      if k in xs[1..] {
        var i :| 0 <= i < |xs| - 1 && xs[1..][i] == k;
        assert xs[i + 1] == k && Below(xs[0], xs[i + 1]);
        BelowIsAsymmetric(xs[0], k);
      }
      if k in xs && k != xs[0] {
        var i :| 0 <= i < |xs| && xs[i] == k;
        assert xs[1..][i - 1] == k;
      }
    }
  }

  /** Insert a key into a sorted listing unless it is there. */
  function Insert(keys: seq<Key>, k: Key): (r: seq<Key>)
  {
    if keys == [] then [k]
    else if keys[0] == k then keys
    else if Below(k, keys[0]) then [k] + keys
    else [keys[0]] + Insert(keys[1..], k)
  }

  lemma {:induction false} InsertSorts(keys: seq<Key>, k: Key)
    requires Ascending(keys)
    ensures Ascending(Insert(keys, k)) && Elements(Insert(keys, k)) == Elements(keys) + {k}
  {
    if keys == [] || keys[0] == k {
    } else if Below(k, keys[0]) {
      forall j | 0 <= j < |keys| ensures Below(k, keys[j]) {
        if j > 0 { BelowIsTransitive(k, keys[0], keys[j]); }
      }
    } else {
      TailElements(keys);
      InsertSorts(keys[1..], k);
      BelowIsTotal(k, keys[0]);
      HeadStaysFirst(keys, Insert(keys[1..], k), k);
    }
  }

  lemma HeadStaysFirst(keys: seq<Key>, rest: seq<Key>, k: Key)
    requires Ascending(keys) && keys != [] && Below(keys[0], k)
    requires Ascending(rest) && Elements(rest) == Elements(keys[1..]) + {k}
    ensures Ascending([keys[0]] + rest) && Elements([keys[0]] + rest) == Elements(keys) + {k}
  {
    TailElements(keys);
    forall j | 0 <= j < |rest| ensures Below(keys[0], rest[j]) {
      assert rest[j] in Elements(rest);
      if rest[j] != k {
        var i :| 0 <= i < |keys[1..]| && keys[1..][i] == rest[j];
        assert keys[i + 1] == rest[j];
      }
    }
    assert Elements([keys[0]] + rest) == {keys[0]} + Elements(rest);
  }

  /** Sort a set of keys by repeated insertion. */
  method Sort(keys: set<Key>) returns (sorted: seq<Key>)
    ensures Ascending(sorted) && Elements(sorted) == keys
  {
    sorted := [];
    var todo := keys;
    while todo != {}
      invariant todo <= keys && Ascending(sorted) && Elements(sorted) == keys - todo
      decreases |todo|
    {
      var k :| k in todo;
      InsertSorts(sorted, k);
      sorted := Insert(sorted, k);
      todo := todo - {k};
    }
  }
}
