/** The publication layers by the form of a key. A key is a path; its layer is decided by the names of its
    directories and of its file, although the code looks at it as a string. */
module KeyLayers {
  import opened Basics
  import opened BackendQueue

  /** Path components, none of which has a slash in it. */
  ghost predicate IsPath(p: seq<string>) {
    p != [] && forall i :: 0 <= i < |p| ==> '/' !in p[i]
  }

  function Join(p: seq<string>): string
    requires p != []
  {
    if |p| == 1 then p[0] else p[0] + "/" + Join(p[1..])
  }

  function File(p: seq<string>): string
    requires p != []
  {
    p[|p| - 1]
  }

  /** `x` names a directory on the way to the file. */
  predicate Below(p: seq<string>, x: string) {
    exists i :: 0 <= i < |p| - 1 && p[i] == x
  }

  predicate IsExport(p: seq<string>) {
    |p| > 2 && p[|p| - 2] == "metadata" && File(p) in {"export.json", "export.json.zst"}
  }

  datatype Kind = Content | Metadata | Ref

  /** Refs lie below a directory `refs`, or are files `current` or `head.cbor.zst.enc`. Journals lie below
      `journal`, and the metadata export below `metadata`, or directly below the root. All else is
      content. */
  function KindOf(p: seq<string>): Kind
    requires p != []
  {
    if Below(p, "refs") || (|p| > 1 && File(p) in {"current", "head.cbor.zst.enc"}) then Ref
    else if Below(p, "journal") || (|p| > 1 && p[0] == "metadata")
            || IsExport(p)
    then Metadata
    else Content
  }

  /** What must be published first. */
  predicate Precedes(a: Kind, b: Kind) {
    (a.Content? && !b.Content?) || (a.Metadata? && b.Ref?)
  }

  // ----- strings and paths -----

  lemma JoinCons(p: seq<string>)
    requires IsPath(p) && |p| > 1
    ensures IsPath(p[1..]) && Join(p) == p[0] + ("/" + Join(p[1..]))
  {
    assert p[0] + "/" + Join(p[1..]) == p[0] + ("/" + Join(p[1..]));
  }

  /** The first slash of `a/t` is the one after `a`. */
  lemma FirstSlash(a: string, t: string)
    requires '/' !in a
    ensures forall j :: 0 <= j < |a| ==> (a + ("/" + t))[j] != '/'
    ensures (a + ("/" + t))[|a|] == '/'
  {
  }

  lemma OccursIsPrefix(s: string, q: string, i: nat)
    requires i <= |s|
    ensures OccursAt(s, q, i) <==> q <= s[i..]
  {
    if i + |q| <= |s| { assert s[i..i + |q|] == s[i..][..|q|]; }
  }

  lemma DropHead(a: string, t: string, i: nat)
    requires |a| <= i <= |a| + 1 + |t|
    ensures (a + ("/" + t))[i..] == if i == |a| then "/" + t else t[i - |a| - 1..]
  {
  }

  lemma PrefixPastSlash(q: string, t: string)
    ensures "/" + q <= "/" + t <==> q <= t
  {
    if "/" + q <= "/" + t { assert q == ("/" + q)[1..] == ("/" + t)[..|q| + 1][1..] == t[..|q|]; }
    if q <= t { assert ("/" + t)[..|q| + 1] == "/" + q; }
  }

  /** In `a/t` a pattern that begins with a slash occurs at the slash or in `t`. */
  lemma OccursIff(a: string, t: string, q: string, i: nat)
    requires '/' !in a && i <= |a| + 1 + |t|
    ensures OccursAt(a + ("/" + t), "/" + q, i) <==>
            (i == |a| && q <= t) || (i > |a| && OccursAt(t, "/" + q, i - |a| - 1))
  {
    var s := a + ("/" + t);
    OccursIsPrefix(s, "/" + q, i);
    if i < |a| {
      FirstSlash(a, t);
      assert s[i..][0] == s[i] && ("/" + q)[0] == '/';
    } else {
      DropHead(a, t, i);
      if i == |a| { PrefixPastSlash(q, t); } else { OccursIsPrefix(t, "/" + q, i - |a| - 1); }
    }
  }

  lemma ContainsCons(a: string, t: string, q: string)
    requires '/' !in a
    ensures Contains(a + ("/" + t), "/" + q) <==> q <= t || Contains(t, "/" + q)
  {
    var s := a + ("/" + t);
    if i :| 0 <= i <= |s| && OccursAt(s, "/" + q, i) { OccursIff(a, t, q, i); }
    if q <= t { OccursIff(a, t, q, |a|); }
    if j :| 0 <= j <= |t| && OccursAt(t, "/" + q, j) { OccursIff(a, t, q, |a| + 1 + j); }
  }

  /** A suffix is an occurrence that reaches the end. */
  lemma EndsIsOccurrence(s: string, q: string)
    requires |q| <= |s|
    ensures EndsWith(s, q) <==> OccursAt(s, q, |s| - |q|)
  {
    assert s[|s| - |q|..|s|] == s[|s| - |q|..];
  }

  lemma EndsCons(a: string, t: string, q: string)
    requires '/' !in a
    ensures EndsWith(a + ("/" + t), "/" + q) <==> t == q || EndsWith(t, "/" + q)
  {
    var s := a + ("/" + t);
    if |q| + 1 <= |s| {
      EndsIsOccurrence(s, "/" + q);
      OccursIff(a, t, q, |s| - |q| - 1);
      if |q| + 1 <= |t| { EndsIsOccurrence(t, "/" + q); }
    }
  }

  /** Two strings with a slash right behind a part without one agree on that part. */
  lemma SameHead(a: string, t: string, x: string, u: string)
    requires '/' !in a && '/' !in x
    requires x + ("/" + u) <= a + ("/" + t)
    ensures a == x
  {
    FirstSlash(a, t);
    FirstSlash(x, u);
    var s, r := a + ("/" + t), x + ("/" + u);
    assert forall j :: 0 <= j < |r| ==> r[j] == s[j];
    assert |a| == |x|;
    assert a == s[..|a|] == r[..|x|] == x;
  }

  /** Only a path of several components starts with one of them and a slash. */
  lemma StartsIff(p: seq<string>, x: string)
    requires IsPath(p) && '/' !in x
    ensures x + "/" <= Join(p) <==> |p| > 1 && p[0] == x
  {
    var s, n := Join(p), |x|;
    assert x + "/" == x + ("/" + "") && (x + "/")[n] == '/';
    if |p| > 1 {
      JoinCons(p);
      if p[0] == x { assert s[..n + 1] == x + "/"; }
      if x + "/" <= s { SameHead(p[0], Join(p[1..]), x, ""); }
    } else {
      NoSlashNoPrefix(s, x + "/", n);
    }
  }

  lemma NoSlashNoPrefix(s: string, q: string, n: nat)
    requires '/' !in s && n < |q| && q[n] == '/'
    ensures !(q <= s)
  {
    assert forall j :: 0 <= j < |s| ==> s[j] != '/';
  }

  lemma {:induction false} ContainsIff(p: seq<string>, x: string)
    requires IsPath(p) && '/' !in x
    ensures Contains(Join(p), "/" + (x + "/")) <==> exists i :: 1 <= i < |p| - 1 && p[i] == x
  {
    if |p| == 1 {
      NoSlashNoOccurrence(p[0], x + "/");
    } else {
      var tail := p[1..];
      JoinCons(p);
      ContainsCons(p[0], Join(tail), x + "/");
      StartsIff(tail, x);
      ContainsIff(tail, x);
      if i :| 1 <= i < |p| - 1 && p[i] == x { assert tail[i - 1] == x; }
      if i :| 1 <= i < |tail| - 1 && tail[i] == x { assert p[i + 1] == x; }
      if |tail| > 1 && tail[0] == x { assert p[1] == x; }
    }
  }

  lemma NoSlashNoOccurrence(s: string, q: string)
    requires '/' !in s
    ensures !Contains(s, "/" + q) && !EndsWith(s, "/" + q)
  {
    forall i | 0 <= i <= |s|
      ensures !OccursAt(s, "/" + q, i) && !("/" + q <= s[i..])
    {
      OccursIsPrefix(s, "/" + q, i);
      NoSlashNoPrefix(s[i..], "/" + q, 0);
    }
  }

  lemma {:induction false} JoinIsInjective(p: seq<string>, q: seq<string>)
    requires IsPath(p) && IsPath(q) && Join(p) == Join(q)
    ensures p == q
    decreases |p|
  {
    StartsIff(p, p[0]);
    StartsIff(q, p[0]);
    StartsIff(q, q[0]);
    StartsIff(p, q[0]);
    if |p| > 1 && |q| > 1 {
      JoinCons(p);
      JoinCons(q);
      var n := |p[0]|;
      assert Join(p)[n + 1..] == Join(p[1..]) && Join(q)[n + 1..] == Join(q[1..]);
      JoinIsInjective(p[1..], q[1..]);
      assert p == [p[0]] + p[1..] && q == [q[0]] + q[1..];
    } else {
      assert p == [p[0]] && q == [q[0]];
    }
  }

  /** A key ends with a path exactly when its components do. */
  lemma {:induction false} EndsIff(p: seq<string>, e: seq<string>)
    requires IsPath(p) && IsPath(e)
    ensures EndsWith(Join(p), "/" + Join(e)) <==> |p| > |e| && p[|p| - |e|..] == e
    decreases |p|
  {
    if |p| == 1 {
      NoSlashNoOccurrence(p[0], Join(e));
    } else {
      var tail := p[1..];
      JoinCons(p);
      EndsCons(p[0], Join(tail), Join(e));
      EndsIff(tail, e);
      if Join(tail) == Join(e) { JoinIsInjective(tail, e); }
      if |p| > |e| && p[|p| - |e|..] == e {
        if |tail| > |e| { assert tail[|tail| - |e|..] == e; } else { assert tail == e; }
      }
      if |tail| > |e| && tail[|tail| - |e|..] == e { assert p[|p| - |e|..] == e; }
    }
  }

  /** The components of a key: every key is a path. */
  function Split(key: Key): (p: seq<string>)
    ensures p != []
  {
    if key == "" then [""]
    else
      var rest := Split(key[1..]);
      if key[0] == '/' then [""] + rest else [[key[0]] + rest[0]] + rest[1..]
  }

  lemma {:induction false} JoinOfSplit(key: Key)
    ensures IsPath(Split(key)) && Join(Split(key)) == key
  {
    if key != "" {
      var rest, p := Split(key[1..]), Split(key);
      JoinOfSplit(key[1..]);
      assert p[1..] == if key[0] == '/' then rest else rest[1..];
      assert key == [key[0]] + key[1..];
      if key[0] == '/' {
        assert Join(p) == "" + "/" + Join(rest) == "/" + key[1..];
      } else if |rest| > 1 {
        assert Join(p) == [key[0]] + rest[0] + "/" + Join(rest[1..]) == [key[0]] + (rest[0] + "/" + Join(rest[1..]));
      }
    }
  }

  lemma SplitOfJoin(p: seq<string>)
    requires IsPath(p)
    ensures Split(Join(p)) == p
  {
    JoinOfSplit(Join(p));
    JoinIsInjective(Split(Join(p)), p);
  }

  // ----- layers -----

  /** A directory `x` of a path shows in the key as `x/` in front or as `/x/` behind. */
  lemma BelowIff(p: seq<string>, x: string)
    requires IsPath(p) && '/' !in x
    ensures Below(p, x) <==> StartsWith(Join(p), x + "/") || Contains(Join(p), "/" + (x + "/"))
  {
    StartsIff(p, x);
    ContainsIff(p, x);
    if i :| 0 <= i < |p| - 1 && p[i] == x { assert i > 0 ==> 1 <= i < |p| - 1; }
  }

  lemma FileIff(p: seq<string>, x: string)
    requires IsPath(p) && '/' !in x
    ensures EndsWith(Join(p), "/" + x) <==> |p| > 1 && File(p) == x
  {
    EndsIff(p, [x]);
    if |p| > 1 { assert p[|p| - 1..] == [File(p)]; }
  }

  lemma JoinOfTwo(d: string, x: string)
    ensures Join([d, x]) == d + "/" + x
  {
    assert [d, x][1..] == [x];
  }

  lemma FileInIff(p: seq<string>, d: string, x: string)
    requires IsPath(p) && '/' !in d && '/' !in x
    ensures EndsWith(Join(p), "/" + (d + "/" + x)) <==> |p| > 2 && p[|p| - 2] == d && File(p) == x
  {
    EndsIff(p, [d, x]);
    JoinOfTwo(d, x);
    if |p| > 2 { assert p[|p| - 2..] == [p[|p| - 2], File(p)]; }
  }

  // The patterns the code looks for, taken apart.

  lemma RefPatterns()
    ensures "refs/" == "refs" + "/" && "/refs/" == "/" + ("refs" + "/")
    ensures "/current" == "/" + "current" && "/head.cbor.zst.enc" == "/" + "head.cbor.zst.enc"
  {
  }

  lemma JournalPatterns()
    ensures "journal/" == "journal" + "/" && "/journal/" == "/" + ("journal" + "/") && "metadata/" == "metadata" + "/"
    ensures "metadata/" <= "metadata/export.json"
  {
  }

  lemma ExportPattern()
    ensures "/metadata/export.json" == "/" + ("metadata" + "/" + "export.json")
  {
  }

  lemma CompressedExportPattern()
    ensures "/metadata/export.json.zst" == "/" + ("metadata" + "/" + "export.json.zst")
  {
  }

  lemma NoSlashes()
    ensures '/' !in "refs" && '/' !in "journal" && '/' !in "metadata" && '/' !in "current"
    ensures '/' !in "head.cbor.zst.enc" && '/' !in "export.json" && '/' !in "export.json.zst"
  {
  }

  lemma RefIff(p: seq<string>)
    requires IsPath(p)
    ensures KindOf(p).Ref? <==> PublishPriority(Join(p)) == 3
  {
    NoSlashes();
    RefPatterns();
    BelowIff(p, "refs");
    FileIff(p, "current");
    FileIff(p, "head.cbor.zst.enc");
  }

  lemma ExportIff(p: seq<string>)
    requires IsPath(p)
    ensures IsExport(p) <==>
            EndsWith(Join(p), "/metadata/export.json.zst") || EndsWith(Join(p), "/metadata/export.json")
  {
    NoSlashes();
    ExportPattern();
    CompressedExportPattern();
    FileInIff(p, "metadata", "export.json");
    FileInIff(p, "metadata", "export.json.zst");
  }

  lemma MetadataIff(p: seq<string>)
    requires IsPath(p) && !KindOf(p).Ref?
    ensures KindOf(p).Metadata? <==> PublishPriority(Join(p)) == 2
  {
    NoSlashes();
    JournalPatterns();
    RefIff(p);
    BelowIff(p, "journal");
    StartsIff(p, "metadata");
    ExportIff(p);
  }

  /** The layers order keys exactly by what their paths say they are. */
  lemma LayersFollowForm(a: seq<string>, b: seq<string>)
    requires IsPath(a) && IsPath(b)
    ensures PublishPriority(Join(a)) < PublishPriority(Join(b)) <==> Precedes(KindOf(a), KindOf(b))
  {
    RefIff(a);
    RefIff(b);
    if !KindOf(a).Ref? { MetadataIff(a); }
    if !KindOf(b).Ref? { MetadataIff(b); }
  }
}
