/** Reading a range of a mounted file: the overlapping chunks give exactly the slice of the file. */
module RangeRead {
  import opened Basics

  /** A chunk of a large file; `data` is absent when the object cannot be read. */
  datatype Chunk = Chunk(offset: nat, len: nat, data: Option<Bytes>)

  /** The blob, or the manifest that lists the chunks, is absent when it cannot be read. */
  datatype Payload = Blob(data: Option<Bytes>) | Large(manifest: Option<seq<Chunk>>) | NoData
  datatype FileRecord = FileRecord(size: nat, payload: Payload)

  /** The chunks follow each other from `from` to the end of `content`, and hold their part of it. */
  ghost predicate LaidOut(chunks: seq<Chunk>, from: nat, content: Bytes) {
    if chunks == [] then from == |content|
    else
      var c := chunks[0];
      && c.offset == from && from + c.len <= |content|
      && (c.data.Some? ==> c.data.value == content[from..from + c.len])
      && LaidOut(chunks[1..], from + c.len, content)
  }

  ghost predicate Partitions(chunks: seq<Chunk>, content: Bytes) {
    LaidOut(chunks, 0, content)
  }

  ghost predicate Represents(record: FileRecord, content: Bytes) {
    && |content| == record.size
    && match record.payload
       case Blob(data) => data.Some? ==> data.value == content
       case Large(manifest) => manifest.Some? ==> Partitions(manifest.value, content)
       case NoData => content == []
  }

  predicate Overlaps(c: Chunk, start: nat, end: nat) {
    c.offset + c.len > start && c.offset < end
  }

  function Min(a: nat, b: nat): nat {
    if a < b then a else b
  }

  /** The part of [start, end) that lies in the first `n` bytes. */
  ghost function Window(content: Bytes, n: nat, start: nat, end: nat): Bytes
    requires n <= |content| && start <= end
  {
    content[Min(start, n)..Min(end, n)]
  }

  /** The bytes a read at `offset` of at most `size` bytes should give. */
  ghost function Slice(content: Bytes, offset: int, size: nat): Bytes {
    if offset < 0 || offset >= |content| then [] else content[offset..Min(offset + size, |content|)]
  }

  /** The range some object must be read for. */
  ghost predicate Unreadable(record: FileRecord, offset: int, size: nat) {
    && 0 <= offset < record.size
    && match record.payload
       case Blob(data) => data.None?
       case Large(manifest) =>
         manifest.None? || exists i :: 0 <= i < |manifest.value| && manifest.value[i].data.None?
                                       && Overlaps(manifest.value[i], offset, Min(offset + size, record.size))
       case NoData => false
  }

  /** A read fails exactly when an object it needs cannot be read, and otherwise gives the slice. */
  method ReadFile(record: FileRecord, offset: int, size: nat, ghost content: Bytes) returns (r: Result<Bytes>)
    requires Represents(record, content)
    ensures r.Err? <==> Unreadable(record, offset, size)
    ensures r.Ok? ==> r.value == Slice(content, offset, size)
  {
    if offset < 0 || offset >= record.size { return Ok([]); }
    var start: nat, end := offset, Min(offset + size, record.size);
    match record.payload {
      case Blob(data) =>
        if data.None? { return Err; }
        return Ok(data.value[start..end]);
      case Large(manifest) =>
        if manifest.None? { return Err; }
        r := ReadChunks(manifest.value, start, end, content);
      case NoData =>
        return Ok([]);
    }
  }

  method ReadChunks(chunks: seq<Chunk>, start: nat, end: nat, ghost content: Bytes) returns (r: Result<Bytes>)
    requires Partitions(chunks, content) && start <= end <= |content|
    ensures r.Err? <==> exists i :: 0 <= i < |chunks| && chunks[i].data.None? && Overlaps(chunks[i], start, end)
    ensures r.Ok? ==> r.value == content[start..end]
  {
    var out: Bytes := [];
    ghost var pos: nat := 0;
    assert chunks[0..] == chunks;
    for i := 0 to |chunks|
      invariant pos <= |content| && LaidOut(chunks[i..], pos, content)
      invariant out == Window(content, pos, start, end)
      invariant forall j :: 0 <= j < i ==> chunks[j].data.Some? || !Overlaps(chunks[j], start, end)
    {
      assert chunks[i..][1..] == chunks[i + 1..];
      var part := ChunkPart(chunks[i], start, end, content);
      if part.Err? {
        assert chunks[i].data.None? && Overlaps(chunks[i], start, end);
        return Err;
      }
      out := out + part.value;
      pos := pos + chunks[i].len;
    }
    r := Ok(out);
  }

  /** What one chunk contributes. */
  method ChunkPart(c: Chunk, start: nat, end: nat, ghost content: Bytes) returns (r: Result<Bytes>)
    requires start <= end && c.offset + c.len <= |content|
    requires c.data.Some? ==> c.data.value == content[c.offset..c.offset + c.len]
    ensures r.Err? <==> c.data.None? && Overlaps(c, start, end)
    ensures r.Ok? ==> Window(content, c.offset + c.len, start, end) == Window(content, c.offset, start, end) + r.value
  {
    WindowStep(content, c.offset, c.len, start, end);
    if c.offset + c.len <= start || c.offset >= end { return Ok([]); }
    if c.data.None? { return Err; }
    var from := if start < c.offset then 0 else start - c.offset;
    var to := Min(end, c.offset + c.len) - c.offset;
    r := Ok(c.data.value[from..to]);
  }

  /** Extending the covered prefix by one chunk adds that chunk's part of the window. */
  lemma WindowStep(content: Bytes, n: nat, len: nat, start: nat, end: nat)
    requires n + len <= |content| && start <= end
    ensures n + len <= start || n >= end ==> Window(content, n + len, start, end) == Window(content, n, start, end)
    ensures n + len > start && n < end ==>
              var from, to := (if start < n then 0 else start - n), Min(end, n + len) - n;
              from <= to <= len && Window(content, n + len, start, end) == Window(content, n, start, end) + content[n..n + len][from..to]
  {
    if n + len > start && n < end {
      var from, to := (if start < n then 0 else start - n), Min(end, n + len) - n;
      PartOfPart(content, n, n + len, from, to);
    }
  }

  lemma PartOfPart(content: Bytes, a: nat, b: nat, from: nat, to: nat)
    requires a <= b <= |content| && from <= to <= b - a
    ensures content[a..b][from..to] == content[a + from..a + to]
  {
    var inner, outer := content[a..b][from..to], content[a + from..a + to];
    assert |inner| == |outer| && forall i :: 0 <= i < |inner| ==> inner[i] == content[a..b][from + i] == outer[i];
  }

  /** Consecutive reads of any sizes give the file from the first offset on. */
  ghost function ReadsInARow(content: Bytes, offset: nat, sizes: seq<nat>): Bytes
    decreases sizes
  {
    if sizes == [] then [] else Slice(content, offset, sizes[0]) + ReadsInARow(content, offset + sizes[0], sizes[1..])
  }

  ghost function Sum(sizes: seq<nat>): nat {
    if sizes == [] then 0 else sizes[0] + Sum(sizes[1..])
  }

  lemma {:induction false} ReadsConcatenate(content: Bytes, offset: nat, sizes: seq<nat>)
    ensures ReadsInARow(content, offset, sizes) == Slice(content, offset, Sum(sizes))
    decreases sizes
  {
    if sizes == [] {
      assert Slice(content, offset, 0) == [];
    } else {
      ReadsConcatenate(content, offset + sizes[0], sizes[1..]);
      SliceSplits(content, offset, sizes[0], Sum(sizes[1..]));
    }
  }

  lemma SliceSplits(content: Bytes, offset: nat, a: nat, b: nat)
    ensures Slice(content, offset, a + b) == Slice(content, offset, a) + Slice(content, offset + a, b)
  {
  }

  /** Reading until the sizes reach the length of the file gives the whole file. */
  lemma ReadsGiveTheFile(content: Bytes, sizes: seq<nat>)
    requires Sum(sizes) >= |content|
    ensures ReadsInARow(content, 0, sizes) == content
  {
    ReadsConcatenate(content, 0, sizes);
  }
}
