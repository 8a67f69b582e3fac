/** Publication order by the form of a host's keys: its objects reach the backend before its metadata and
    journal, and these before its refs. */
module HostPublication {
  import opened Basics
  import opened BackendQueue
  import opened KeyLayers
  import opened MasterState
  import opened MasterInvariant
  import opened MasterRefinement
  import opened Publication
  import opened Boundaries
  import SlaveQueue

  // ----- the keys of a host -----

  /** What a host stores: objects under any path that names none of the other forms, the metadata export,
      plain or compressed, journal events, refs under any name, the old current mark and the head. */
  datatype Form = Object(rest: seq<string>) | Export | CompressedExport | JournalEvent(id: string)
                | NamedRef(name: seq<string>) | CurrentMark | Head

  ghost predicate WellFormed(f: Form) {
    && (f.Object? ==>
          && IsPath(f.rest)
          && forall i :: 0 <= i < |f.rest| ==> f.rest[i] !in {"refs", "journal", "metadata", "current", "head.cbor.zst.enc"})
    && (f.JournalEvent? ==> '/' !in f.id)
    && (f.NamedRef? ==> IsPath(f.name))
  }

  function PathOf(h: Host, f: Form): (p: seq<string>)
    ensures p != []
  {
    match f
    case Object(rest) => [h] + rest
    case Export => [h, "metadata", "export.json"]
    case CompressedExport => [h, "metadata", "export.json.zst"]
    case JournalEvent(id) => [h, "journal", id + ".json"]
    case NamedRef(name) => [h, "refs"] + name
    case CurrentMark => [h, "current"]
    case Head => [h, "head.cbor.zst.enc"]
  }

  function HostKey(h: Host, f: Form): Key {
    Join(PathOf(h, f))
  }

  /** What the design makes of a form: whatever is named must be published before what names it. */
  function Role(f: Form): Kind {
    match f
    case Object(_) => Content
    case Export | CompressedExport | JournalEvent(_) => Metadata
    case NamedRef(_) | CurrentMark | Head => Ref
  }

  lemma PathOfIsPath(h: Host, f: Form)
    requires '/' !in h && WellFormed(f)
    ensures IsPath(PathOf(h, f))
  {
    NoSlashes();
    var p := PathOf(h, f);
    if f.JournalEvent? { assert forall c :: c in f.id + ".json" ==> c in f.id || c in ".json"; }
    forall i | 0 <= i < |p| ensures '/' !in p[i] { }
  }

  const RESERVED: set<Host> := {"refs", "journal", "metadata"}

  lemma ObjectIsContent(h: Host, f: Form)
    requires h !in RESERVED && f.Object? && WellFormed(f)
    ensures KindOf(PathOf(h, f)) == Content
  {
    var p := PathOf(h, f);
    assert forall i :: 0 < i < |p| ==> p[i] == f.rest[i - 1];
  }

  lemma EventIsNoMark(id: string)
    ensures id + ".json" !in {"current", "head.cbor.zst.enc"}
  {
    var name := id + ".json";
    assert name[|name| - 1] == 'n' && "current"[6] == 't' && "head.cbor.zst.enc"[16] == 'c';
  }

  lemma MetadataIsMetadata(h: Host, f: Form)
    requires h !in RESERVED && WellFormed(f) && Role(f).Metadata?
    ensures KindOf(PathOf(h, f)) == Metadata
  {
    var p := PathOf(h, f);
    if f.JournalEvent? {
      EventIsNoMark(f.id);
      assert p[1] == "journal";
    }
    assert !Below(p, "refs");
  }

  lemma RefIsRef(h: Host, f: Form)
    requires WellFormed(f) && Role(f).Ref?
    ensures KindOf(PathOf(h, f)) == Ref
  {
    if f.NamedRef? { assert PathOf(h, f)[1] == "refs"; }
  }

  /** The layers of master and slave put a host's keys in the order of their roles. */
  ghost predicate Layered(h: Host) {
    forall a, b :: WellFormed(a) && WellFormed(b) ==>
      && (PublishPriority(HostKey(h, a)) < PublishPriority(HostKey(h, b)) <==> Precedes(Role(a), Role(b)))
      && (SlaveQueue.UploadPublishPriority(HostKey(h, a)) < SlaveQueue.UploadPublishPriority(HostKey(h, b)) <==>
          Precedes(Role(a), Role(b)))
  }

  lemma PairIsLayered(h: Host, a: Form, b: Form)
    requires '/' !in h && h !in RESERVED && WellFormed(a) && WellFormed(b)
    ensures PublishPriority(HostKey(h, a)) < PublishPriority(HostKey(h, b)) <==> Precedes(Role(a), Role(b))
  {
    PathOfIsPath(h, a);
    PathOfIsPath(h, b);
    RoleIsKind(h, a);
    RoleIsKind(h, b);
    LayersFollowForm(PathOf(h, a), PathOf(h, b));
  }

  lemma RoleIsKind(h: Host, f: Form)
    requires h !in RESERVED && WellFormed(f)
    ensures KindOf(PathOf(h, f)) == Role(f)
  {
    match Role(f)
    case Content => ObjectIsContent(h, f);
    case Metadata => MetadataIsMetadata(h, f);
    case Ref => RefIsRef(h, f);
  }

  /** A host named like one of the directories the code looks for has its objects taken for what lies
      below that directory. */
  lemma ReservedIsMistaken(h: Host)
    requires h in RESERVED
    ensures WellFormed(Object(["x"])) && !Precedes(KindOf(PathOf(h, Object(["x"]))), KindOf(PathOf(h, Export)))
  {
    var p, e := PathOf(h, Object(["x"])), PathOf(h, Export);
    assert p == [h, "x"] && e == [h, "metadata", "export.json"];
    assert p[0] == h && e[0] == h;
  }

  lemma ReservedLayers(h: Host)
    requires h in RESERVED
    ensures WellFormed(Object(["x"])) && HostKey(h, Object(["x"])) != HostKey(h, Export)
    ensures PublishPriority(HostKey(h, Object(["x"]))) >= PublishPriority(HostKey(h, Export))
  {
    var p, e := PathOf(h, Object(["x"])), PathOf(h, Export);
    ReservedIsMistaken(h);
    NoSlashes();
    PathOfIsPath(h, Object(["x"]));
    PathOfIsPath(h, Export);
    LayersFollowForm(p, e);
    if Join(p) == Join(e) { JoinIsInjective(p, e); }
  }

  /** Host names are layered, all but three that the master also accepts. */
  lemma LayeredIff(h: Host)
    requires '/' !in h
    ensures Layered(h) <==> h !in RESERVED
  {
    forall a, b | WellFormed(a) && WellFormed(b)
      ensures SlaveQueue.UploadPublishPriority(HostKey(h, a)) == PublishPriority(HostKey(h, a))
      ensures SlaveQueue.UploadPublishPriority(HostKey(h, b)) == PublishPriority(HostKey(h, b))
      ensures h !in RESERVED ==> (PublishPriority(HostKey(h, a)) < PublishPriority(HostKey(h, b)) <==> Precedes(Role(a), Role(b)))
    {
      SlaveQueue.LayersAgree(HostKey(h, a));
      SlaveQueue.LayersAgree(HostKey(h, b));
      if h !in RESERVED { PairIsLayered(h, a, b); }
    }
    if h in RESERVED {
      ReservedLayers(h);
      assert Precedes(Role(Object(["x"])), Role(Export));
    }
  }

  // ----- publication over runs -----

  /** While one of a host's keys is being sent, whatever of lower role was enqueued no later and not asked
      about since is in the backend with its bytes. */
  lemma LowerRoleIsPublished(s: State, run: seq<Action>, h: Host, a: Form, b: Form, bytes: Bytes, at: nat)
    requires '/' !in h && h !in RESERVED && WellFormed(a) && WellFormed(b) && Precedes(Role(a), Role(b))
    requires Inv(s) && Legal(s, run) && Unrequested(run, HostKey(h, a))
    requires var t, r := After(s, run), HostKey(h, b);
             && r in t.flights && t.flights[r].item.op.Put? && t.flights[r].item.updatedAt < ScanStart(t)
             && Enqueued(s, HostKey(h, a), bytes, t.flights[r].item.host, at) && at <= t.flights[r].item.updatedAt
    ensures Lookup(After(s, run).backend, HostKey(h, a)) == Some(bytes)
  {
    PairIsLayered(h, a, b);
    RunKeeps(s, run);
    FlightIsKeyed(After(s, run), HostKey(h, b));
    ContentPrecedesRef(s, run, HostKey(h, a), bytes, at, HostKey(h, b));
  }

  lemma FlightIsKeyed(s: State, r: Key)
    requires Inv(s) && r in s.flights
    ensures s.flights[r].item.key == r
  {
    assert KeyOk(s, r);
  }

  /** And it stays there: a published ref has its objects, its metadata and its journal. */
  lemma PublishedRefHasContent(s: State, sent: seq<Action>, later: seq<Action>, h: Host, a: Form, b: Form, bytes: Bytes, at: nat)
    requires '/' !in h && h !in RESERVED && WellFormed(a) && WellFormed(b) && Precedes(Role(a), Role(b))
    requires Inv(s) && Legal(s, sent) && Legal(After(s, sent), later)
    requires Unrequested(sent, HostKey(h, a)) && Unrequested(later, HostKey(h, a))
    requires var t, r := After(s, sent), HostKey(h, b);
             && r in t.flights && t.flights[r].item.op.Put? && t.flights[r].item.updatedAt < ScanStart(t)
             && Enqueued(s, HostKey(h, a), bytes, t.flights[r].item.host, at) && at <= t.flights[r].item.updatedAt
    ensures Lookup(After(After(s, sent), later).backend, HostKey(h, a)) == Some(bytes)
  {
    PairIsLayered(h, a, b);
    RunKeeps(s, sent);
    FlightIsKeyed(After(s, sent), HostKey(h, b));
    RefImpliesContent(s, sent, later, HostKey(h, a), bytes, at, HostKey(h, b));
  }

  // ----- which entries wait for which -----

  /** Whenever a write of `r` by host `g`, enqueued before its scan began, is being sent, no write of `c` by host
      `h` that was enqueued no later is still waiting. */
  ghost predicate Separated(i: State, c: Key, h: Host, r: Key, g: Host) {
    forall t :: Reaches(i, t) && SendsPut(t, r, g) && WaitsPut(t, c, h) ==> t.flights[r].item.updatedAt < t.disk.queue[c].updatedAt
  }

  predicate SendsPut(t: State, r: Key, g: Host) {
    && r in t.flights && t.flights[r].item.op.Put? && t.flights[r].item.host == g
    && t.flights[r].item.updatedAt < ScanStart(t)
  }

  predicate WaitsPut(t: State, c: Key, h: Host) {
    c in t.disk.queue && t.disk.queue[c].op.Put? && t.disk.queue[c].host == h
  }

  /** Over all runs of a fresh master, two writes are kept in order exactly when they are of one host and the
      forms of their keys say so. */
  lemma SeparatedIff(i: State, content: PutRequest, ref: PutRequest)
    requires Init(i) && HasRoom(i.config, content, ref) && content.key != ref.key
    requires ContentAddressed(Lookup(i.config.canon, content.key), content)
    requires ContentAddressed(Lookup(i.config.canon, ref.key), ref)
    ensures Separated(i, content.key, content.host, ref.key, ref.host) <==>
            content.host == ref.host && Precedes(KindOf(Split(content.key)), KindOf(Split(ref.key)))
  {
    JoinOfSplit(content.key);
    JoinOfSplit(ref.key);
    LayersFollowForm(Split(content.key), Split(ref.key));
    if content.host == ref.host && PublishPriority(content.key) < PublishPriority(ref.key) {
      LowerLayerIsSeparated(i, content.key, ref.key, ref.host);
    } else {
      var t := UnrelatedOvertakes(i, content, ref);
    }
  }

  lemma LowerLayerIsSeparated(i: State, c: Key, r: Key, h: Host)
    requires Init(i) && PublishPriority(c) < PublishPriority(r)
    ensures Separated(i, c, h, r, h)
  {
    forall t | Reaches(i, t) && SendsPut(t, r, h) && WaitsPut(t, c, h)
      ensures t.flights[r].item.updatedAt < t.disk.queue[c].updatedAt
    {
      var run :| Legal(i, run) && After(i, run) == t;
      InitInv(i);
      RunKeeps(i, run);
      assert KeyOk(t, c) && KeyOk(t, r);
      PublicationOrder(t, r, c);
    }
  }

  /** Two new writes, `later` time after one another, and a scan after both. */
  lemma TwoWrites(i: State, a: PutRequest, b: PutRequest, later: nat) returns (s: State)
    requires Init(i) && HasRoom(i.config, a, b) && a.key != b.key
    requires ContentAddressed(Lookup(i.config.canon, a.key), a) && ContentAddressed(Lookup(i.config.canon, b.key), b)
    ensures Reaches(i, s) && s.worker == Idle && s.flights == map[] && s.lock == Free && s.clock == i.clock + later + 1
    ensures s.disk.queue.Keys == {a.key, b.key} && s.disk.store == map[a.key := a.bytes, b.key := b.bytes]
    ensures IsEntry(s.disk.queue[a.key], a, i.clock) && IsEntry(s.disk.queue[b.key], b, i.clock + later)
  {
    ReachesItself(i);
    NewPutReaches(i, i, a);
    var s1 := AfterNewPut(i, a);
    TimePasses(i, s1, s1.clock + later);
    var s2 := s1.(clock := s1.clock + later);
    NewPutReaches(i, s2, b);
    var s3 := AfterNewPut(s2, b);
    TimePasses(i, s3, s3.clock + 1);
    s := s3.(clock := s3.clock + 1);
  }

  predicate IsEntry(item: QueueItem, put: PutRequest, at: nat) {
    item.key == put.key && item.host == put.host && item.op == PutOperation(put) && item.updatedAt == at
  }

  /** Two writes that layers and hosts do not relate may be sent in either order. */
  lemma UnrelatedOvertakes(i: State, content: PutRequest, ref: PutRequest) returns (t: State)
    requires Init(i) && HasRoom(i.config, content, ref) && content.key != ref.key
    requires ContentAddressed(Lookup(i.config.canon, content.key), content)
    requires ContentAddressed(Lookup(i.config.canon, ref.key), ref)
    requires content.host != ref.host || PublishPriority(content.key) >= PublishPriority(ref.key)
    ensures Reaches(i, t) && !Separated(i, content.key, content.host, ref.key, ref.host)
  {
    var s := TwoWrites(i, content, ref, 0);
    t := UnblockedIsSent(i, s, ref);
    assert SendsPut(t, ref.key, ref.host) && WaitsPut(t, content.key, content.host);
  }

  /** A host with a reserved name publishes out of order: an object and the export that lists it, enqueued in
      that order, may be sent the other way round. */
  lemma ReservedOvertakes(i: State, h: Host)
    requires Init(i) && h in RESERVED
    requires HostKey(h, Object(["x"])) !in i.config.canon && HostKey(h, Export) !in i.config.canon
    ensures !Separated(i, HostKey(h, Object(["x"])), h, HostKey(h, Export), h)
  {
    ReservedLayers(h);
    var t := UnrelatedOvertakes(i, PutRequest(h, HostKey(h, Object(["x"])), [], false), PutRequest(h, HostKey(h, Export), [], false));
  }

  /** Nothing waits for what was enqueued after it, whatever the layers. */
  lemma YoungerHoldsNothingBack(i: State, content: PutRequest, ref: PutRequest, later: nat) returns (t: State)
    requires Init(i) && HasRoom(i.config, ref, content) && content.key != ref.key && later > 0
    requires ContentAddressed(Lookup(i.config.canon, content.key), content)
    requires ContentAddressed(Lookup(i.config.canon, ref.key), ref)
    ensures Reaches(i, t) && SendsPut(t, ref.key, ref.host) && WaitsPut(t, content.key, content.host)
    ensures t.disk.queue[content.key].updatedAt == t.flights[ref.key].item.updatedAt + later < ScanStart(t)
  {
    var s := TwoWrites(i, ref, content, later);
    t := UnblockedIsSent(i, s, ref);
  }

  lemma UnblockedIsSent(i: State, s: State, put: PutRequest) returns (t: State)
    requires Reaches(i, s) && s.worker.Idle? && s.flights == map[] && s.lock.Free?
    requires Lookup(s.disk.store, put.key) == Some(put.bytes)
    requires put.key in s.disk.queue && s.disk.queue[put.key].op == PutOperation(put) && !BlockedIn(s.disk.queue, s.disk.queue[put.key])
    ensures Reaches(i, t) && t.disk == s.disk && ScanStart(t) == s.clock
    ensures put.key in t.flights && t.flights[put.key].item == s.disk.queue[put.key]
  {
    ScanReaches(i, s);
    var u := s.(worker := Uploading(s.clock, s.disk.queue, {}));
    ReachesNext(i, u, Capture(put.key));
    t := Next(u, Capture(put.key));
  }

  /** While a Delete of `k` by host `g` is carried out in the backend, no write of `c` by host `h` that was
      enqueued before the scan is still waiting. */
  ghost predicate DeletesAfter(i: State, c: Key, h: Host, k: Key, g: Host) {
    forall t :: Reaches(i, t) && SendsDelete(t, k, g) && WaitsPut(t, c, h) ==> ScanStart(t) <= t.disk.queue[c].updatedAt
  }

  predicate SendsDelete(t: State, k: Key, g: Host) {
    k in t.flights && t.flights[k].item.op.Delete? && t.flights[k].item.host == g
  }

  /** A host's Deletes wait for all of its own writes, whatever their keys, and for nobody else's. */
  lemma DeletesAfterIff(i: State, put: PutRequest, k: Key, g: Host)
    requires Init(i) && HasRoom(i.config, put, put.(bytes := [])) && put.key != k
    requires ContentAddressed(Lookup(i.config.canon, put.key), put)
    ensures DeletesAfter(i, put.key, put.host, k, g) <==> put.host == g
  {
    if put.host == g {
      forall t | Reaches(i, t) && SendsDelete(t, k, g) && WaitsPut(t, put.key, g)
        ensures ScanStart(t) <= t.disk.queue[put.key].updatedAt
      {
        var run :| Legal(i, run) && After(i, run) == t;
        InitInv(i);
        RunKeeps(i, run);
        OvertakenOnlyByLateEntries(t, k, put.key);
      }
    } else {
      var s := WriteThenDelete(i, put, k, g);
      var t := DeleteOvertakes(i, s, put.key, k);
      assert SendsDelete(t, k, g) && WaitsPut(t, put.key, put.host);
    }
  }

  lemma NewDelete(s: State, k: Key, g: Host)
    requires s.lock.Free? && k !in s.disk.queue
    ensures Enabled(s.(lock := Removing(g, k)), Advance)
    ensures AdvanceLock(s.(lock := Removing(g, k))) ==
            s.(disk := s.disk.(queue := s.disk.queue[k := QueueItem(s.nextGeneration, k, g, Operation.Delete, s.clock, s.clock, 0, None)]),
               nextGeneration := s.nextGeneration + 1, promised := s.promised[k := Absent])
  {
  }

  lemma WriteThenDelete(i: State, put: PutRequest, k: Key, g: Host) returns (s: State)
    requires Init(i) && HasRoom(i.config, put, put.(bytes := [])) && put.key != k
    requires ContentAddressed(Lookup(i.config.canon, put.key), put)
    ensures Reaches(i, s) && s.worker == Idle && s.flights == map[] && s.lock == Free && s.clock == i.clock + 1
    ensures s.disk.queue.Keys == {put.key, k} && IsEntry(s.disk.queue[put.key], put, i.clock)
    ensures s.disk.queue[k].op.Delete? && s.disk.queue[k].host == g
  {
    ReachesItself(i);
    NewPutReaches(i, i, put);
    var s1 := AfterNewPut(i, put);
    DeleteBegins(i, s1, k, g);
    NewDelete(s1, k, g);
    ReachesNext(i, s1.(lock := Removing(g, k)), Advance);
    var s3 := AdvanceLock(s1.(lock := Removing(g, k)));
    TimePasses(i, s3, s3.clock + 1);
    s := s3.(clock := s3.clock + 1);
  }

  lemma DeleteOvertakes(i: State, s: State, c: Key, k: Key) returns (t: State)
    requires Reaches(i, s) && s.worker.Idle? && s.flights == map[] && s.lock.Free?
    requires c != k && s.disk.queue.Keys == {c, k} && s.disk.queue[k].op.Delete? && s.disk.queue[c].host != s.disk.queue[k].host
    ensures Reaches(i, t) && t.disk == s.disk && ScanStart(t) == s.clock
    ensures k in t.flights && t.flights[k].item == s.disk.queue[k]
  {
    ScanReaches(i, s);
    var u := s.(worker := Uploading(s.clock, s.disk.queue, {}));
    ReachesNext(i, u, EndUploads);
    var v := s.(worker := Worker.Deleting(s.clock, s.disk.queue));
    assert !BlockedIn(s.disk.queue, s.disk.queue[k]);
    ReachesNext(i, v, Capture(k));
    t := Next(v, Capture(k));
  }
}
