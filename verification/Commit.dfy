/** What `Container.commit` does under its lease: building an image and recording it; and why the
    collector never gets at the parts of that image. */
module Commit {
  import opened Wrappers
  import opened Python
  import opened Json
  import opened Digests
  import opened Containerd
  import opened Manifests
  import opened Images
  import opened Snapshots

  datatype Container = Container(
    architecture: string, os: string, id: string, image: string, snapshotter: string, snapshot: Snapshot)

  // ---------------------------------------------------------------- the documents of a commit

  function Strings(ids: seq<string>): seq<Json> {
    seq(|ids|, i requires 0 <= i < |ids| => Str(ids[i]))
  }

  function Ids(diffs: seq<SnapshotDiff>): (ids: seq<string>)
    ensures |ids| == |diffs| && forall i | 0 <= i < |ids| :: ids[i] == diffs[i].id
  {
    seq(|diffs|, i requires 0 <= i < |diffs| => diffs[i].id)
  }

  function LayerNames(diffs: seq<SnapshotDiff>): (names: seq<string>)
    ensures |names| == |diffs| && forall i | 0 <= i < |names| :: names[i] == diffs[i].descriptor.digest
  {
    seq(|diffs|, i requires 0 <= i < |diffs| => diffs[i].descriptor.digest)
  }

  function Primitives(diffs: seq<SnapshotDiff>): (layers: seq<Json>)
    ensures |layers| == |diffs| && forall i | 0 <= i < |layers| :: layers[i] == diffs[i].descriptor.ToPrimitive()
  {
    seq(|diffs|, i requires 0 <= i < |diffs| => diffs[i].descriptor.ToPrimitive())
  }

  /** `_create_commit_image_config`, for a clock that reads `created`. */
  function CommitConfig(c: Container, config: Json, created: string, diffs: seq<SnapshotDiff>): Json {
    Obj([
      ("architecture", Str(c.architecture)),
      ("os", Str(c.os)),
      ("config", config),
      ("rootfs", RootFs(Ids(diffs))),
      ("author", Str("")),
      ("created", Str(created))])
  }

  function RootFs(ids: seq<string>): Json {
    Obj([("type", Str("layers")), ("diff_ids", Arr(Strings(ids)))])
  }

  /** `_create_commit_image_manifest`. */
  function CommitManifest(c: Container, config: Json, created: string, diffs: seq<SnapshotDiff>): Json {
    Obj([
      ("schemaVersion", Num(2)),
      ("mediaType", Str(DOCKER_MANIFEST_V2)),
      ("config", CommitConfig(c, config, created, diffs)),
      ("layers", Arr(Primitives(diffs)))])
  }

  /** The documents a commit stores: its config, and its manifest. */
  function CommitDocuments(lib: Lib, c: Container, config: Json, created: string, diffs: seq<SnapshotDiff>): Documents {
    var image := CommitManifest(c, config, created, diffs);
    var doc := CommitConfig(c, config, created, diffs);
    Documents(doc, Obj([
      ("schemaVersion", Num(2)),
      ("mediaType", Str(DOCKER_MANIFEST_V2)),
      ("config", Descriptor.FromData(lib, DOCKER_IMAGE_CONFIG_V1, doc).ToPrimitive()),
      ("layers", Arr(Primitives(diffs)))]))
  }

  lemma ManifestKeys()
    ensures "schemaVersion" != "mediaType" && "schemaVersion" != "MediaType" && "schemaVersion" != "config"
    ensures "schemaVersion" != "layers" && "mediaType" != "config" && "mediaType" != "layers" && "config" != "layers"
  {
    assert "schemaVersion"[0] == 's' && "mediaType"[0] == 'm' && "MediaType"[0] == 'M';
    assert "config"[0] == 'c' && "layers"[0] == 'l';
  }

  /** Looking a key up in a document of four fields. */
  lemma LookupFour(a: (string, Json), b: (string, Json), c: (string, Json), d: (string, Json), key: string)
    ensures var fields := [a, b, c, d];
      Lookup(fields, key) ==
        if a.0 == key then Some(a.1) else if b.0 == key then Some(b.1)
        else if c.0 == key then Some(c.1) else if d.0 == key then Some(d.1) else None
    ensures var fields := [a, b, c, d];
      a.0 != key && b.0 != key && c.0 == key ==> forall v :: Set(fields, key, v) == [a, b, (key, v), d]
  {
    var fields := [a, b, c, d];
    assert fields[1..] == [b, c, d] && [b, c, d][1..] == [c, d] && [c, d][1..] == [d] && [d][1..] == [];
    assert Lookup([d], key) == if d.0 == key then Some(d.1) else None;
    assert Lookup([c, d], key) == if c.0 == key then Some(c.1) else Lookup([d], key);
    assert Lookup([b, c, d], key) == if b.0 == key then Some(b.1) else Lookup([c, d], key);
    if a.0 != key && b.0 != key && c.0 == key {
      forall v
        ensures Set(fields, key, v) == [a, b, (key, v), d]
      {
        assert Set([c, d], key, v) == [(key, v), d];
        assert Set([b, c, d], key, v) == [b] + [(key, v), d];
      }
    }
  }

  lemma {:induction false} PrimitivesDigests(diffs: seq<SnapshotDiff>)
    ensures LayerDigests(Primitives(diffs)) == Ok(LayerNames(diffs))
    decreases |diffs|
  {
    var n := |diffs| - 1;
    if n >= 0 {
      assert Primitives(diffs)[..n] == Primitives(diffs[..n]);
      PrimitivesDigests(diffs[..n]);
      ParseToPrimitive(diffs[n].descriptor);
      assert LayerNames(diffs) == LayerNames(diffs[..n]) + [diffs[n].descriptor.digest];
    }
  }

  /** The commit's documents are what writing its manifest writes, and its layers are the diffs'. */
  lemma CommitDocumentsAre(lib: Lib, c: Container, config: Json, created: string, diffs: seq<SnapshotDiff>)
    ensures var image := CommitManifest(c, config, created, diffs);
      && IsManifest(image)
      && DocumentsOf(lib, image) == Ok(CommitDocuments(lib, c, config, created, diffs))
      && ManifestLayers(CommitDocuments(lib, c, config, created, diffs).manifest) == Ok(LayerNames(diffs))
  {
    var image := CommitManifest(c, config, created, diffs);
    var docs := CommitDocuments(lib, c, config, created, diffs);
    ManifestKeys();
    var f := image.fields;
    LookupFour(f[0], f[1], f[2], f[3], "mediaType");
    LookupFour(f[0], f[1], f[2], f[3], "config");
    GetEither(f, "mediaType", "MediaType");
    GetEither(f, "config", "Config");
    var g := docs.manifest.fields;
    LookupFour(g[0], g[1], g[2], g[3], "layers");
    PrimitivesDigests(diffs);
    assert f == [f[0], f[1], f[2], f[3]] && g == [g[0], g[1], g[2], g[3]];
  }

  // ---------------------------------------------------------------- a recorded image

  /** The digests of everything an image is made of. */
  function Parts(lib: Lib, docs: Documents, layers: seq<string>): set<string> {
    {docs.ConfigDescriptor(lib).digest, docs.ManifestDescriptor(lib).digest} + set i | 0 <= i < |layers| :: layers[i]
  }

  /** The record points at the stored manifest, whose labels name the stored config and layers. */
  ghost predicate Recorded(lib: Lib, w: World, name: string, docs: Documents, layers: seq<string>) {
    && name in w.images && w.images[name] == docs.ManifestDescriptor(lib)
    && Holds(lib, w.content, docs)
    && IsLabelling(w.content[docs.ManifestDescriptor(lib).digest].labels, docs.ConfigDescriptor(lib).digest, layers)
    && forall i | 0 <= i < |layers| :: layers[i] in w.content
  }

  /** The records are as before, or one names the new image, which is all stored. */
  ghost predicate RecordSafe(lib: Lib, before: map<string, Descriptor>, w: World, name: string, docs: Documents,
                             layers: seq<string>) {
    || w.images == before
    || (w.images == before[name := docs.ManifestDescriptor(lib)] && Recorded(lib, w, name, docs, layers))
  }

  /** A stretch of plain calls under a lease in which, at every moment, the lease keeps what it held and the
      records are safe; and a record that was put stays. */
  ghost predicate Guarding(lib: Lib, a: Past, b: Past, lease: LeaseId, name: string, docs: Documents,
                           layers: seq<string>) {
    && a.log <= b.log && (forall i | |a.log| <= i < |b.log| :: Plain(b.log[i].call))
    && |a.history| > 0 && a.history <= b.history
    && Kept(a.world, b.world, lease)
    && (forall i, j | |a.history| - 1 <= i <= j < |b.history| :: Kept(b.history[i], b.history[j], lease))
    && (forall j | |a.history| - 1 <= j < |b.history| :: RecordSafe(lib, a.world.images, b.history[j], name, docs,
                                                                    layers))
    && forall i, j | |a.history| - 1 <= i <= j < |b.history| :: RecordStays(a.world, b.history[i], b.history[j])
  }

  /** Once a record differs from before, it stays as it is. */
  ghost predicate RecordStays(before: World, w: World, v: World) {
    w.images != before.images ==> v.images == w.images
  }

  lemma WorkingGuards(lib: Lib, a: Past, b: Past, lease: LeaseId, name: string, docs: Documents, layers: seq<string>)
    requires Valid(lib, a) && Working(a, b, lease)
    ensures Guarding(lib, a, b, lease, name, docs, layers)
  {
    var s := |a.history| - 1;
    assert b.history[s] == a.world;
    forall i, j | s <= i <= j < |b.history|
      ensures Kept(b.history[i], b.history[j], lease) && b.history[j].images == a.world.images
      ensures RecordStays(a.world, b.history[i], b.history[j])
    {
      assert Related(Keeping(lease), b.history[s], b.history[j]);
      assert Related(Keeping(lease), b.history[i], b.history[j]);
      assert Related(Keeping(lease), b.history[s], b.history[i]);
    }
    forall j | s <= j < |b.history|
      ensures RecordSafe(lib, a.world.images, b.history[j], name, docs, layers)
    {
      assert Related(Keeping(lease), b.history[s], b.history[j]);
    }
  }

  /** What was written under the lease is recorded as soon as the record is put. */
  lemma RegisteredIsSafe(lib: Lib, w: World, v: World, lease: LeaseId, name: string, docs: Documents,
                         layers: seq<string>)
    requires WrittenAs(lib, w, lease, docs, layers) && forall i | 0 <= i < |layers| :: layers[i] in w.leases[lease]
    requires Related(Recording(lease, name, docs.ManifestDescriptor(lib)), w, v)
    ensures RecordSafe(lib, w.images, v, name, docs, layers) && WrittenAs(lib, v, lease, docs, layers)
    ensures forall labels :: Labelled(w, docs.ConfigDescriptor(lib).digest, labels) ==>
      Labelled(v, docs.ConfigDescriptor(lib).digest, labels)
    ensures forall i | 0 <= i < |layers| ::
      && layers[i] in w.content && layers[i] in v.content && v.content[layers[i]] == w.content[layers[i]]
      && layers[i] in v.leases[lease]
  {
  }

  lemma RegisteringGuards(lib: Lib, a: Past, b: Past, lease: LeaseId, name: string, docs: Documents,
                          layers: seq<string>)
    requires Valid(lib, a) && Registering(a, b, lease, name, docs.ManifestDescriptor(lib))
    requires WrittenAs(lib, a.world, lease, docs, layers)
    requires forall i | 0 <= i < |layers| :: layers[i] in a.world.leases[lease]
    ensures Guarding(lib, a, b, lease, name, docs, layers)
  {
    hide WrittenAs, Recorded, RecordSafe;
    var rel, s := Recording(lease, name, docs.ManifestDescriptor(lib)), |a.history| - 1;
    assert b.history[s] == a.world;
    forall i, j | s <= i <= j < |b.history|
      ensures Kept(b.history[i], b.history[j], lease) && RecordStays(a.world, b.history[i], b.history[j])
    {
      assert Related(rel, b.history[i], b.history[j]) && Related(rel, b.history[s], b.history[i]);
    }
    forall j | s <= j < |b.history|
      ensures RecordSafe(lib, a.world.images, b.history[j], name, docs, layers)
    {
      assert Related(rel, b.history[s], b.history[j]);
      RegisteredIsSafe(lib, a.world, b.history[j], lease, name, docs, layers);
    }
  }

  lemma GuardingAfterWork(lib: Lib, a: Past, m: Past, b: Past, lease: LeaseId, name: string, docs: Documents,
                          layers: seq<string>)
    requires Valid(lib, a) && Valid(lib, m) && Working(a, m, lease) && Guarding(lib, m, b, lease, name, docs, layers)
    ensures Guarding(lib, a, b, lease, name, docs, layers)
  {
    hide RecordSafe, Kept;
    WorkingGuards(lib, a, m, lease, name, docs, layers);
    var s, k := |a.history| - 1, |m.history| - 1;
    assert b.history[k] == m.world && m.history[k] == m.world;
    KeptTransitive(a.world, m.world, b.world, lease);
    forall i, j | s <= i <= j < |b.history|
      ensures Kept(b.history[i], b.history[j], lease) && RecordStays(a.world, b.history[i], b.history[j])
    {
      if i < k {
        assert b.history[i] == m.history[i];
        assert Related(Keeping(lease), m.history[s], m.history[i]);
        assert Kept(m.history[i], m.history[if j < k then j else k], lease);
        if j < k {
          assert b.history[j] == m.history[j];
        } else {
          assert Kept(b.history[k], b.history[j], lease);
          KeptTransitive(b.history[i], b.history[k], b.history[j], lease);
        }
      }
    }
    forall j | s <= j < |b.history|
      ensures RecordSafe(lib, a.world.images, b.history[j], name, docs, layers)
    {
      if j < k {
        assert b.history[j] == m.history[j];
      }
    }
  }

  // ---------------------------------------------------------------- building the image under a lease

  /** The runtime configuration a commit takes over from the container's image. */
  ghost function ParentConfig(lib: Lib, content: Content, c: Container, digest: string,
                              rank: string -> nat): Result<Json, Error>
    requires Acyclic(lib, content, c.architecture, c.os, rank)
  {
    match ReadImage(lib, content, c.architecture, c.os, rank, digest)
    case Err(e) => Err(e)
    case Ok(image) => Inherited(image)
  }

  function Inherited(image: Json): Result<Json, Error> {
    match Config(image)
    case Err(e) => Err(BadData(e))
    case Ok(document) =>
      match Config(document)
      case Err(e) => Err(BadData(e))
      case Ok(config) => Ok(config)
  }

  /** A commit takes over what is under "config" in the document under the image's "config". */
  lemma InheritedIs(image: Json, config: Json)
    ensures Inherited(image) == Ok(config) <==>
      exists document :: Field(image, "config", "Config", document) && Field(document, "config", "Config", config)
  {
    hide Field;
    FieldIs(image, "config", "Config");
    if Config(image).Ok? {
      FieldIs(Config(image).value, "config", "Config");
    }
  }

  /** Each layer is stored: with its own bytes, or with bytes that were there before under its digest. */
  ghost predicate LayersStored(before: Content, after: Content, layers: seq<string>, datas: set<Bytes>) {
    forall i | 0 <= i < |layers| ::
      && layers[i] in after
      && (after[layers[i]].data in datas || (layers[i] in before && after[layers[i]].data == before[layers[i]].data))
  }

  /** What the container's own image has to say about `r`. */
  ghost predicate FromParent(lib: Lib, before: World, c: Container, rank: string -> nat, r: Result<Json, Error>)
    requires Acyclic(lib, before.content, c.architecture, c.os, rank)
  {
    c.image in before.images && ParentConfig(lib, before.content, c, before.images[c.image].digest, rank) == r
  }

  /** The container's image is there, and what is read of it stays. */
  ghost predicate ParentStays(lib: Lib, schedule: nat -> Move, w: World, c: Container, rank: string -> nat)
    requires Acyclic(lib, w.content, c.architecture, c.os, rank)
  {
    c.image in w.images && ImageStays(lib, schedule, w, c.architecture, c.os, rank, w.images[c.image].digest)
  }

  lemma ParentStaysQuiet(lib: Lib, schedule: nat -> Move, w: World, c: Container, rank: string -> nat)
    requires Acyclic(lib, w.content, c.architecture, c.os, rank)
    ensures ParentStays(lib, schedule, w, c, rank) ==> Quiet(schedule)
    ensures Calm(schedule) ==> Quiet(schedule) && (c.image in w.images ==> ParentStays(lib, schedule, w, c, rank))
  {
    hide ImageStays, Acyclic, Calm, Quiet;
    if Calm(schedule) {
      CalmIsQuiet(schedule);
    }
    if c.image in w.images {
      StayingIsQuiet(lib, schedule, w, c.architecture, c.os, rank, w.images[c.image].digest);
      if Calm(schedule) {
        CalmImageStays(lib, schedule, w, c.architecture, c.os, rank, w.images[c.image].digest);
      }
    }
  }

  method ReadParentConfig(server: Server, c: Container, lease: LeaseId, ghost rank: string -> nat)
      returns (r: Result<Json, Error>)
    requires Valid(server.lib, server.State()) && lease in server.world.leases
    requires Acyclic(server.lib, server.world.content, c.architecture, c.os, rank)
    modifies server
    ensures Valid(server.lib, server.State()) && Working(old(server.State()), server.State(), lease)
    ensures server.world == old(server.world).(content := server.world.content)
    ensures Drawn(server.schedule, old(server.world.content), server.world.content, {})
    ensures r.Ok? ==> c.image in old(server.world.images)
    ensures c.image in old(server.world.images) ==>
      FromStore(ParentStays(server.lib, server.schedule, old(server.world), c, rank), r, server.log,
        ParentConfig(server.lib, old(server.world.content), c, old(server.world.images)[c.image].digest, rank))
    ensures c.image !in old(server.world.images) ==>
      r.Err? && r.error.RpcFailed? && CallFailed<()>(Err(r.error.code), server.log)
    ensures Still(server.schedule, old(server.world), server.world)
  {
    hide Valid, Working, Reading, ReadImage, Acyclic, GetValue, Calm, ImageStays;
    ghost var start := server.State();
    var image := ReadByName(server, c.image, c.architecture, c.os, rank);
    ReadingWorks(server.lib, start, server.State(), lease);
    ReadingShrinks(start, server.State());
    if image.Err? {
      return Err(image.error);
    }
    return Inherited(image.value);
  }

  /** The stored config has exactly one label, which refers to the snapshot named by the chain digest of all layers. */
  ghost predicate ChainLabelled(lib: Lib, w: World, c: Container, docs: Documents, diffs: seq<SnapshotDiff>) {
    && |diffs| > 0
    && var labels := map["containerd.io/gc.ref.snapshot." + c.snapshotter := ChainId(lib, Ids(diffs))];
    && Labelled(w, docs.ConfigDescriptor(lib).digest, labels)
  }

  /** What building and recording an image leaves behind: the diffs of the container's whole lineage,
      the documents made of them, stored and recorded, and every part of it under the lease. */
  ghost predicate Built(lib: Lib, before: World, after: World, c: Container, name: string, created: string,
                        lease: LeaseId, rank: string -> nat, config: Json, diffs: seq<SnapshotDiff>) {
    && Snapshots.Complete(lib, before.snapshots, rank, c.snapshot.key, diffs)
    && after.snapshots == before.snapshots
    && var docs := CommitDocuments(lib, c, config, created, diffs);
    && after.images == before.images[name := docs.ManifestDescriptor(lib)]
    && WrittenAs(lib, after, lease, docs, LayerNames(diffs))
    && (forall i | 0 <= i < |diffs| :: LayerNames(diffs)[i] in after.leases[lease])
    && ChainLabelled(lib, after, c, docs, diffs)
    && LayersStored(before.content, after.content, LayerNames(diffs),
                    LayerSet(lib, before.snapshots, Lineage(before.snapshots, rank, c.snapshot.key)))
  }

  /** Layers drawn into the store and held stay as they were drawn. */
  lemma HeldLayersStored(schedule: nat -> Move, before: Content, a: World, b: World, lease: LeaseId,
                         layers: seq<string>, datas: set<Bytes>)
    requires Drawn(schedule, before, a.content, datas) && Kept(a, b, lease) && a.leases[lease] <= a.content.Keys
    requires forall i | 0 <= i < |layers| :: layers[i] in a.leases[lease]
    ensures LayersStored(before, b.content, layers, datas)
    ensures forall i | 0 <= i < |layers| :: layers[i] in b.leases[lease]
  {
  }

  lemma DiffsAreHeld(w: World, lease: LeaseId, diffs: seq<SnapshotDiff>)
    requires lease in w.leases && forall d | d in diffs :: d.descriptor.digest in w.leases[lease]
    ensures forall i | 0 <= i < |LayerNames(diffs)| :: LayerNames(diffs)[i] in w.leases[lease]
  {
    forall i | 0 <= i < |diffs|
      ensures LayerNames(diffs)[i] in w.leases[lease]
    {
      assert diffs[i] in diffs;
    }
  }

  /** The digests of the layers of the snapshots in `keys`. */
  ghost function LayerDigestSet(lib: Lib, snapshots: Catalogue, keys: seq<string>): set<string> {
    set k | k in keys && k in snapshots :: lib.Digest(LayerOf(lib, snapshots, k))
  }

  /** The diffs of the snapshots in `keys`, which are there. */
  ghost function LineageDiffs(lib: Lib, snapshots: Catalogue, keys: seq<string>): seq<SnapshotDiff> {
    if forall i | 0 <= i < |keys| :: keys[i] in snapshots
    then seq(|keys|, i requires 0 <= i < |keys| => DiffOf(lib, snapshots, keys[i]))
    else []
  }

  /** Nothing is in the way of a commit: the container's image has a runtime configuration, its snapshots can
      be walked, and the new image's documents are neither stored yet nor equal to one of its layers. */
  ghost predicate Ready(lib: Lib, w: World, c: Container, created: string, contentRank: string -> nat,
                        rank: string -> nat)
    requires Acyclic(lib, w.content, c.architecture, c.os, contentRank) && Founded(w.snapshots, rank)
  {
    && c.image in w.images
    && var config := ParentConfig(lib, w.content, c, w.images[c.image].digest, contentRank);
    && var keys := Lineage(w.snapshots, rank, c.snapshot.key);
    && config.Ok?
    && WalkReady(w.snapshots, keys, c.snapshot.isActive)
    && Storable(lib, w.content.Keys + LayerDigestSet(lib, w.snapshots, keys),
                CommitManifest(c, config.value, created, LineageDiffs(lib, w.snapshots, keys)))
  }

  lemma DrawnDigests(lib: Lib, schedule: nat -> Move, before: Content, v: World, snapshots: Catalogue,
                     keys: seq<string>)
    requires Sound(lib, v) && Drawn(schedule, before, v.content, LayerSet(lib, snapshots, keys))
    ensures v.content.Keys <= before.Keys + LayerDigestSet(lib, snapshots, keys)
  {
    forall d | d in v.content
      ensures d in before.Keys + LayerDigestSet(lib, snapshots, keys)
    {
      if v.content[d].data in LayerSet(lib, snapshots, keys) {
        var k :| k in keys && k in snapshots && v.content[d].data == LayerOf(lib, snapshots, k);
        assert lib.Digest(v.content[d].data) == d;
      }
    }
  }

  /** When nothing goes wrong, the walk leaves the store with what was there and the layers. */
  lemma StoreAfterWalk(lib: Lib, schedule: nat -> Move, before: Content, v: World, snapshots: Catalogue,
                       rank: string -> nat, leaf: string, lease: LeaseId, diffs: seq<SnapshotDiff>)
    requires Calm(schedule) && Sound(lib, v) && Complete(lib, snapshots, rank, leaf, diffs)
    requires Drawn(schedule, before, v.content, LayerSet(lib, snapshots, Lineage(snapshots, rank, leaf)))
    requires lease in v.leases
    requires forall i | 0 <= i < |LayerNames(diffs)| :: LayerNames(diffs)[i] in v.leases[lease]
    ensures v.content.Keys == before.Keys + LayerDigestSet(lib, snapshots, Lineage(snapshots, rank, leaf))
  {
    hide Calm, Lineage, LayerOf, Complete, LayerSet, LayerDigestSet, Founded;
    NamesAreDigests(lib, snapshots, rank, leaf, diffs);
    DrawnDigests(lib, schedule, before, v, snapshots, Lineage(snapshots, rank, leaf));
    DigestsAreHeld(lib, v.leases[lease], snapshots, Lineage(snapshots, rank, leaf), LayerNames(diffs));
  }

  lemma DigestsAreHeld(lib: Lib, held: set<string>, snapshots: Catalogue, keys: seq<string>, names: seq<string>)
    requires |keys| == |names| && forall i | 0 <= i < |names| :: names[i] in held
    requires forall i | 0 <= i < |keys| ::
      keys[i] in snapshots && names[i] == lib.Digest(LayerOf(lib, snapshots, keys[i]))
    ensures LayerDigestSet(lib, snapshots, keys) <= held
  {
    hide LayerOf;
  }

  lemma NamesAreDigests(lib: Lib, snapshots: Catalogue, rank: string -> nat, leaf: string, diffs: seq<SnapshotDiff>)
    requires Complete(lib, snapshots, rank, leaf, diffs)
    ensures Founded(snapshots, rank)
    ensures var keys := Lineage(snapshots, rank, leaf);
      && |keys| == |LayerNames(diffs)|
      && forall i | 0 <= i < |keys| ::
           keys[i] in snapshots && LayerNames(diffs)[i] == lib.Digest(LayerOf(lib, snapshots, keys[i]))
  {
    hide LayerOf;
  }

  /** When nothing goes wrong, and the parent can be read and the snapshots walked, whether a commit can go
      ahead depends on whether its documents can be stored. */
  lemma ReadyIfStorable(lib: Lib, w: World, v: World, c: Container, created: string, contentRank: string -> nat,
                        rank: string -> nat, config: Json, diffs: seq<SnapshotDiff>)
    requires Acyclic(lib, w.content, c.architecture, c.os, contentRank) && Founded(w.snapshots, rank)
    requires FromParent(lib, w, c, contentRank, Ok(config))
    requires WalkReady(w.snapshots, Lineage(w.snapshots, rank, c.snapshot.key), c.snapshot.isActive)
    requires Complete(lib, w.snapshots, rank, c.snapshot.key, diffs)
    requires v.content.Keys == w.content.Keys + LayerDigestSet(lib, w.snapshots,
                                                               Lineage(w.snapshots, rank, c.snapshot.key))
    ensures Storable(lib, v.content.Keys, CommitManifest(c, config, created, diffs))
       <==> Ready(lib, w, c, created, contentRank, rank)
  {
    hide Acyclic, ParentConfig, CommitManifest, DocumentsOf, ManifestLayers, WalkReady, DiffOf, Founded;
    var keys := Lineage(w.snapshots, rank, c.snapshot.key);
    assert diffs == LineageDiffs(lib, w.snapshots, keys);
  }

  const SNAPSHOT_REF := "containerd.io/gc.ref.snapshot."

  /** The new image is stored, recorded and held. */
  ghost predicate Stored(lib: Lib, before: World, after: World, c: Container, name: string, created: string,
                         lease: LeaseId, config: Json, diffs: seq<SnapshotDiff>) {
    var (docs, layers) := (CommitDocuments(lib, c, config, created, diffs), LayerNames(diffs));
    && after.images == before.images[name := docs.ManifestDescriptor(lib)]
    && WrittenAs(lib, after, lease, docs, layers)
    && (forall i | 0 <= i < |layers| :: layers[i] in after.leases[lease])
    && ChainLabelled(lib, after, c, docs, diffs)
  }

  /** The end of the body of `commit`: `Image.write` for the new image. */
  method StoreImage(server: Server, c: Container, name: string, created: string, lease: LeaseId, config: Json,
                    diffs: seq<SnapshotDiff>)
      returns (r: Result<(), Error>)
    requires Valid(server.lib, server.State()) && lease in server.world.leases && |diffs| > 0
    requires forall i | 0 <= i < |LayerNames(diffs)| :: LayerNames(diffs)[i] in server.world.leases[lease]
    modifies server
    ensures Valid(server.lib, server.State())
    ensures Guarding(server.lib, old(server.State()), server.State(), lease, name,
                     CommitDocuments(server.lib, c, config, created, diffs), LayerNames(diffs))
    ensures server.world.snapshots == old(server.world.snapshots)
    ensures server.world.images == old(server.world.images)
         || Stored(server.lib, old(server.world), server.world, c, name, created, lease, config, diffs)
    ensures r.Ok? ==> Stored(server.lib, old(server.world), server.world, c, name, created, lease, config, diffs)
    ensures r.Err? ==> r.error.RpcFailed? && CallFailed<()>(Err(r.error.code), server.log)
    ensures r.Err? && server.world.images != old(server.world.images) ==> RecordLost(old(server.log), server.log)
    ensures Quiet(server.schedule)
      ==> Storable(server.lib, old(server.world.content.Keys), CommitManifest(c, config, created, diffs)) ==> r.Ok?
    ensures Calm(server.schedule)
      ==> r.Ok? ==> Storable(server.lib, old(server.world.content.Keys), CommitManifest(c, config, created, diffs))
  {
    hide Valid, Working, Registering, Guarding, CommitDocuments, CommitManifest, WrittenAs, DocumentsOf,
      ManifestLayers, WriteFailed, Calm, Quiet, Storable;
    var lib := server.lib;
    ghost var start := server.State();
    ghost var docs, layers := CommitDocuments(lib, c, config, created, diffs), LayerNames(diffs);
    var image := CommitManifest(c, config, created, diffs);
    var chain := DigestChain(lib, Ids(diffs));
    ChainIsChainId(lib, Ids(diffs));
    var labels := map[SNAPSHOT_REF + c.snapshotter := chain];
    ghost var mid;
    r, mid := WriteImage(server, name, image, labels, lease);
    CommitDocumentsAre(lib, c, config, created, diffs);
    if r.Err? {
      NeverBadData(lib, c, config, created, diffs, r.error, server.log);
    }
    WorkingKeepsHeld(start, mid, lease);
    if server.State() == mid {
      WorkingGuards(lib, start, mid, lease, name, docs, layers);
      WorkingKeepsImages(start, mid, lease);
    }
    if Put(lib, mid, server.State(), lease, name, image, labels) {
      PutGuards(lib, start, mid, server.State(), lease, name, docs, layers);
    }
  }

  lemma WorkingKeepsImages(a: Past, b: Past, lease: LeaseId)
    requires Working(a, b, lease)
    ensures b.world.images == a.world.images
  {
  }

  lemma PutGuards(lib: Lib, a: Past, m: Past, b: Past, lease: LeaseId, name: string, docs: Documents,
                  layers: seq<string>)
    requires Valid(lib, a) && Valid(lib, m) && Working(a, m, lease)
    requires Registering(m, b, lease, name, docs.ManifestDescriptor(lib)) && WrittenAs(lib, m.world, lease, docs,
                                                                                       layers)
    requires forall i | 0 <= i < |layers| :: layers[i] in m.world.leases[lease]
    ensures Guarding(lib, a, b, lease, name, docs, layers) && WrittenAs(lib, b.world, lease, docs, layers)
    ensures forall i | 0 <= i < |layers| :: layers[i] in b.world.leases[lease]
    ensures forall labels :: Labelled(m.world, docs.ConfigDescriptor(lib).digest, labels) ==>
      Labelled(b.world, docs.ConfigDescriptor(lib).digest, labels)
    ensures b.world.images == a.world.images || b.world.images == a.world.images[name := docs.ManifestDescriptor(lib)]
  {
    hide WrittenAs, Recorded, RecordSafe, Guarding;
    RegisteringGuards(lib, m, b, lease, name, docs, layers);
    GuardingAfterWork(lib, a, m, b, lease, name, docs, layers);
    RegisteredIsSafe(lib, m.world, b.world, lease, name, docs, layers);
  }

  /** The body of `commit`, between taking the lease and returning it. */
  method BuildImage(server: Server, c: Container, name: string, created: string, lease: LeaseId,
                    ghost contentRank: string -> nat, ghost rank: string -> nat)
      returns (r: Result<(), Error>, ghost config: Json, ghost diffs: seq<SnapshotDiff>)
    requires Valid(server.lib, server.State()) && lease in server.world.leases
    requires Acyclic(server.lib, server.world.content, c.architecture, c.os, contentRank)
    requires Founded(server.world.snapshots, rank)
    modifies server
    ensures Valid(server.lib, server.State())
    ensures Guarding(server.lib, old(server.State()), server.State(), lease, name,
                     CommitDocuments(server.lib, c, config, created, diffs), LayerNames(diffs))
    ensures Leftover(old(server.world.snapshots), server.world.snapshots,
                     LineageKeys(old(server.world.snapshots), rank, c.snapshot.key))
    ensures server.world.images == old(server.world.images)
         || BuiltFrom(server.lib, old(server.world), server.world, c, name, created, lease, contentRank, rank, config,
                      diffs)
    ensures r.Ok? ==>
      BuiltFrom(server.lib, old(server.world), server.world, c, name, created, lease, contentRank, rank, config, diffs)
    ensures r.Err? && r.error.RpcFailed? ==> CallFailed<()>(Err(r.error.code), server.log)
    ensures r.Err? && !r.error.RpcFailed? ==> FromParent(server.lib, old(server.world), c, contentRank, Err(r.error))
    ensures r.Err? && server.world.images != old(server.world.images) ==> RecordLost(old(server.log), server.log)
    ensures Calm(server.schedule) ==> (r.Ok? <==> Ready(server.lib, old(server.world), c, created, contentRank, rank))
    ensures ParentStays(server.lib, server.schedule, old(server.world), c, contentRank)
      ==> Ready(server.lib, old(server.world), c, created, contentRank, rank) ==> r.Ok?
  {
    hide Valid, Working, Acyclic, Founded, Complete, Drawn, LayerSet, Lineage, LineageKeys, CommitDocuments,
      CommitManifest, ParentConfig, Leftover, Ready, Calm, Quiet, Storable, WalkReady, Guarding, Stored, BuiltFrom,
      ParentStays;
    config, diffs := Null, [];
    var lib := server.lib;
    ghost var start := server.State();
    NothingLeft(server.world.snapshots, LineageKeys(server.world.snapshots, rank, c.snapshot.key));
    ParentStaysQuiet(lib, server.schedule, start.world, c, contentRank);
    ReadyNeedsAll(lib, start.world, c, created, contentRank, rank);
    var parent := ReadParentConfig(server, c, lease, contentRank);
    WorkingKeepsHeld(start, server.State(), lease);
    if parent.Err? {
      WorkingGuards(lib, start, server.State(), lease, name, CommitDocuments(lib, c, config, created, diffs),
                    LayerNames(diffs));
      r := Err(parent.error);
      return;
    }
    config := parent.value;
    ghost var s1 := server.State();
    var found := GetSnapshotDiffs(server, c.snapshot, lease, rank);
    WorkingTransitive(start, s1, server.State(), lease);
    WorkingKeepsHeld(s1, server.State(), lease);
    if found.Err? {
      WorkingGuards(lib, start, server.State(), lease, name, CommitDocuments(lib, c, config, created, diffs),
                    LayerNames(diffs));
      r := Err(RpcFailed(found.error));
      return;
    }
    diffs := found.value;
    ghost var s2 := server.State();
    ghost var layers := LayerSet(lib, start.world.snapshots, Lineage(start.world.snapshots, rank, c.snapshot.key));
    DrawnTransitive(server.schedule, start.world.content, s1.world.content, s2.world.content, {}, layers);
    assert {} + layers == layers;
    CompleteIsSome(lib, s2.world.snapshots, rank, c.snapshot.key, diffs);
    DiffsAreHeld(s2.world, lease, diffs);
    WorkingGrows(start, s2, lease);
    WalkedIsReady(lib, server.schedule, start.world, s2, c, created, lease, contentRank, rank, config, diffs);
    r := StoreImage(server, c, name, created, lease, parent.value, found.value);
    GuardingAfterWork(lib, start, s2, server.State(), lease, name, CommitDocuments(lib, c, config, created, diffs),
                      LayerNames(diffs));
    if Stored(lib, s2.world, server.world, c, name, created, lease, config, diffs) {
      StoredIsBuilt(lib, server.schedule, start.world, s2, server.State(), c, name, created, lease, contentRank, rank,
                    config, diffs);
    }
  }

  /** The image was built from the container's own image. */
  ghost predicate BuiltFrom(lib: Lib, before: World, after: World, c: Container, name: string, created: string,
                            lease: LeaseId, contentRank: string -> nat, rank: string -> nat, config: Json,
                            diffs: seq<SnapshotDiff>)
    requires Acyclic(lib, before.content, c.architecture, c.os, contentRank)
  {
    && Built(lib, before, after, c, name, created, lease, rank, config, diffs)
    && FromParent(lib, before, c, contentRank, Ok(config))
  }

  lemma ReadyNeedsAll(lib: Lib, w: World, c: Container, created: string, contentRank: string -> nat,
                      rank: string -> nat)
    requires Acyclic(lib, w.content, c.architecture, c.os, contentRank) && Founded(w.snapshots, rank)
    ensures Ready(lib, w, c, created, contentRank, rank) ==>
      && c.image in w.images && ParentConfig(lib, w.content, c, w.images[c.image].digest, contentRank).Ok?
      && WalkReady(w.snapshots, Lineage(w.snapshots, rank, c.snapshot.key), c.snapshot.isActive)
  {
    hide Storable, Acyclic, Founded, ParentConfig, WalkReady;
  }

  lemma WalkedIsReady(lib: Lib, schedule: nat -> Move, w: World, p: Past, c: Container, created: string, lease: LeaseId,
                      contentRank: string -> nat, rank: string -> nat, config: Json, diffs: seq<SnapshotDiff>)
    requires Acyclic(lib, w.content, c.architecture, c.os, contentRank) && Founded(w.snapshots, rank) && Valid(lib, p)
    requires FromParent(lib, w, c, contentRank, Ok(config))
    requires WalkReady(w.snapshots, Lineage(w.snapshots, rank, c.snapshot.key), c.snapshot.isActive)
    requires Complete(lib, w.snapshots, rank, c.snapshot.key, diffs)
    requires Drawn(schedule, w.content, p.world.content,
                   LayerSet(lib, w.snapshots, Lineage(w.snapshots, rank, c.snapshot.key)))
    requires lease in p.world.leases
    requires forall i | 0 <= i < |LayerNames(diffs)| :: LayerNames(diffs)[i] in p.world.leases[lease]
    ensures Calm(schedule) ==>
      (Storable(lib, p.world.content.Keys, CommitManifest(c, config, created, diffs))
       <==> Ready(lib, w, c, created, contentRank, rank))
    ensures Ready(lib, w, c, created, contentRank, rank) ==>
      Storable(lib, p.world.content.Keys, CommitManifest(c, config, created, diffs))
  {
    hide Acyclic, Founded, Drawn, Complete, Ready, Storable, CommitManifest, FromParent, WalkReady, Lineage, LayerSet;
    SoundNow(lib, p);
    if Calm(schedule) {
      StoreAfterWalk(lib, schedule, w.content, p.world, w.snapshots, rank, c.snapshot.key, lease, diffs);
      ReadyIfStorable(lib, w, p.world, c, created, contentRank, rank, config, diffs);
    }
    if Ready(lib, w, c, created, contentRank, rank) {
      DrawnDigests(lib, schedule, w.content, p.world, w.snapshots, Lineage(w.snapshots, rank, c.snapshot.key));
      ReadyToStore(lib, w, p.world, c, created, contentRank, rank, config, diffs);
    }
  }

  /** Documents that were new to the store and to the layers still are when part of it is gone. */
  lemma ReadyToStore(lib: Lib, w: World, v: World, c: Container, created: string, contentRank: string -> nat,
                     rank: string -> nat, config: Json, diffs: seq<SnapshotDiff>)
    requires Acyclic(lib, w.content, c.architecture, c.os, contentRank) && Founded(w.snapshots, rank)
    requires Ready(lib, w, c, created, contentRank, rank) && FromParent(lib, w, c, contentRank, Ok(config))
    requires Complete(lib, w.snapshots, rank, c.snapshot.key, diffs)
    requires v.content.Keys
      <= w.content.Keys + LayerDigestSet(lib, w.snapshots, Lineage(w.snapshots, rank, c.snapshot.key))
    ensures Storable(lib, v.content.Keys, CommitManifest(c, config, created, diffs))
  {
    hide Acyclic, ParentConfig, CommitManifest, DocumentsOf, ManifestLayers, WalkReady, DiffOf;
    assert diffs == LineageDiffs(lib, w.snapshots, Lineage(w.snapshots, rank, c.snapshot.key));
  }

  lemma StoredIsBuilt(lib: Lib, schedule: nat -> Move, w: World, m: Past, b: Past, c: Container, name: string,
                      created: string, lease: LeaseId, contentRank: string -> nat, rank: string -> nat, config: Json,
                      diffs: seq<SnapshotDiff>)
    requires Acyclic(lib, w.content, c.architecture, c.os, contentRank) && Valid(lib, m)
    requires m.world.images == w.images && m.world.snapshots == w.snapshots && b.world.snapshots == w.snapshots
    requires FromParent(lib, w, c, contentRank, Ok(config)) && Complete(lib, w.snapshots, rank, c.snapshot.key, diffs)
    requires Drawn(schedule, w.content, m.world.content,
                   LayerSet(lib, w.snapshots, Lineage(w.snapshots, rank, c.snapshot.key)))
    requires lease in m.world.leases
    requires forall i | 0 <= i < |LayerNames(diffs)| :: LayerNames(diffs)[i] in m.world.leases[lease]
    requires Guarding(lib, m, b, lease, name, CommitDocuments(lib, c, config, created, diffs), LayerNames(diffs))
    requires Stored(lib, m.world, b.world, c, name, created, lease, config, diffs)
    ensures BuiltFrom(lib, w, b.world, c, name, created, lease, contentRank, rank, config, diffs)
  {
    hide Acyclic, Drawn, CommitDocuments, FromParent, LayerSet, Lineage, WrittenAs, RecordSafe;
    SoundNow(lib, m);
    HeldLayersStored(schedule, w.content, m.world, b.world, lease, LayerNames(diffs),
                     LayerSet(lib, w.snapshots, Lineage(w.snapshots, rank, c.snapshot.key)));
  }

  lemma CompleteIsSome(lib: Lib, snapshots: Catalogue, rank: string -> nat, leaf: string, diffs: seq<SnapshotDiff>)
    requires Complete(lib, snapshots, rank, leaf, diffs)
    ensures |diffs| > 0
  {
  }

  /** The document a commit writes always has what writing reads from it. */
  lemma NeverBadData(lib: Lib, c: Container, config: Json, created: string, diffs: seq<SnapshotDiff>, error: Error,
                     log: seq<Entry>)
    requires WriteFailed(lib, CommitManifest(c, config, created, diffs), error, log)
    ensures error.RpcFailed? && CallFailed<()>(Err(error.code), log)
  {
    CommitDocumentsAre(lib, c, config, created, diffs);
  }

  // ---------------------------------------------------------------- the recorded image and the collector

  /** Records, snapshots and the parts of an image are the same in both states. */
  ghost predicate Guarded(w: World, v: World, parts: set<string>) {
    && v.images == w.images && v.snapshots == w.snapshots
    && forall d | d in parts :: d in w.content && d in v.content && v.content[d] == w.content[d]
  }

  lemma RecordedParts(lib: Lib, w: World, name: string, docs: Documents, layers: seq<string>, d: string)
    requires Recorded(lib, w, name, docs, layers) && d in Parts(lib, docs, layers)
    ensures d in w.content
    ensures
      var manifest := docs.ManifestDescriptor(lib).digest;
      d in Roots(w) || (manifest in Roots(w) && d in Refs(w.content[manifest]))
  {
    var manifest := docs.ManifestDescriptor(lib).digest;
    assert manifest in Roots(w);
    LabellingRefs(w.content[manifest], docs.ConfigDescriptor(lib).digest, layers);
  }

  /** Collecting garbage, whatever the collector picks, costs a recorded image nothing. */
  lemma CollectGuards(lib: Lib, w: World, picked: set<string>, name: string, docs: Documents, layers: seq<string>)
    requires Recorded(lib, w, name, docs, layers)
    ensures Guarded(w, Collect(w, picked), Parts(lib, docs, layers))
  {
    CollectKeepsRoots(w, picked);
    forall d | d in Parts(lib, docs, layers)
      ensures d in w.content && d in Collect(w, picked).content
    {
      RecordedParts(lib, w, name, docs, layers, d);
    }
  }

  lemma GuardedStaysRecorded(lib: Lib, w: World, v: World, name: string, docs: Documents, layers: seq<string>)
    requires Recorded(lib, w, name, docs, layers) && Guarded(w, v, Parts(lib, docs, layers))
    ensures Recorded(lib, v, name, docs, layers)
  {
    var parts := Parts(lib, docs, layers);
    assert docs.ConfigDescriptor(lib).digest in parts && docs.ManifestDescriptor(lib).digest in parts;
    forall i | 0 <= i < |layers|
      ensures layers[i] in v.content
    {
      assert layers[i] in parts;
    }
  }

  lemma GuardedTransitive(x: World, y: World, z: World, parts: set<string>)
    requires Guarded(x, y, parts) && Guarded(y, z, parts)
    ensures Guarded(x, z, parts)
  {
  }

  lemma GuardedStaysLabelled(lib: Lib, w: World, v: World, c: Container, docs: Documents, layers: seq<string>,
                             diffs: seq<SnapshotDiff>)
    requires ChainLabelled(lib, w, c, docs, diffs) && Guarded(w, v, Parts(lib, docs, layers))
    ensures ChainLabelled(lib, v, c, docs, diffs)
  {
    assert docs.ConfigDescriptor(lib).digest in Parts(lib, docs, layers);
  }

  function CollectAll(w: World, picks: seq<set<string>>): World
    decreases |picks|
  {
    if |picks| == 0 then w else CollectAll(Collect(w, picks[0]), picks[1..])
  }

  /** Once recorded, an image survives any number of collections, lease or no lease. */
  lemma {:induction false} RecordedForever(lib: Lib, w: World, picks: seq<set<string>>, name: string, docs: Documents,
                                           layers: seq<string>)
    requires Recorded(lib, w, name, docs, layers)
    ensures Recorded(lib, CollectAll(w, picks), name, docs, layers)
    ensures Guarded(w, CollectAll(w, picks), Parts(lib, docs, layers))
    decreases |picks|
  {
    if |picks| == 0 {
      CollectGuards(lib, w, {}, name, docs, layers);
    } else {
      var v := Collect(w, picks[0]);
      CollectGuards(lib, w, picks[0], name, docs, layers);
      GuardedStaysRecorded(lib, w, v, name, docs, layers);
      RecordedForever(lib, v, picks[1..], name, docs, layers);
      GuardedTransitive(w, v, CollectAll(v, picks[1..]), Parts(lib, docs, layers));
    }
  }

  /** The calls that put things back leave a recorded image alone. */
  lemma PuttingBackGuards(lib: Lib, schedule: nat -> Move, p: Past, call: Call, name: string, docs: Documents,
                          layers: seq<string>)
    requires call.DeleteLease? || call.ResumeTask?
    requires Recorded(lib, p.world, name, docs, layers)
    ensures var q := Called(lib, schedule, p, call);
      && Guarded(p.world, Collect(p.world, schedule(p.clock).picked), Parts(lib, docs, layers))
      && Guarded(p.world, q.world, Parts(lib, docs, layers))
  {
    CollectGuards(lib, p.world, schedule(p.clock).picked, name, docs, layers);
  }

  /** A built image is recorded as soon as it is built. */
  lemma BuiltIsRecorded(lib: Lib, before: World, after: World, c: Container, name: string, created: string,
                        lease: LeaseId, rank: string -> nat, config: Json, diffs: seq<SnapshotDiff>)
    requires Built(lib, before, after, c, name, created, lease, rank, config, diffs)
    ensures Recorded(lib, after, name, CommitDocuments(lib, c, config, created, diffs), LayerNames(diffs))
  {
    hide CommitDocuments;
  }

  // ---------------------------------------------------------------- nothing is lost on the way

  predicate HoldsOne(w: World, lease: LeaseId, d: string) {
    lease in w.leases && d in w.leases[lease]
  }

  ghost predicate HoldsAll(w: World, lease: LeaseId, parts: set<string>) {
    forall d | d in parts :: HoldsOne(w, lease, d)
  }

  /** A run, state by state: as long as the lease is there it keeps what it held, all of it stored; at every
      moment the records are as at the start or one names the new image, all of which is stored; and once
      put, that record stays. */
  ghost predicate Safe(lib: Lib, h: seq<World>, lease: LeaseId, name: string, docs: Documents, layers: seq<string>) {
    && |h| > 0
    && (forall i, j | 0 <= i <= j < |h| :: Holding(h[i], h[j], lease))
    && (forall j | 0 <= j < |h| :: RecordSafe(lib, h[0].images, h[j], name, docs, layers))
    && forall i, j | 0 <= i <= j < |h| :: RecordStays(h[0], h[i], h[j])
  }

  /** While the lease is there, it holds what it held, and that is stored. */
  ghost predicate Holding(w: World, v: World, lease: LeaseId) {
    lease in w.leases && lease in v.leases ==>
      w.leases[lease] <= v.leases[lease] && w.leases[lease] <= v.content.Keys
  }

  /** The lease holds nothing yet, and the records are those of `before`. */
  ghost predicate Untried(before: World, w: World, lease: LeaseId) {
    w.images == before.images && (lease in w.leases ==> w.leases[lease] == {})
  }

  /** The next state of a run in which records stay. */
  ghost predicate Follows(lib: Lib, w: World, v: World, lease: LeaseId, name: string, docs: Documents,
                          layers: seq<string>) {
    && v.images == w.images
    && (Recorded(lib, w, name, docs, layers) ==> Recorded(lib, v, name, docs, layers))
    && (lease in v.leases ==>
        lease in w.leases && w.leases[lease] <= v.leases[lease] && v.leases[lease] <= v.content.Keys)
  }

  /** Whatever becomes of a commit: a part the lease held is stored as long as the lease is there, and a part
      of the new image is stored from the moment the image is recorded. */
  lemma SafeParts(lib: Lib, h: seq<World>, lease: LeaseId, name: string, docs: Documents, layers: seq<string>, i: nat,
                  j: nat, d: string)
    requires Safe(lib, h, lease, name, docs, layers) && i <= j < |h| && d in Parts(lib, docs, layers)
    ensures HoldsOne(h[i], lease, d) && lease in h[j].leases ==> d in h[j].content
    ensures h[i].images != h[0].images ==>
      && d in h[j].content
      && name in h[j].images && h[j].images[name] == docs.ManifestDescriptor(lib)
  {
    assert Holding(h[i], h[j], lease) && RecordStays(h[0], h[i], h[j]);
    assert RecordSafe(lib, h[0].images, h[i], name, docs, layers) && RecordSafe(lib, h[0].images, h[j], name, docs,
                                                                                layers);
    if h[i].images != h[0].images {
      RecordedParts(lib, h[j], name, docs, layers, d);
    }
  }

  lemma SafeStart(lib: Lib, h: seq<World>, lease: LeaseId, name: string, docs: Documents, layers: seq<string>)
    requires |h| > 0 && forall i | 0 <= i < |h| :: Untried(h[0], h[i], lease)
    ensures Safe(lib, h, lease, name, docs, layers)
  {
    hide Recorded;
    forall i, j | 0 <= i <= j < |h|
      ensures Holding(h[i], h[j], lease) && RecordStays(h[0], h[i], h[j])
      ensures RecordSafe(lib, h[0].images, h[j], name, docs, layers)
    {
      assert Untried(h[0], h[i], lease) && Untried(h[0], h[j], lease);
    }
  }

  lemma SafeNext(lib: Lib, h: seq<World>, v: World, lease: LeaseId, name: string, docs: Documents, layers: seq<string>)
    requires Safe(lib, h, lease, name, docs, layers) && Follows(lib, h[|h| - 1], v, lease, name, docs, layers)
    ensures Safe(lib, h + [v], lease, name, docs, layers)
  {
    hide Recorded;
    var all, n := h + [v], |h|;
    assert RecordSafe(lib, h[0].images, h[n - 1], name, docs, layers);
    forall i, j | 0 <= i <= j < |all|
      ensures Holding(all[i], all[j], lease) && RecordStays(all[0], all[i], all[j])
    {
      if i < n {
        assert Holding(h[i], h[n - 1], lease) && RecordStays(h[0], h[i], h[n - 1]);
        if j < n {
          assert Holding(h[i], h[j], lease) && RecordStays(h[0], h[i], h[j]);
        }
      }
    }
    forall j | 0 <= j < |all|
      ensures RecordSafe(lib, all[0].images, all[j], name, docs, layers)
    {
      if j < n {
        assert RecordSafe(lib, h[0].images, h[j], name, docs, layers);
      }
    }
  }

  /** A body after a beginning in which nothing was held or recorded. */
  lemma SafeBody(lib: Lib, h: seq<World>, a: Past, b: Past, lease: LeaseId, name: string, docs: Documents,
                 layers: seq<string>)
    requires Valid(lib, a) && Valid(lib, b) && Guarding(lib, a, b, lease, name, docs, layers)
    requires |h| > 0 && h[|h| - 1] == a.world && forall i | 0 <= i < |h| :: Untried(h[0], h[i], lease)
    ensures Safe(lib, h + b.history[|a.history|..], lease, name, docs, layers)
  {
    hide RecordSafe;
    var all, n, s := h + b.history[|a.history|..], |h|, |a.history|;
    assert b.history[s - 1] == a.world && Untried(h[0], a.world, lease);
    forall i, j | 0 <= i <= j < |all|
      ensures Holding(all[i], all[j], lease) && RecordStays(all[0], all[i], all[j])
    {
      if i < n {
        assert Untried(h[0], h[i], lease);
        if j < n {
          assert Untried(h[0], h[j], lease);
        }
      } else {
        assert all[i] == b.history[s + i - n] && all[j] == b.history[s + j - n];
        assert Kept(all[i], all[j], lease) && RecordStays(a.world, all[i], all[j]);
        assert Sound(lib, b.history[s + j - n]);
      }
    }
    forall j | 0 <= j < |all|
      ensures RecordSafe(lib, all[0].images, all[j], name, docs, layers)
    {
      if j < n {
        assert Untried(h[0], h[j], lease);
        UntriedIsSafe(lib, h[0], h[j], lease, name, docs, layers);
      } else {
        assert all[j] == b.history[s + j - n];
      }
    }
  }

  lemma UntriedIsSafe(lib: Lib, before: World, w: World, lease: LeaseId, name: string, docs: Documents,
                      layers: seq<string>)
    requires Untried(before, w, lease)
    ensures RecordSafe(lib, before.images, w, name, docs, layers)
  {
  }

  lemma SafeAfter(lib: Lib, pre: seq<World>, h: seq<World>, lease: LeaseId, name: string, docs: Documents,
                  layers: seq<string>)
    requires Safe(lib, h, lease, name, docs, layers)
    requires forall i | 0 <= i < |pre| :: lease !in pre[i].leases && pre[i].images == h[0].images
    ensures Safe(lib, pre + h, lease, name, docs, layers)
  {
    hide Recorded;
    var all, n := pre + h, |pre|;
    assert all[0].images == h[0].images;
    forall i, j | 0 <= i <= j < |all|
      ensures Holding(all[i], all[j], lease) && RecordStays(all[0], all[i], all[j])
    {
      if n <= i {
        assert Holding(h[i - n], h[j - n], lease) && RecordStays(h[0], h[i - n], h[j - n]);
      }
    }
    forall j | 0 <= j < |all|
      ensures RecordSafe(lib, all[0].images, all[j], name, docs, layers)
    {
      if n <= j {
        assert RecordSafe(lib, h[0].images, h[j - n], name, docs, layers);
      }
    }
  }

  /** Collections, and the calls that put things back, follow safely. */
  lemma PuttingBackFollows(lib: Lib, schedule: nat -> Move, p: Past, call: Call, lease: LeaseId, name: string,
                           docs: Documents, layers: seq<string>)
    requires Valid(lib, p) && (call.DeleteLease? || call.ResumeTask?)
    ensures var swept := Collect(p.world, schedule(p.clock).picked);
      && Follows(lib, p.world, swept, lease, name, docs, layers)
      && Follows(lib, swept, Called(lib, schedule, p, call).world, lease, name, docs, layers)
  {
    hide Holds, IsLabelling;
    var picked := schedule(p.clock).picked;
    var swept := Collect(p.world, picked);
    SoundNow(lib, p);
    CollectIsSound(lib, p.world, picked);
    if Recorded(lib, p.world, name, docs, layers) {
      CollectGuards(lib, p.world, picked, name, docs, layers);
      GuardedStaysRecorded(lib, p.world, swept, name, docs, layers);
    }
  }

  /** At some point the lease held every part; and from the moment it held a part, no collection in
      any later state removed that part. */
  ghost predicate NeverLost(h: seq<World>, lease: LeaseId, parts: set<string>) {
    && (exists k :: 0 <= k < |h| && HoldsAll(h[k], lease, parts))
    && forall i, j, d | 0 <= i <= j < |h| && d in parts && HoldsOne(h[i], lease, d) :: d in h[j].content
  }

  lemma NeverLostBy(lib: Lib, h: seq<World>, lease: LeaseId, parts: set<string>, mid: nat, end: nat)
    requires mid < end <= |h|
    requires forall i | 0 <= i < mid :: lease !in h[i].leases
    requires forall i, j | mid <= i <= j < end :: Kept(h[i], h[j], lease)
    requires forall i | mid <= i < end :: Sound(lib, h[i])
    requires HoldsAll(h[end - 1], lease, parts)
    requires forall j, d | end <= j < |h| && d in parts :: d in h[j].content
    ensures NeverLost(h, lease, parts)
  {
    forall i, j, d | 0 <= i <= j < |h| && d in parts && HoldsOne(h[i], lease, d)
      ensures d in h[j].content
    {
      if j < end {
        assert i >= mid;
        assert Kept(h[i], h[j], lease);
        assert Sound(lib, h[j]);
      }
    }
  }
}
