/** From a container to a registry: what a commit stored is what a later push reads, regenerates and
    uploads. */
module EndToEnd {
  import opened Wrappers
  import opened Python
  import opened Json
  import opened Digests
  import opened Containerd
  import opened Manifests
  import opened Images
  import opened Snapshots
  import opened Commit
  import opened Protocol
  import opened Push

  lemma ConfigKeysDiffer()
    ensures var keys := ["architecture", "os", "config", "rootfs", "author", "created"];
      forall i, j | 0 <= i < j < |keys| :: keys[i] != keys[j]
    ensures "type" != "diff_ids"
  {
    var keys := ["architecture", "os", "config", "rootfs", "author", "created"];
    assert keys[0][0] == 'a' && keys[0][1] == 'r' && keys[1][0] == 'o' && keys[2][0] == 'c' && keys[2][1] == 'o';
    assert keys[3][0] == 'r' && keys[4][0] == 'a' && keys[4][1] == 'u' && keys[5][0] == 'c' && keys[5][1] == 'r';
    assert "type"[0] == 't' && "diff_ids"[0] == 'd';
  }

  lemma CommitConfigWellKeyed(c: Container, config: Json, created: string, diffs: seq<SnapshotDiff>)
    requires WellKeyed(config)
    ensures WellKeyed(CommitConfig(c, config, created, diffs))
  {
    ConfigKeysDiffer();
    var keys := ["architecture", "os", "config", "rootfs", "author", "created"];
    var doc := CommitConfig(c, config, created, diffs);
    var ids := Strings(Ids(diffs));
    assert WellKeyed(Arr(ids)) by {
      forall i | 0 <= i < |ids|
        ensures WellKeyed(ids[i])
      {
      }
    }
    assert WellKeyed(RootFs(Ids(diffs)));
    forall i | 0 <= i < 6
      ensures doc.fields[i].0 == keys[i] && WellKeyed(doc.fields[i].1)
    {
    }
    assert Distinct(doc.fields);
  }

  /** The image a commit writes can be printed. */
  lemma CommitWellKeyed(c: Container, config: Json, created: string, diffs: seq<SnapshotDiff>)
    requires WellKeyed(config)
    ensures WellKeyed(CommitManifest(c, config, created, diffs))
  {
    ManifestKeys();
    CommitConfigWellKeyed(c, config, created, diffs);
    var image := CommitManifest(c, config, created, diffs);
    var layers := Primitives(diffs);
    assert WellKeyed(Arr(layers)) by {
      forall i | 0 <= i < |layers|
        ensures WellKeyed(layers[i])
      {
        ParseToPrimitive(diffs[i].descriptor);
      }
    }
    forall i | 0 <= i < 4
      ensures WellKeyed(image.fields[i].1)
    {
      assert image.fields[i].1 == Num(2) || image.fields[i].1 == Str(DOCKER_MANIFEST_V2)
          || image.fields[i].1 == CommitConfig(c, config, created, diffs) || image.fields[i].1 == Arr(layers);
    }
  }

  /** Reading a recorded commit back by name gives exactly the image that was written. */
  lemma ReadsBack(lib: Lib, w: World, c: Container, name: string, created: string, made: Made, architecture: string,
                  os: string, rank: string -> nat)
    requires lib.Valid() && WellKeyed(made.config) && Acyclic(lib, w.content, architecture, os, rank)
    requires Recorded(lib, w, name, DocsOf(lib, c, created, made), LayerNames(made.diffs))
    ensures ReadImage(lib, w.content, architecture, os, rank, w.images[name].digest)
      == Ok(CommitManifest(c, made.config, created, made.diffs))
  {
    var image := CommitManifest(c, made.config, created, made.diffs);
    CommitDocumentsAre(lib, c, made.config, created, made.diffs);
    CommitWellKeyed(c, made.config, created, made.diffs);
    WriteReadPush(lib, w.content, architecture, os, rank, image);
    ManifestKeys();
    LookupFour(image.fields[0], image.fields[1], image.fields[2], image.fields[3], "config");
    assert image.fields == [image.fields[0], image.fields[1], image.fields[2], image.fields[3]];
  }

  lemma FoundWellKeyed(lib: Lib, data: Bytes, architecture: string, os: string)
    requires lib.Valid()
    ensures var next := Examine(lib, data, architecture, os); next.Found? ==> WellKeyed(next.manifest)
  {
  }

  lemma {:induction false} ResolveWellKeyed(lib: Lib, content: Content, architecture: string, os: string,
                                            rank: string -> nat, digest: string)
    requires lib.Valid() && Acyclic(lib, content, architecture, os, rank)
    ensures var r := Resolve(lib, content, architecture, os, rank, digest); r.Ok? ==> WellKeyed(r.value)
    decreases rank(digest)
  {
    hide Examine;
    if digest in content {
      FoundWellKeyed(lib, content[digest].data, architecture, os);
      var next := Examine(lib, content[digest].data, architecture, os);
      if next.Follow? {
        ResolveWellKeyed(lib, content, architecture, os, rank, next.digest);
      }
    }
  }

  lemma ConfigWellKeyed(document: Json)
    requires WellKeyed(document)
    ensures Config(document).Ok? ==> WellKeyed(Config(document).value)
  {
    if document.Obj? {
      FirstOfWellKeyed(document.fields, ["config", "Config"], ["config", "Config"]);
    }
  }

  /** What a commit takes over from its parent image was parsed, so it can be printed. */
  lemma InheritedWellKeyed(lib: Lib, w: World, c: Container, rank: string -> nat, config: Json)
    requires lib.Valid() && Acyclic(lib, w.content, c.architecture, c.os, rank)
    requires FromParent(lib, w, c, rank, Ok(config))
    ensures WellKeyed(config)
  {
    hide Examine, GetValue;
    var digest := w.images[c.image].digest;
    var manifest := Resolve(lib, w.content, c.architecture, c.os, rank, digest).value;
    ResolveWellKeyed(lib, w.content, c.architecture, c.os, rank, digest);
    ConfigIsValue(manifest);
    var document := lib.loads(w.content[DigestOf(Config(manifest).value).value].data).value;
    SetWellKeyed(manifest.fields, "config", document);
    var image := Obj(Set(manifest.fields, "config", document));
    ConfigWellKeyed(image);
    ConfigWellKeyed(Config(image).value);
  }

  lemma LookupRootFs(c: Container, config: Json, created: string, diffs: seq<SnapshotDiff>)
    ensures GetValue(CommitConfig(c, config, created, diffs), ["rootfs", "RootFS"]) == Ok(RootFs(Ids(diffs)))
    ensures GetValue(RootFs(Ids(diffs)), ["diff_ids", "Diff_ids"]) == Ok(Arr(Strings(Ids(diffs))))
  {
    ConfigKeysDiffer();
    var keys := ["architecture", "os", "config", "rootfs", "author", "created"];
    assert keys[0] != keys[3] && keys[1] != keys[3] && keys[2] != keys[3];
    var f := CommitConfig(c, config, created, diffs).fields;
    assert f[1..][1..][1..][0] == ("rootfs", RootFs(Ids(diffs)));
    assert Lookup(f[1..][1..][1..], "rootfs") == Some(RootFs(Ids(diffs)));
    assert Lookup(f[1..][1..], "rootfs") == Some(RootFs(Ids(diffs)));
    assert Lookup(f[1..], "rootfs") == Some(RootFs(Ids(diffs)));
    GetEither(f, "rootfs", "RootFS");
    var g := RootFs(Ids(diffs)).fields;
    assert g[1..][0] == ("diff_ids", Arr(Strings(Ids(diffs))));
    assert Lookup(g[1..], "diff_ids") == Some(Arr(Strings(Ids(diffs))));
    GetEither(g, "diff_ids", "Diff_ids");
  }

  /** Looking a key up in a document of six fields. */
  lemma LookupSix(f: Fields, i: nat)
    requires |f| == 6 && i < 6 && forall j, k | 0 <= j < k < 6 :: f[j].0 != f[k].0
    ensures Lookup(f, f[i].0) == Some(f[i].1)
  {
    if i > 0 {
      var g := f[1..];
      if i == 1 {
        assert Lookup(g, f[i].0) == Some(g[0].1);
      } else {
        assert Lookup(g, f[i].0) == Lookup(g[1..], f[i].0);
        LookupFour(f[2], f[3], f[4], f[5], f[i].0);
        assert g[1..] == [f[2], f[3], f[4], f[5]];
      }
    }
  }

  /** What a commit writes into its config, field by field. */
  lemma CommitConfigIs(lib: Lib, c: Container, config: Json, created: string, diffs: seq<SnapshotDiff>)
    ensures var doc := CommitDocuments(lib, c, config, created, diffs).config;
      && doc.Obj? && |doc.fields| == 6
      && Lookup(doc.fields, "architecture") == Some(Str(c.architecture))
      && Lookup(doc.fields, "os") == Some(Str(c.os))
      && Lookup(doc.fields, "config") == Some(config)
      && Lookup(doc.fields, "author") == Some(Str(""))
      && Lookup(doc.fields, "created") == Some(Str(created))
      && Lookup(doc.fields, "rootfs") == Some(RootFs(Ids(diffs)))
  {
    hide Lookup, RootFs;
    ConfigKeysDiffer();
    var keys := ["architecture", "os", "config", "rootfs", "author", "created"];
    var f := CommitConfig(c, config, created, diffs).fields;
    assert keys[0] == f[0].0 && keys[1] == f[1].0 && keys[2] == f[2].0;
    assert keys[3] == f[3].0 && keys[4] == f[4].0 && keys[5] == f[5].0;
    LookupSix(f, 0);
    LookupSix(f, 1);
    LookupSix(f, 2);
    LookupSix(f, 3);
    LookupSix(f, 4);
    LookupSix(f, 5);
  }

  /** The part of it that names the layers: their ids before compression, in order. */
  lemma RootFsIs(diffs: seq<SnapshotDiff>)
    ensures var rootfs := RootFs(Ids(diffs));
      && rootfs.Obj? && |rootfs.fields| == 2
      && Lookup(rootfs.fields, "type") == Some(Str("layers"))
      && exists ids ::
        && Lookup(rootfs.fields, "diff_ids") == Some(Arr(ids))
        && |ids| == |diffs| && forall i | 0 <= i < |ids| :: ids[i] == Str(diffs[i].id)
  {
    ConfigKeysDiffer();
    var g := RootFs(Ids(diffs)).fields;
    assert Lookup(g[1..], "diff_ids") == Some(Arr(Strings(Ids(diffs))));
    assert Lookup(g, "diff_ids") == Some(Arr(Strings(Ids(diffs))));
  }

  /** What a commit writes into its manifest, field by field. */
  lemma CommitManifestIs(lib: Lib, c: Container, config: Json, created: string, diffs: seq<SnapshotDiff>)
    ensures var docs := CommitDocuments(lib, c, config, created, diffs);
      && docs.manifest.Obj? && |docs.manifest.fields| == 4
      && Lookup(docs.manifest.fields, "schemaVersion") == Some(Num(2))
      && Lookup(docs.manifest.fields, "mediaType") == Some(Str("application/vnd.docker.distribution.manifest.v2+json"))
    ensures exists config_, layers ::
      var docs := CommitDocuments(lib, c, config, created, diffs);
      && Lookup(docs.manifest.fields, "config") == Some(config_)
      && Descriptor.Parse(config_) ==
         Ok(Descriptor("application/vnd.docker.container.image.v1+json",
                       "sha256:" + lib.sha256(lib.dumps(docs.config)), |lib.dumps(docs.config)|))
      && Lookup(docs.manifest.fields, "layers") == Some(Arr(layers))
      && |layers| == |diffs|
      && forall i | 0 <= i < |layers| :: Descriptor.Parse(layers[i]) == Ok(diffs[i].descriptor)
  {
    hide CommitConfig, Lookup;
    var docs := CommitDocuments(lib, c, config, created, diffs);
    var f := docs.manifest.fields;
    ManifestKeys();
    LookupFour(f[0], f[1], f[2], f[3], "schemaVersion");
    LookupFour(f[0], f[1], f[2], f[3], "mediaType");
    LookupFour(f[0], f[1], f[2], f[3], "config");
    LookupFour(f[0], f[1], f[2], f[3], "layers");
    assert f == [f[0], f[1], f[2], f[3]];
    var d := docs.ConfigDescriptor(lib);
    ParseToPrimitive(d);
    forall i | 0 <= i < |diffs|
      ensures Descriptor.Parse(Primitives(diffs)[i]) == Ok(diffs[i].descriptor)
    {
      ParseToPrimitive(diffs[i].descriptor);
    }
    assert Lookup(f, "config") == Some(d.ToPrimitive());
    assert Lookup(f, "layers") == Some(Arr(Primitives(diffs)));
  }

  /** A committed image's layers and diff ids are aligned: the loop over both drops nothing. */
  lemma ListsAreAligned(lib: Lib, c: Container, config: Json, created: string, diffs: seq<SnapshotDiff>)
    ensures var image := CommitManifest(c, config, created, diffs);
      && Layers(image) == Ok(Primitives(diffs))
      && DiffIds(image) == Ok(Strings(Ids(diffs)))
      && |Layers(image).value| == |DiffIds(image).value| == |diffs|
      && forall i | 0 <= i < |diffs| ::
          && Descriptor.Parse(Layers(image).value[i]) == Ok(diffs[i].descriptor)
          && DiffIds(image).value[i] == Str(diffs[i].id)
  {
    var image := CommitManifest(c, config, created, diffs);
    var f := image.fields;
    ManifestKeys();
    LookupFour(f[0], f[1], f[2], f[3], "layers");
    LookupFour(f[0], f[1], f[2], f[3], "config");
    assert f == [f[0], f[1], f[2], f[3]];
    GetEither(f, "layers", "Layers");
    GetEither(f, "config", "Config");
    LookupRootFs(c, config, created, diffs);
    forall i | 0 <= i < |diffs|
      ensures Descriptor.Parse(Primitives(diffs)[i]) == Ok(diffs[i].descriptor)
    {
      ParseToPrimitive(diffs[i].descriptor);
    }
  }

  /** So a manifest of a committed image is never put without its config and every one of its layers. */
  lemma NeededIsAll(lib: Lib, c: Container, created: string, made: Made)
    ensures var docs := DocsOf(lib, c, created, made);
      {docs.ConfigDescriptor(lib).digest} + (set i | 0 <= i < |made.diffs| :: LayerNames(made.diffs)[i])
        <= Needed(lib, CommitManifest(c, made.config, created, made.diffs))
  {
    hide CommitManifest, CommitDocuments;
    CommitDocumentsAre(lib, c, made.config, created, made.diffs);
    ListsAreAligned(lib, c, made.config, created, made.diffs);
  }

  /** A push that succeeds after a commit puts the very bytes the commit recorded, and only with its
      config and all of its layers in the registry. `w` is any state in which the image is still recorded. */
  lemma PushedAsCommitted(lib: Lib, w: World, c: Container, name: string, created: string, made: Made,
                          rank: string -> nat, tag: string, before: Store, after: Store)
    requires lib.Valid() && WellKeyed(made.config) && Acyclic(lib, w.content, c.architecture, c.os, rank)
    requires Recorded(lib, w, name, DocsOf(lib, c, created, made), LayerNames(made.diffs))
    requires ReadImage(lib, w.content, c.architecture, c.os, rank, w.images[name].digest).Ok?
    requires PushedAs(lib, ReadImage(lib, w.content, c.architecture, c.os, rank, w.images[name].digest).value, tag,
                      before, after)
    ensures tag in after.tags
    ensures w.images[name] == Descriptor(DOCKER_MANIFEST_V2, lib.Digest(after.tags[tag]), |after.tags[tag]|)
    ensures w.images[name].digest in w.content && w.content[w.images[name].digest].data == after.tags[tag]
    ensures DocsOf(lib, c, created, made).ConfigDescriptor(lib).digest in after.blobs
    ensures forall i | 0 <= i < |made.diffs| :: LayerNames(made.diffs)[i] in after.blobs
  {
    hide CommitManifest, CommitDocuments, ReadImage, Acyclic, Needed;
    ReadsBack(lib, w, c, name, created, made, c.architecture, c.os, rank);
    CommitDocumentsAre(lib, c, made.config, created, made.diffs);
    NeededIsAll(lib, c, created, made);
  }

  /** A part of a recorded image lives. */
  lemma PartLives(lib: Lib, w: World, name: string, docs: Documents, layers: seq<string>, d: string)
    requires Recorded(lib, w, name, docs, layers) && d in Parts(lib, docs, layers)
    ensures Lives(w, d) && d in w.content
  {
    hide Holds, IsLabelling, Refs, Parts;
    RecordedParts(lib, w, name, docs, layers, d);
    var manifest := docs.ManifestDescriptor(lib).digest;
    if d in Roots(w) {
      assert d in Reach(w, 0);
    } else {
      assert manifest in Reach(w, 0) && manifest in w.content by {
        ManifestIsStored(lib, w, name, docs, layers);
      }
      assert d in Reach(w, 1);
    }
  }

  lemma ManifestIsStored(lib: Lib, w: World, name: string, docs: Documents, layers: seq<string>)
    requires Recorded(lib, w, name, docs, layers)
    ensures docs.ManifestDescriptor(lib).digest in w.content
    ensures w.content[docs.ManifestDescriptor(lib).digest].data == lib.dumps(docs.manifest)
    ensures name in w.images && w.images[name] == docs.ManifestDescriptor(lib)
  {
  }

  /** Reading a recorded commit is safe from collections: all that is read of it stays. */
  lemma RecordedStays(lib: Lib, schedule: nat -> Move, w: World, c: Container, name: string, created: string,
                      made: Made, rank: string -> nat)
    requires lib.Valid() && Quiet(schedule) && WellKeyed(made.config)
    requires Acyclic(lib, w.content, c.architecture, c.os, rank)
    requires Recorded(lib, w, name, DocsOf(lib, c, created, made), LayerNames(made.diffs))
    ensures name in w.images && ImageStays(lib, schedule, w, c.architecture, c.os, rank, w.images[name].digest)
  {
    hide CommitManifest, CommitDocuments, Recorded, Examine, GetValue, Quiet, Acyclic, Lives;
    var (docs, layers) := (DocsOf(lib, c, created, made), LayerNames(made.diffs));
    var image := CommitManifest(c, made.config, created, made.diffs);
    CommitDocumentsAre(lib, c, made.config, created, made.diffs);
    CommitWellKeyed(c, made.config, created, made.diffs);
    WrittenManifest(lib, image, c.architecture, c.os);
    ManifestIsStored(lib, w, name, docs, layers);
    PartLives(lib, w, name, docs, layers, docs.ManifestDescriptor(lib).digest);
    PartLives(lib, w, name, docs, layers, docs.ConfigDescriptor(lib).digest);
    ResolveStep(lib, w.content, c.architecture, c.os, rank, w.images[name].digest);
  }

  lemma LayerIsAvailable(lib: Lib, schedule: nat -> Move, before: World, after: World, later: World, c: Container,
                         name: string, created: string, rank: string -> nat, made: Made, s: Store, i: nat)
    requires Quiet(schedule)
    requires Sound(lib, after) && Protocol.Committed(lib, before, after, c, name, created, rank, made)
    requires NoClash(lib, before.content,
                     LayerSet(lib, before.snapshots, Lineage(before.snapshots, rank, c.snapshot.key)))
    requires Recorded(lib, later, name, DocsOf(lib, c, created, made), LayerNames(made.diffs))
    requires Guarded(after, later, PartsOf(lib, c, created, made))
    requires i < |made.diffs|
    ensures Available(schedule, later, s, made.diffs[i].descriptor)
  {
    hide CommitDocuments, LayerSet, NoClash, LayersStored, IsLabelling, Holds, Recorded, Lives, Quiet;
    var keys := Lineage(before.snapshots, rank, c.snapshot.key);
    assert made.diffs[i] == DiffOf(lib, before.snapshots, keys[i]);
    var digest := LayerNames(made.diffs)[i];
    assert digest in PartsOf(lib, c, created, made);
    StoredLayerIs(lib, before.content, after, before.snapshots, keys, LayerNames(made.diffs), i);
    PartLives(lib, later, name, DocsOf(lib, c, created, made), LayerNames(made.diffs), digest);
  }

  /** What was committed can be pushed, at any time: after any number of collections, and with more of them while it is
      pushed, a push by name succeeds if no call fails on its way. */
  lemma CommittedIsPushable(lib: Lib, schedule: nat -> Move, before: World, after: World, picks: seq<set<string>>,
                            c: Container, name: string, created: string, rank: string -> nat, made: Made,
                            contentRank: string -> nat, s: Store)
    requires lib.Valid() && Sound(lib, after) && WellKeyed(made.config) && Quiet(schedule)
    requires Acyclic(lib, CollectAll(after, picks).content, c.architecture, c.os, contentRank)
    requires Protocol.Committed(lib, before, after, c, name, created, rank, made)
    requires NoClash(lib, before.content,
                     LayerSet(lib, before.snapshots, Lineage(before.snapshots, rank, c.snapshot.key)))
    ensures PushableByName(lib, schedule, CollectAll(after, picks), s, name, c.architecture, c.os, contentRank)
  {
    hide CommitManifest, CommitDocuments, ReadImage, ImageStays, Acyclic, NoClash, LayerSet, Recorded, Available,
      DocumentsOf, Layers, DiffIds, Protocol.Committed, Guarded, CollectAll, Quiet, Parts;
    var later := CollectAll(after, picks);
    var image := CommitManifest(c, made.config, created, made.diffs);
    CommittedIsRecorded(lib, before, after, c, name, created, rank, made);
    RecordedForever(lib, after, picks, name, DocsOf(lib, c, created, made), LayerNames(made.diffs));
    RecordedStays(lib, schedule, later, c, name, created, made, contentRank);
    ReadsBack(lib, later, c, name, created, made, c.architecture, c.os, contentRank);
    CommitDocumentsAre(lib, c, made.config, created, made.diffs);
    ListsAreAligned(lib, c, made.config, created, made.diffs);
    forall i | 0 <= i < |made.diffs|
      ensures Available(schedule, later, s, made.diffs[i].descriptor)
    {
      LayerIsAvailable(lib, schedule, before, after, later, c, name, created, rank, made, s, i);
    }
  }

  /** The stored config of a commit keeps its one label, on the chain digest of all layers, through any number of
      collections. */
  lemma ChainLabelStays(lib: Lib, before: World, after: World, picks: seq<set<string>>, c: Container, name: string,
                        created: string, rank: string -> nat, made: Made)
    requires Protocol.Committed(lib, before, after, c, name, created, rank, made)
    ensures var (w, config) := (CollectAll(after, picks), DocsOf(lib, c, created, made).ConfigDescriptor(lib).digest);
      && |made.diffs| > 0 && config in w.content
      && w.content[config].labels ==
         map["containerd.io/gc.ref.snapshot." + c.snapshotter := ChainId(lib, Ids(made.diffs))]
  {
    hide CommitDocuments, Recorded;
    RecordedForever(lib, after, picks, name, DocsOf(lib, c, created, made), LayerNames(made.diffs));
    GuardedStaysLabelled(lib, after, CollectAll(after, picks), c, DocsOf(lib, c, created, made),
                         LayerNames(made.diffs), made.diffs);
  }

  lemma CommittedIsRecorded(lib: Lib, before: World, after: World, c: Container, name: string, created: string,
                            rank: string -> nat, made: Made)
    requires Protocol.Committed(lib, before, after, c, name, created, rank, made)
    ensures Recorded(lib, after, name, DocsOf(lib, c, created, made), LayerNames(made.diffs))
    ensures name in after.images
  {
    hide CommitDocuments;
  }

  /** No layer's digest is that of other bytes in the registry. */
  ghost predicate RegistryClashFree(lib: Lib, s: Store, layers: set<Bytes>) {
    forall x, d | x in layers && d in s.blobs && lib.Digest(x) == lib.Digest(s.blobs[d]) :: x == s.blobs[d]
  }

  /** The registry's bytes for the layers. */
  ghost function BlobBytes(s: Store, names: seq<string>): seq<Bytes>
    requires forall i | 0 <= i < |names| :: names[i] in s.blobs
  {
    seq(|names|, i requires 0 <= i < |names| => s.blobs[names[i]])
  }

  /** Whoever pulls the pushed layers and applies them in order gets the container's file system. */
  lemma RegistryReplays(lib: Lib, before: World, after: World, c: Container, name: string, created: string,
                        rank: string -> nat, made: Made, s: Store)
    requires lib.Valid() && Protocol.Committed(lib, before, after, c, name, created, rank, made)
    requires StoreSound(lib, s) && forall i | 0 <= i < |made.diffs| :: LayerNames(made.diffs)[i] in s.blobs
    requires RegistryClashFree(lib, s, LayerSet(lib, before.snapshots, Lineage(before.snapshots, rank, c.snapshot.key)))
    ensures c.snapshot.key in before.snapshots
    ensures Replay(lib, BlobBytes(s, LayerNames(made.diffs))) == before.snapshots[c.snapshot.key].files
  {
    hide CommitDocuments, Recorded;
    var keys := Lineage(before.snapshots, rank, c.snapshot.key);
    var names := LayerNames(made.diffs);
    var datas := BlobBytes(s, names);
    forall i | 0 <= i < |keys|
      ensures datas[i] == LayerOf(lib, before.snapshots, keys[i])
    {
      assert made.diffs[i] == DiffOf(lib, before.snapshots, keys[i]);
      assert keys[i] in keys;
      assert LayerOf(lib, before.snapshots, keys[i]) in LayerSet(lib, before.snapshots, keys);
      assert lib.Digest(s.blobs[names[i]]) == names[i];
    }
    ChainReplays(lib, before.snapshots, keys, datas);
  }
}
