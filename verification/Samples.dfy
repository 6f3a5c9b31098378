/** Two small worlds: one in which a commit must succeed, and one in which it must fail because a document of
    the new image is stored already. */
module Samples {
  import opened Wrappers
  import opened Python
  import opened Json
  import opened Digests
  import opened Containerd
  import opened Manifests
  import opened Images
  import opened Snapshots
  import opened Commit
  import opened Protocol
  import Contracts
  import EndToEnd

  // ---------------------------------------------------------------- committing what is stored already

  /** A commit whose config or manifest is stored already cannot go ahead. */
  lemma StoredAlready(lib: Lib, w: World, c: Container, created: string, contentRank: string -> nat,
                      rank: string -> nat, config: Json)
    requires Acyclic(lib, w.content, c.architecture, c.os, contentRank) && Founded(w.snapshots, rank)
    requires FromParent(lib, w, c, contentRank, Ok(config))
    requires
      var diffs := LineageDiffs(lib, w.snapshots, Lineage(w.snapshots, rank, c.snapshot.key));
      var docs := CommitDocuments(lib, c, config, created, diffs);
      docs.ConfigDescriptor(lib).digest in w.content || docs.ManifestDescriptor(lib).digest in w.content
    ensures !Ready(lib, w, c, created, contentRank, rank)
  {
    hide Acyclic, ParentConfig, CommitManifest, CommitDocuments, WalkReady, DocumentsOf, ManifestLayers;
    CommitDocumentsAre(lib, c, config, created,
                       LineageDiffs(lib, w.snapshots, Lineage(w.snapshots, rank, c.snapshot.key)));
  }

  /** What is stored in both is the same, as it is when no hashes collide. */
  ghost predicate SameBytes(w: Content, v: Content) {
    forall d | d in w && d in v :: v[d].data == w[d].data
  }

  /** What could be read before reads the same, unless some of it is gone. */
  lemma {:induction false} ResolvesTheSame(lib: Lib, w: Content, v: Content, architecture: string, os: string,
                                           rank: string -> nat, digest: string)
    requires Acyclic(lib, w, architecture, os, rank) && Acyclic(lib, v, architecture, os, rank) && SameBytes(w, v)
    requires Resolve(lib, w, architecture, os, rank, digest).Ok?
    ensures Resolve(lib, v, architecture, os, rank, digest) == Resolve(lib, w, architecture, os, rank, digest)
         || Resolve(lib, v, architecture, os, rank, digest).Err?
    decreases rank(digest)
  {
    hide Examine;
    if digest in v && Examine(lib, w[digest].data, architecture, os).Follow? {
      var next := Examine(lib, w[digest].data, architecture, os).digest;
      ResolvesTheSame(lib, w, v, architecture, os, rank, next);
    }
  }

  lemma ReadsTheSame(lib: Lib, w: Content, v: Content, architecture: string, os: string, rank: string -> nat,
                     digest: string)
    requires Acyclic(lib, w, architecture, os, rank) && Acyclic(lib, v, architecture, os, rank) && SameBytes(w, v)
    requires ReadImage(lib, w, architecture, os, rank, digest).Ok?
    ensures ReadImage(lib, v, architecture, os, rank, digest) == ReadImage(lib, w, architecture, os, rank, digest)
         || ReadImage(lib, v, architecture, os, rank, digest).Err?
  {
    hide Examine, Acyclic, Resolve, GetValue;
    ResolvesTheSame(lib, w, v, architecture, os, rank, digest);
  }

  /** A commit of a commit takes over the same configuration. */
  lemma InheritedOfCommit(c: Container, config: Json, created: string, diffs: seq<SnapshotDiff>)
    requires !config.Null?
    ensures Inherited(CommitManifest(c, config, created, diffs)) == Ok(config)
  {
    hide RootFs;
    var f := CommitConfig(c, config, created, diffs).fields;
    LookupSix(f[0], f[1], f[2], f[3], f[4], f[5], "config");
    LookupFour(f[2], f[3], f[4], f[5], "config");
    assert f == [f[0], f[1], f[2], f[3], f[4], f[5]];
    assert "architecture"[0] == 'a' && "os"[0] == 'o' && "config"[0] == 'c';
    GetEither(f, "config", "Config");
    var g := CommitManifest(c, config, created, diffs).fields;
    ManifestKeys();
    LookupFour(g[0], g[1], g[2], g[3], "config");
    assert g == [g[0], g[1], g[2], g[3]];
    GetEither(g, "config", "Config");
  }

  lemma InheritedIsValue(image: Json)
    ensures Inherited(image).Ok? ==> !Inherited(image).value.Null?
  {
    hide GetValue;
    if Config(image).Ok? {
      ConfigIsValue(Config(image).value);
    }
  }

  /** After a commit, the container's image has the configuration it had, if it can still be read. */
  lemma ParentAfterCommit(lib: Lib, before: World, after: World, c: Container, name: string, created: string,
                          contentRank: string -> nat, rank: string -> nat, made: Made)
    requires lib.Valid() && Protocol.Committed(lib, before, after, c, name, created, rank, made)
    requires Acyclic(lib, before.content, c.architecture, c.os, contentRank)
    requires Acyclic(lib, after.content, c.architecture, c.os, contentRank)
    requires FromParent(lib, before, c, contentRank, Ok(made.config)) && SameBytes(before.content, after.content)
    ensures c.image in after.images
    ensures var config := ParentConfig(lib, after.content, c, after.images[c.image].digest, contentRank);
      config == Ok(made.config) || config.Err?
  {
    hide Acyclic, CommitDocuments, CommitManifest, LayerSet, LayersStored, Recorded, ReadImage, Complete, Inherited,
      SameBytes, Lineage;
    var digest := before.images[c.image].digest;
    if name == c.image {
      EndToEnd.InheritedWellKeyed(lib, before, c, contentRank, made.config);
      EndToEnd.ReadsBack(lib, after, c, name, created, made, c.architecture, c.os, contentRank);
      InheritedIsValue(ReadImage(lib, before.content, c.architecture, c.os, contentRank, digest).value);
      InheritedOfCommit(c, made.config, created, made.diffs);
    } else {
      ReadsTheSame(lib, before.content, after.content, c.architecture, c.os, contentRank, digest);
    }
  }

  /** So the same container cannot be committed twice at the same reading of the clock, under any name, its own
      image's included. */
  lemma NotTwice(lib: Lib, before: World, after: World, c: Container, name: string, created: string,
                 contentRank: string -> nat, rank: string -> nat, made: Made)
    requires lib.Valid() && Protocol.Committed(lib, before, after, c, name, created, rank, made)
    requires Acyclic(lib, before.content, c.architecture, c.os, contentRank)
    requires Acyclic(lib, after.content, c.architecture, c.os, contentRank)
    requires FromParent(lib, before, c, contentRank, Ok(made.config)) && SameBytes(before.content, after.content)
    ensures Founded(after.snapshots, rank) && !Ready(lib, after, c, created, contentRank, rank)
  {
    hide Acyclic, ParentConfig, CommitDocuments, LayerSet, LayersStored, IsLabelling, Storable;
    assert made.diffs == LineageDiffs(lib, after.snapshots, Lineage(after.snapshots, rank, c.snapshot.key));
    ParentAfterCommit(lib, before, after, c, name, created, contentRank, rank, made);
    if Ready(lib, after, c, created, contentRank, rank) {
      StoredAlready(lib, after, c, created, contentRank, rank, made.config);
    }
  }

  // ---------------------------------------------------------------- a world for a commit

  function Spelled(data: Bytes): string {
    seq(|data|, i requires 0 <= i < |data| => data[i] as int as char)
  }

  lemma SpelledIsInjective(x: Bytes, y: Bytes)
    requires Spelled(x) == Spelled(y)
    ensures x == y
  {
    forall i | 0 <= i < |x|
      ensures x[i] == y[i]
    {
      assert Spelled(x)[i] == Spelled(y)[i];
    }
  }

  /** A library whose hash has no collisions. */
  ghost predicate CollisionFree(lib: Lib) {
    && lib.Valid()
    && (forall x: Bytes, y: Bytes :: lib.Digest(x) == lib.Digest(y) ==> x == y)
    && (forall v: Json, u: Json :: lib.dumps(v) == lib.dumps(u) ==> v == u)
    && (forall v: Json, l: FileSystem :: v.Obj? ==> lib.dumps(v) != lib.diff(l, map[]))
  }

  lemma PlainLib() returns (lib: Lib)
    ensures CollisionFree(lib)
  {
    lib := Contracts.Consistent(data => Spelled(data), s => s);
    forall x: Bytes, y: Bytes | lib.Digest(x) == lib.Digest(y)
      ensures x == y
    {
      SameDigest(lib, x, y);
      SpelledIsInjective(x, y);
    }
    forall v: Json, u: Json | lib.dumps(v) == lib.dumps(u)
      ensures v == u
    {
      Contracts.DumpReads(v, u, [], []);
    }
    forall v: Json, l: FileSystem | v.Obj?
      ensures lib.dumps(v) != lib.diff(l, map[])
    {
      assert lib.dumps(v)[0] == 5 && Contracts.Files(map[])[0] == 0;
    }
  }

  const SAMPLE := Container("amd64", "linux", "task", "base", "overlayfs", Snapshot("leaf", true))

  /** The documents of the container's image: no layers, an empty configuration. */
  function Base(lib: Lib): Documents {
    CommitDocuments(lib, SAMPLE, Obj([]), "then", [])
  }

  /** A running container with one empty snapshot, and its image in the store. */
  function SampleWorld(lib: Lib): World {
    var docs := Base(lib);
    var (config, manifest) := (docs.ConfigDescriptor(lib).digest, docs.ManifestDescriptor(lib).digest);
    World(
      map["task" := Running], map[], 0, map["leaf" := SnapshotInfo("", Active, map[])],
      map[config := Blob(lib.dumps(docs.config), map[]),
          manifest := Blob(lib.dumps(docs.manifest), map[CONFIG_KEY := config])],
      map["base" := docs.ManifestDescriptor(lib)])
  }

  /** The documents of its commit. */
  function SampleDocs(lib: Lib): Documents {
    CommitDocuments(lib, SAMPLE, Obj([]), "now", [DiffOf(lib, SampleWorld(lib).snapshots, "leaf")])
  }

  ghost function Flat(key: string): nat {
    0
  }

  /** Looking a key up in a document of six fields. */
  lemma LookupSix(a: (string, Json), b: (string, Json), c: (string, Json), d: (string, Json), e: (string, Json),
                  f: (string, Json), key: string)
    ensures Lookup([a, b, c, d, e, f], key) ==
      if a.0 == key then Some(a.1) else if b.0 == key then Some(b.1) else Lookup([c, d, e, f], key)
  {
    assert [a, b, c, d, e, f][1..] == [b, c, d, e, f] && [b, c, d, e, f][1..] == [c, d, e, f];
    assert Lookup([b, c, d, e, f], key) == if b.0 == key then Some(b.1) else Lookup([c, d, e, f], key);
  }

  lemma KeyOfConfig(created: string, diffs: seq<SnapshotDiff>, key: string)
    requires key == "config" || key == "mediaType" || key == "MediaType" || key == "rootfs"
    ensures var config := CommitConfig(SAMPLE, Obj([]), created, diffs);
      Lookup(config.fields, key) ==
        if key == "config" then Some(Obj([])) else if key == "rootfs" then Some(RootFs(Ids(diffs))) else None
  {
    var f := CommitConfig(SAMPLE, Obj([]), created, diffs).fields;
    LookupSix(f[0], f[1], f[2], f[3], f[4], f[5], key);
    LookupFour(f[2], f[3], f[4], f[5], key);
    assert f == [f[0], f[1], f[2], f[3], f[4], f[5]];
    assert "architecture"[0] == 'a' && "os"[0] == 'o' && "config"[0] == 'c' && "rootfs"[0] == 'r' && "author"[0] == 'a';
    assert "created"[0] == 'c' && "created"[1] == 'r' && "config"[1] == 'o';
    assert "mediaType"[0] == 'm' && "MediaType"[0] == 'M';
  }

  lemma KeysOfConfig(created: string, diffs: seq<SnapshotDiff>)
    ensures var config := CommitConfig(SAMPLE, Obj([]), created, diffs);
      && Lookup(config.fields, "config") == Some(Obj([]))
      && Lookup(config.fields, "mediaType") == None && Lookup(config.fields, "MediaType") == None
      && Lookup(config.fields, "rootfs") == Some(RootFs(Ids(diffs)))
  {
    hide CommitConfig;
    ConfigHasFields(created, diffs);
    KeyOfConfig(created, diffs, "config");
    KeyOfConfig(created, diffs, "mediaType");
    KeyOfConfig(created, diffs, "MediaType");
    KeyOfConfig(created, diffs, "rootfs");
    assert "config"[0] == 'c' && "rootfs"[0] == 'r' && "mediaType"[0] == 'm' && "MediaType"[0] == 'M';
  }

  /** A config is no manifest and no index. */
  lemma ConfigIsNoManifest(lib: Lib, created: string, diffs: seq<SnapshotDiff>)
    requires lib.Valid()
    ensures var config := CommitConfig(SAMPLE, Obj([]), created, diffs);
      Examine(lib, lib.dumps(config), SAMPLE.architecture, SAMPLE.os).Fail?
  {
    hide CommitConfig;
    KeysOfConfig(created, diffs);
    var config := CommitConfig(SAMPLE, Obj([]), created, diffs);
    ConfigHasFields(created, diffs);
    EndToEnd.CommitConfigWellKeyed(SAMPLE, Obj([]), created, diffs);
    GetEither(config.fields, "mediaType", "MediaType");
  }

  lemma ConfigHasFields(created: string, diffs: seq<SnapshotDiff>)
    ensures CommitConfig(SAMPLE, Obj([]), created, diffs).Obj?
  {
  }

  lemma ManifestFields(lib: Lib, created: string, diffs: seq<SnapshotDiff>)
    ensures var manifest := CommitDocuments(lib, SAMPLE, Obj([]), created, diffs).manifest;
      && manifest.Obj? && Lookup(manifest.fields, "mediaType") == Some(Str(DOCKER_MANIFEST_V2))
      && GetValue(manifest, ["mediaType", "MediaType"]) == Ok(Str(DOCKER_MANIFEST_V2))
  {
    var g := CommitDocuments(lib, SAMPLE, Obj([]), created, diffs).manifest.fields;
    ManifestKeys();
    LookupFour(g[0], g[1], g[2], g[3], "mediaType");
    assert g == [g[0], g[1], g[2], g[3]];
    GetEither(g, "mediaType", "MediaType");
  }

  lemma ManifestWellKeyed(lib: Lib, created: string, diffs: seq<SnapshotDiff>)
    ensures WellKeyed(CommitDocuments(lib, SAMPLE, Obj([]), created, diffs).manifest)
  {
    hide CommitConfig, CommitDocuments, CommitManifest;
    var docs := CommitDocuments(lib, SAMPLE, Obj([]), created, diffs);
    var image := CommitManifest(SAMPLE, Obj([]), created, diffs);
    EndToEnd.CommitWellKeyed(SAMPLE, Obj([]), created, diffs);
    ParseToPrimitive(docs.ConfigDescriptor(lib));
    CommitDocumentsAre(lib, SAMPLE, Obj([]), created, diffs);
    ConfigIsValue(image);
    SetWellKeyed(image.fields, "config", docs.ConfigDescriptor(lib).ToPrimitive());
  }

  lemma ManifestIsManifest(lib: Lib, created: string, diffs: seq<SnapshotDiff>)
    requires lib.Valid()
    ensures Examine(lib, lib.dumps(CommitDocuments(lib, SAMPLE, Obj([]), created, diffs).manifest), SAMPLE.architecture,
                    SAMPLE.os).Found?
  {
    hide CommitDocuments, Choose;
    ManifestFields(lib, created, diffs);
    ManifestWellKeyed(lib, created, diffs);
  }

  /** The four documents at hand are four different ones. */
  lemma DocumentsDiffer(lib: Lib)
    requires lib.Valid()
    ensures Base(lib).config != Base(lib).manifest && SampleDocs(lib).config != SampleDocs(lib).manifest
    ensures SampleDocs(lib).config != Base(lib).config && SampleDocs(lib).config != Base(lib).manifest
    ensures SampleDocs(lib).manifest != Base(lib).config && SampleDocs(lib).manifest != Base(lib).manifest
  {
    hide CommitConfig;
    var diffs := [DiffOf(lib, SampleWorld(lib).snapshots, "leaf")];
    KeysOfConfig("then", []);
    KeysOfConfig("now", diffs);
    ManifestFields(lib, "then", []);
    ManifestFields(lib, "now", diffs);
    var (x, y) := (RootFs(Ids([])), RootFs(Ids(diffs)));
    assert |x.fields[1].1.items| == 0 && |y.fields[1].1.items| == 1;
    var (p, q) := (Base(lib).manifest, SampleDocs(lib).manifest);
    assert |p.fields[3].1.items| == 0 && |q.fields[3].1.items| == 1;
  }

  lemma SampleIsAcyclic(lib: Lib)
    requires CollisionFree(lib)
    ensures Sane(lib, SampleWorld(lib))
  {
    hide CommitDocuments, CommitConfig, Examine, Sound, Acyclic, Recorded;
    BaseConfig(lib);
    DocumentsDiffer(lib);
    ConfigIsNoManifest(lib, "then", []);
    ManifestIsManifest(lib, "then", []);
    SampleIsSound(lib);
    SampleIsRecorded(lib);
    SampleIsFlat(lib);
  }

  lemma SampleIsSound(lib: Lib)
    ensures Sound(lib, SampleWorld(lib))
  {
    hide CommitDocuments;
  }

  lemma SampleIsRecorded(lib: Lib)
    requires Base(lib).ConfigDescriptor(lib).digest != Base(lib).ManifestDescriptor(lib).digest
    ensures Recorded(lib, SampleWorld(lib), "base", Base(lib), [])
  {
    hide CommitDocuments;
  }

  lemma SampleIsFlat(lib: Lib)
    requires !Examine(lib, lib.dumps(Base(lib).config), SAMPLE.architecture, SAMPLE.os).Follow?
    requires !Examine(lib, lib.dumps(Base(lib).manifest), SAMPLE.architecture, SAMPLE.os).Follow?
    ensures Acyclic(lib, SampleWorld(lib).content, SAMPLE.architecture, SAMPLE.os, Flat)
  {
    hide CommitDocuments, Examine;
  }

  lemma BaseConfig(lib: Lib)
    ensures Base(lib).config == CommitConfig(SAMPLE, Obj([]), "then", [])
    ensures SampleDocs(lib).config
         == CommitConfig(SAMPLE, Obj([]), "now", [DiffOf(lib, SampleWorld(lib).snapshots, "leaf")])
  {
  }

  /** The configuration that the sample commit takes over is empty. */
  lemma SampleParent(lib: Lib, w: World)
    requires lib.Valid() && Acyclic(lib, w.content, SAMPLE.architecture, SAMPLE.os, Flat)
    requires Recorded(lib, w, "base", Base(lib), [])
    ensures FromParent(lib, w, SAMPLE, Flat, Ok(Obj([])))
  {
    hide CommitConfig, Acyclic, ReadImage, Recorded;
    var made := Made(0, Obj([]), []);
    assert LayerNames(made.diffs) == [];
    BaseIsRecorded(lib, w);
    EndToEnd.ReadsBack(lib, w, SAMPLE, "base", "then", made, SAMPLE.architecture, SAMPLE.os, Flat);
    var image := CommitManifest(SAMPLE, Obj([]), "then", []);
    ConfigHasFields("then", []);
    KeysOfConfig("then", []);
    GetEither(image.fields, "config", "Config");
    GetEither(CommitConfig(SAMPLE, Obj([]), "then", []).fields, "config", "Config");
    var f := image.fields;
    ManifestKeys();
    LookupFour(f[0], f[1], f[2], f[3], "config");
    assert f == [f[0], f[1], f[2], f[3]];
  }

  lemma BaseIsRecorded(lib: Lib, w: World)
    requires Recorded(lib, w, "base", Base(lib), [])
    ensures "base" in w.images
  {
    hide CommitDocuments;
  }

  /** The sample container can be walked: it has one snapshot. */
  lemma SampleWalk(lib: Lib)
    ensures var w := SampleWorld(lib);
      && Founded(w.snapshots, Flat)
      && Lineage(w.snapshots, Flat, "leaf") == ["leaf"]
      && WalkReady(w.snapshots, ["leaf"], true)
      && LineageDiffs(lib, w.snapshots, ["leaf"]) == [DiffOf(lib, w.snapshots, "leaf")]
      && LayerDigestSet(lib, w.snapshots, ["leaf"]) == {lib.Digest(lib.diff(map[], map[]))}
  {
    hide CommitDocuments;
    assert "leaf" in ["leaf"];
  }

  /** When nothing goes wrong, the sample container is committed. */
  lemma SampleCanBeCommitted(lib: Lib)
    requires CollisionFree(lib)
    ensures var w := SampleWorld(lib);
      && Sound(lib, w) && Acyclic(lib, w.content, SAMPLE.architecture, SAMPLE.os, Flat) && Founded(w.snapshots, Flat)
      && Unhindered(lib, w, SAMPLE, "now", Flat, Flat)
  {
    hide CommitConfig, Acyclic, Sound, Recorded, ParentConfig, DocumentsOf, ManifestLayers, WalkReady, LineageDiffs,
      LayerDigestSet, Lineage, Founded;
    var w := SampleWorld(lib);
    SampleIsAcyclic(lib);
    SampleParent(lib, w);
    SampleWalk(lib);
    SampleDocumentsAreNew(lib);
    CommitDocumentsAre(lib, SAMPLE, Obj([]), "now", [DiffOf(lib, w.snapshots, "leaf")]);
  }

  lemma SampleDocumentsAreNew(lib: Lib)
    requires CollisionFree(lib)
    ensures var stored := SampleWorld(lib).content.Keys + {lib.Digest(lib.diff(map[], map[]))};
      var docs := SampleDocs(lib);
      && docs.ConfigDescriptor(lib).digest !in stored && docs.ManifestDescriptor(lib).digest !in stored
      && docs.ConfigDescriptor(lib).digest != docs.ManifestDescriptor(lib).digest
  {
    hide CommitConfig, CommitDocuments;
    DocumentsDiffer(lib);
    BaseConfig(lib);
    var diffs := [DiffOf(lib, SampleWorld(lib).snapshots, "leaf")];
    ConfigHasFields("now", diffs);
    ManifestFields(lib, "now", diffs);
  }

  /** The sample world, with the config of the new image stored already. */
  function StoredWorld(lib: Lib): World {
    var w, config := SampleWorld(lib), SampleDocs(lib).config;
    w.(content := w.content[SampleDocs(lib).ConfigDescriptor(lib).digest := Blob(lib.dumps(config), map[])])
  }

  /** There the same commit fails, though nothing goes wrong: the store refuses what it has. */
  lemma SampleIsStoredAlready(lib: Lib)
    requires CollisionFree(lib)
    ensures var v := StoredWorld(lib);
      && Sound(lib, v) && Acyclic(lib, v.content, SAMPLE.architecture, SAMPLE.os, Flat) && Founded(v.snapshots, Flat)
      && Controllable(v.tasks, SAMPLE.id) && FromParent(lib, v, SAMPLE, Flat, Ok(Obj([])))
      && !Unhindered(lib, v, SAMPLE, "now", Flat, Flat)
  {
    hide CommitConfig, CommitDocuments, Acyclic, ParentConfig, WalkReady, LineageDiffs, Lineage, Founded, Ready,
      FromParent, Sound, Recorded;
    var v := StoredWorld(lib);
    StoredIsAcyclic(lib);
    SampleParent(lib, v);
    SampleWalk(lib);
    StoredAlready(lib, v, SAMPLE, "now", Flat, Flat, Obj([]));
  }

  /** A world whose image `base` is stored, and in which no index leads back to itself. */
  ghost predicate Sane(lib: Lib, w: World) {
    && Sound(lib, w)
    && Acyclic(lib, w.content, SAMPLE.architecture, SAMPLE.os, Flat)
    && Recorded(lib, w, "base", Base(lib), [])
  }

  /** Storing one more blob that is no index, under a new digest, keeps a world sane. */
  lemma OneMoreBlob(lib: Lib, w: World, data: Bytes)
    requires Sane(lib, w) && lib.Digest(data) !in w.content
    requires !Examine(lib, data, SAMPLE.architecture, SAMPLE.os).Follow?
    ensures Sane(lib, w.(content := w.content[lib.Digest(data) := Blob(data, map[])]))
  {
    hide Examine, CommitDocuments, IsLabelling;
  }

  lemma StoredIsAcyclic(lib: Lib)
    requires CollisionFree(lib)
    ensures Sane(lib, StoredWorld(lib))
  {
    hide CommitDocuments, CommitConfig, Examine, Sound, Acyclic, Recorded;
    SampleIsAcyclic(lib);
    SampleDocumentsAreNew(lib);
    BaseConfig(lib);
    ConfigIsNoManifest(lib, "now", [DiffOf(lib, SampleWorld(lib).snapshots, "leaf")]);
    OneMoreBlob(lib, SampleWorld(lib), lib.dumps(SampleDocs(lib).config));
  }

  // ---------------------------------------------------------------- both exist

  /** There is a library for the two worlds, and so there are such worlds. */
  lemma SamplesExist() returns (lib: Lib)
    ensures CollisionFree(lib)
    ensures var w := SampleWorld(lib);
      && Sane(lib, w) && Founded(w.snapshots, Flat)
      && Unhindered(lib, w, SAMPLE, "now", Flat, Flat)
    ensures var v := StoredWorld(lib);
      && Sane(lib, v) && Founded(v.snapshots, Flat)
      && !Unhindered(lib, v, SAMPLE, "now", Flat, Flat)
  {
    hide Sound, Acyclic, Recorded, Unhindered, SampleWorld, StoredWorld, Founded;
    lib := PlainLib();
    SampleIsAcyclic(lib);
    StoredIsAcyclic(lib);
    SampleCanBeCommitted(lib);
    SampleIsStoredAlready(lib);
  }
}
