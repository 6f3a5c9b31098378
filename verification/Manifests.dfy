/** Image manifests as documents: choosing one by platform, and what storing one writes. */
module Manifests {
  import opened Wrappers
  import opened Python
  import opened Json
  import opened Digests
  import opened Containerd

  const OCI_IMAGE_INDEX_V1 := "application/vnd.oci.image.index.v1+json"
  const OCI_IMAGE_MANIFEST_V1 := "application/vnd.oci.image.manifest.v1+json"
  const DOCKER_MANIFEST_LIST_V2 := "application/vnd.docker.distribution.manifest.list.v2+json"
  const DOCKER_MANIFEST_V2 := "application/vnd.docker.distribution.manifest.v2+json"
  const DOCKER_IMAGE_CONFIG_V1 := "application/vnd.docker.container.image.v1+json"
  const DOCKER_IMAGE_LAYER_GZIP := "application/vnd.docker.image.rootfs.diff.tar.gzip"

  /** What the image code raises. */
  datatype Error =
    | RpcFailed(code: Code)
    | BadData(data: DataError)
    | PlatformNotSupported(architecture: string, os: string)
    | MediaTypeNotSupported(mediaType: Json)

  function Config(manifest: Json): Result<Json, DataError> {
    GetValue(manifest, ["config", "Config"])
  }

  function DigestOf(d: Json): Result<string, DataError> {
    match GetValue(d, ["digest", "Digest"])
    case Err(e) => Err(e)
    case Ok(v) => if v.Str? then Ok(v.s) else Err(WrongType)
  }

  /** What is taken for a manifest's config and for a descriptor's digest, literally. */
  lemma MembersAre(j: Json, v: Json, digest: string)
    ensures Config(j) == Ok(v) <==> Field(j, "config", "Config", v)
    ensures DigestOf(j) == Ok(digest) <==> Field(j, "digest", "Digest", Str(digest))
  {
    hide Field;
    FieldIs(j, "config", "Config");
    FieldIs(j, "digest", "Digest");
  }

  /** The elements a `for` statement visits, for elements the loop can use. */
  function Items(j: Json): Result<seq<Json>, DataError> {
    match j
    case Arr(items) => Ok(items)
    case Obj(fields) => if |fields| == 0 then Ok([]) else Err(WrongType)
    case Str(s) => if |s| == 0 then Ok([]) else Err(WrongType)
    case _ => Err(WrongType)
  }

  // ---------------------------------------------------------------- choosing a manifest

  /** Whether an index entry is for this platform. */
  function EntryMatches(lib: Lib, entry: Json, architecture: string, os: string): Result<bool, DataError> {
    match GetValue(entry, ["platform", "Platform"])
    case Err(e) => Err(e)
    case Ok(platform) =>
      match (GetValue(platform, ["os", "Os"]), GetValue(platform, ["architecture", "Architecture"]))
      case (Err(e), _) => Err(e)
      case (_, Err(e)) => Err(e)
      case (Ok(o), Ok(a)) =>
        if !o.Str? then Err(WrongType)
        else if lib.lower(o.s) != os then Ok(false)
        else if !a.Str? then Err(WrongType)
        else Ok(lib.lower(a.s) == architecture)
  }

  /** `m["digest"]` of the chosen entry, used as the next key to read. */
  function EntryDigest(entry: Json): Result<string, Error> {
    match Subscript(entry, "digest")
    case Err(e) => Err(BadData(e))
    case Ok(v) => if v.Str? then Ok(v.s) else Err(BadData(WrongType))
  }

  /** The digest the scan of an index's entries settles on. */
  function Choose(lib: Lib, entries: seq<Json>, architecture: string, os: string): Result<string, Error>
    decreases |entries|
  {
    if |entries| == 0 then Err(PlatformNotSupported(architecture, os))
    else
      match EntryMatches(lib, entries[0], architecture, os)
      case Err(e) => Err(BadData(e))
      case Ok(matches) => if matches then EntryDigest(entries[0]) else Choose(lib, entries[1..], architecture, os)
  }

  /** Entry `i` is the first the scan does not pass over. */
  ghost predicate StopsAt(lib: Lib, entries: seq<Json>, architecture: string, os: string, i: int) {
    && 0 <= i < |entries|
    && EntryMatches(lib, entries[i], architecture, os) != Ok(false)
    && forall j | 0 <= j < i :: EntryMatches(lib, entries[j], architecture, os) == Ok(false)
  }

  /** The scan takes the first entry of the platform; it raises what the first unreadable entry raises
      when that comes first, and the platform error exactly when every entry is for another platform. */
  lemma {:induction false} ChooseIsFirst(lib: Lib, entries: seq<Json>, architecture: string,
                                         os: string) returns (i: nat)
    ensures i <= |entries|
    ensures i < |entries| ==> StopsAt(lib, entries, architecture, os, i)
    ensures i < |entries| ==>
      Choose(lib, entries, architecture, os) ==
        match EntryMatches(lib, entries[i], architecture, os)
        case Err(e) => Err(BadData(e))
        case Ok(_) => EntryDigest(entries[i])
    ensures i == |entries| ==>
      Choose(lib, entries, architecture, os) == Err(PlatformNotSupported(architecture, os))
    ensures i == |entries| ==>
      forall j | 0 <= j < |entries| :: EntryMatches(lib, entries[j], architecture, os) == Ok(false)
    decreases |entries|
  {
    if |entries| == 0 || EntryMatches(lib, entries[0], architecture, os) != Ok(false) {
      return 0;
    }
    var k := ChooseIsFirst(lib, entries[1..], architecture, os);
    i := k + 1;
    forall j | 0 <= j < i
      ensures EntryMatches(lib, entries[j], architecture, os) == Ok(false)
    {
      assert j > 0 ==> entries[1..][j - 1] == entries[j];
    }
  }

  /** An index entry for this platform: its os and architecture, lowered, are the ones asked for. */
  ghost predicate IsFor(lib: Lib, entry: Json, architecture: string, os: string) {
    exists p: Json, o: string, a: string ::
      EntryPlatform(entry, p, o, Str(a)) && lib.lower(o) == os && lib.lower(a) == architecture
  }

  /** An index entry for another: its os differs, or else its architecture. */
  ghost predicate IsForOther(lib: Lib, entry: Json, architecture: string, os: string) {
    exists p: Json, o: string, a: Json ::
      EntryPlatform(entry, p, o, a) && (lib.lower(o) != os || (a.Str? && lib.lower(a.s) != architecture))
  }

  ghost predicate EntryPlatform(entry: Json, p: Json, o: string, a: Json) {
    && Field(entry, "platform", "Platform", p)
    && Field(p, "os", "Os", Str(o))
    && Field(p, "architecture", "Architecture", a)
  }

  lemma EntryMatchesIs(lib: Lib, entry: Json, architecture: string, os: string)
    ensures EntryMatches(lib, entry, architecture, os) == Ok(true) <==> IsFor(lib, entry, architecture, os)
    ensures EntryMatches(lib, entry, architecture, os) == Ok(false) <==> IsForOther(lib, entry, architecture, os)
    ensures EntryMatches(lib, entry, architecture, os).Err? <==>
      !IsFor(lib, entry, architecture, os) && !IsForOther(lib, entry, architecture, os)
  {
    hide GetValue, Field;
    FieldIs(entry, "platform", "Platform");
    var platform := GetValue(entry, ["platform", "Platform"]);
    if platform.Ok? {
      var p := platform.value;
      FieldIs(p, "os", "Os");
      FieldIs(p, "architecture", "Architecture");
      var (o, a) := (GetValue(p, ["os", "Os"]), GetValue(p, ["architecture", "Architecture"]));
      if o.Ok? && a.Ok? && o.value.Str? {
        assert EntryPlatform(entry, p, o.value.s, a.value);
        var r := EntryMatches(lib, entry, architecture, os);
        assert r.Ok? ==> r.value == true || r.value == false;
      }
    }
  }

  /** Entry `i` is the first for the platform, and all before it are for others. */
  ghost predicate FirstFor(lib: Lib, entries: seq<Json>, architecture: string, os: string, i: int) {
    && 0 <= i < |entries| && IsFor(lib, entries[i], architecture, os)
    && forall j | 0 <= j < i :: IsForOther(lib, entries[j], architecture, os)
  }

  /** Entry `i` is that entry and `d` is its digest. */
  ghost predicate Picks(lib: Lib, entries: seq<Json>, architecture: string, os: string, i: int, d: string) {
    && FirstFor(lib, entries, architecture, os, i)
    && entries[i].Obj? && Lookup(entries[i].fields, "digest") == Some(Str(d))
  }

  /** The scan settles on a digest exactly when that is the digest of the first entry for the platform, all before it
      being for others; and it raises the platform error exactly when all entries are for others. */
  lemma ChooseIs(lib: Lib, entries: seq<Json>, architecture: string, os: string, d: string)
    ensures Choose(lib, entries, architecture, os) == Ok(d) <==>
      exists i :: Picks(lib, entries, architecture, os, i, d)
    ensures Choose(lib, entries, architecture, os) == Err(PlatformNotSupported(architecture, os)) <==>
      forall j | 0 <= j < |entries| :: IsForOther(lib, entries[j], architecture, os)
  {
    hide EntryMatches, IsFor, IsForOther, Choose;
    var i := ChooseIsFirst(lib, entries, architecture, os);
    forall j | 0 <= j < |entries|
      ensures EntryMatches(lib, entries[j], architecture, os) == Ok(true) <==> IsFor(lib, entries[j], architecture, os)
      ensures EntryMatches(lib, entries[j], architecture, os) == Ok(false)
         <==> IsForOther(lib, entries[j], architecture, os)
    {
      EntryMatchesIs(lib, entries[j], architecture, os);
    }
    if k :| Picks(lib, entries, architecture, os, k, d) {
      assert k == i;
    }
    if i < |entries| && EntryMatches(lib, entries[i], architecture, os) == Ok(true) {
      assert Choose(lib, entries, architecture, os) == EntryDigest(entries[i]);
      assert FirstFor(lib, entries, architecture, os, i);
      assert EntryDigest(entries[i]) == Ok(d) ==> Picks(lib, entries, architecture, os, i, d);
      assert Picks(lib, entries, architecture, os, i, d) ==> EntryDigest(entries[i]) == Ok(d);
    } else if i < |entries| {
      var matches := EntryMatches(lib, entries[i], architecture, os);
      assert matches.Err? by {
        EntryMatchesIs(lib, entries[i], architecture, os);
      }
    }
  }

  datatype Next = Found(manifest: Json) | Follow(digest: string) | Fail(error: Error)

  /** What one round of `_read_manifest` makes of the blob it read. */
  function Examine(lib: Lib, data: Bytes, architecture: string, os: string): Next {
    match lib.loads(data)
    case None => Fail(BadData(InvalidJson))
    case Some(content) =>
      match GetValue(content, ["mediaType", "MediaType"])
      case Err(e) => Fail(BadData(e))
      case Ok(mediaType) =>
        if mediaType == Str(DOCKER_MANIFEST_V2) || mediaType == Str(OCI_IMAGE_MANIFEST_V1) then Found(content)
        else if mediaType == Str(DOCKER_MANIFEST_LIST_V2) || mediaType == Str(OCI_IMAGE_INDEX_V1) then
          match Subscript(content, "manifests")
          case Err(e) => Fail(BadData(e))
          case Ok(manifests) =>
            match Items(manifests)
            case Err(e) => Fail(BadData(e))
            case Ok(entries) =>
              match Choose(lib, entries, architecture, os)
              case Err(e) => Fail(e)
              case Ok(digest) => Follow(digest)
        else Fail(MediaTypeNotSupported(mediaType))
  }

  /** What a blob is by its media type, literally: a manifest, an index to choose from, or nothing that is supported. */
  lemma ExamineIs(lib: Lib, data: Bytes, architecture: string, os: string, content: Json, mediaType: Json)
    requires lib.loads(data) == Some(content) && Field(content, "mediaType", "MediaType", mediaType)
    ensures var next := Examine(lib, data, architecture, os);
      var manifests := [Str("application/vnd.docker.distribution.manifest.v2+json"),
                        Str("application/vnd.oci.image.manifest.v1+json")];
      var indexes := [Str("application/vnd.docker.distribution.manifest.list.v2+json"),
                      Str("application/vnd.oci.image.index.v1+json")];
      && (mediaType in manifests ==> next == Found(content))
      && (mediaType in indexes ==>
          forall entries, d | Lookup(content.fields, "manifests") == Some(Arr(entries)) ::
            next == Follow(d) <==> Choose(lib, entries, architecture, os) == Ok(d))
      && (mediaType in indexes ==> !next.Found? && (next.Fail? ==> !next.error.MediaTypeNotSupported?))
      && (mediaType !in manifests && mediaType !in indexes ==> next == Fail(MediaTypeNotSupported(mediaType)))
  {
    hide Field, Choose;
    FieldIs(content, "mediaType", "MediaType");
    FieldIsObject(content, "mediaType", "MediaType", mediaType);
    forall entries: seq<Json>
      ensures Choose(lib, entries, architecture, os).Err? ==>
        !Choose(lib, entries, architecture, os).error.MediaTypeNotSupported?
    {
      var i := ChooseIsFirst(lib, entries, architecture, os);
    }
  }

  lemma FieldIsObject(d: Json, first: string, second: string, v: Json)
    requires Field(d, first, second, v)
    ensures d.Obj?
  {
  }

  type Content = map<string, Blob>

  /** Following entries always leads down: no index leads back to itself. */
  ghost predicate Acyclic(lib: Lib, content: Content, architecture: string, os: string, rank: string -> nat) {
    forall d | d in content ::
      match Examine(lib, content[d].data, architecture, os)
      case Follow(e) => rank(e) < rank(d)
      case _ => true
  }

  /** The result of resolving `digest`. */
  ghost function Resolve(lib: Lib, content: Content, architecture: string, os: string, rank: string -> nat,
                         digest: string)
    : Result<Json, Error>
    requires Acyclic(lib, content, architecture, os, rank)
    decreases rank(digest)
  {
    if digest !in content then Err(RpcFailed(NotFound))
    else
      match Examine(lib, content[digest].data, architecture, os)
      case Found(manifest) => Ok(manifest)
      case Fail(e) => Err(e)
      case Follow(next) => Resolve(lib, content, architecture, os, rank, next)
  }

  /** A walk from index to index: each digest is the one its predecessor chose. */
  ghost predicate Walk(lib: Lib, content: Content, architecture: string, os: string, path: seq<string>) {
    && |path| > 0
    && forall i | 0 <= i < |path| - 1 ::
      path[i] in content && Examine(lib, content[path[i]].data, architecture, os) == Follow(path[i + 1])
  }

  ghost predicate NoRepeats(path: seq<string>) {
    forall i, j | 0 <= i < j < |path| :: path[i] != path[j]
  }

  lemma {:induction false} WalkDescends(lib: Lib, content: Content, architecture: string, os: string,
                                        rank: string -> nat, path: seq<string>, i: nat, j: nat)
    requires Acyclic(lib, content, architecture, os, rank) && Walk(lib, content, architecture, os, path)
    requires i < j < |path|
    ensures rank(path[j]) < rank(path[i])
    decreases j
  {
    assert path[j - 1] in content && Examine(lib, content[path[j - 1]].data, architecture, os) == Follow(path[j]);
    if i < j - 1 {
      WalkDescends(lib, content, architecture, os, rank, path, i, j - 1);
    }
  }

  lemma {:induction false} DistinctFit(path: seq<string>, within: set<string>)
    requires NoRepeats(path) && forall i | 0 <= i < |path| :: path[i] in within
    ensures |path| <= |within|
    decreases |path|
  {
    if |path| > 0 {
      var last := path[|path| - 1];
      DistinctFit(path[..|path| - 1], within - {last});
    }
  }

  /** A walk that stops at `last` resolves to `r`. */
  ghost predicate Ends(lib: Lib, content: Content, architecture: string, os: string, last: string,
                       r: Result<Json, Error>) {
    if last !in content then r == Err(RpcFailed(NotFound))
    else
      match Examine(lib, content[last].data, architecture, os)
      case Found(manifest) => r == Ok(manifest)
      case Fail(e) => r == Err(e)
      case Follow(_) => false
  }

  /** Resolution is the end of one walk, which repeats no digest and so visits at most as many as are
      stored; the last blob, or its absence, determines the result. */
  lemma {:induction false} ResolveIsWalkEnd(lib: Lib, content: Content, architecture: string, os: string,
                                            rank: string -> nat, digest: string)
      returns (path: seq<string>)
    requires Acyclic(lib, content, architecture, os, rank)
    ensures Walk(lib, content, architecture, os, path) && path[0] == digest && NoRepeats(path)
    ensures |path| <= |content| + if path[|path| - 1] in content then 0 else 1
    ensures Ends(lib, content, architecture, os, path[|path| - 1],
                 Resolve(lib, content, architecture, os, rank, digest))
  {
    path := WalkFrom(lib, content, architecture, os, rank, digest);
    WalkFits(lib, content, architecture, os, rank, path);
  }

  lemma WalkFits(lib: Lib, content: Content, architecture: string, os: string, rank: string -> nat, path: seq<string>)
    requires Acyclic(lib, content, architecture, os, rank) && Walk(lib, content, architecture, os, path)
    ensures NoRepeats(path)
    ensures |path| <= |content| + if path[|path| - 1] in content then 0 else 1
  {
    forall i, j | 0 <= i < j < |path|
      ensures path[i] != path[j]
    {
      WalkDescends(lib, content, architecture, os, rank, path, i, j);
    }
    WalkStaysInside(lib, content, architecture, os, path);
    AllButLastFit(path, content.Keys);
  }

  lemma WalkStaysInside(lib: Lib, content: Content, architecture: string, os: string, path: seq<string>)
    requires Walk(lib, content, architecture, os, path)
    ensures forall i | 0 <= i < |path| - 1 :: path[i] in content.Keys
  {
  }

  lemma AllButLastFit(path: seq<string>, within: set<string>)
    requires |path| > 0 && NoRepeats(path) && forall i | 0 <= i < |path| - 1 :: path[i] in within
    ensures |path| <= |within| + if path[|path| - 1] in within then 0 else 1
  {
    if path[|path| - 1] in within {
      DistinctFit(path, within);
    } else {
      DistinctFit(path[..|path| - 1], within);
    }
  }

  lemma {:induction false} WalkFrom(lib: Lib, content: Content, architecture: string, os: string, rank: string -> nat,
                                    digest: string)
      returns (path: seq<string>)
    requires Acyclic(lib, content, architecture, os, rank)
    ensures Walk(lib, content, architecture, os, path) && path[0] == digest
    ensures Ends(lib, content, architecture, os, path[|path| - 1],
                 Resolve(lib, content, architecture, os, rank, digest))
    decreases rank(digest)
  {
    path := [digest];
    if digest in content {
      var next := Examine(lib, content[digest].data, architecture, os);
      if next.Follow? {
        var rest := WalkFrom(lib, content, architecture, os, rank, next.digest);
        path := [digest] + rest;
        assert path[1] == rest[0];
        forall i | 0 <= i < |path| - 1
          ensures path[i] in content && Examine(lib, content[path[i]].data, architecture, os) == Follow(path[i + 1])
        {
          if i > 0 {
            assert path[i] == rest[i - 1] && path[i + 1] == rest[i];
          }
        }
      }
    }
  }

  // ---------------------------------------------------------------- an image, read

  /** The manifest with its config descriptor replaced by the config itself. */
  ghost function ReadImage(lib: Lib, content: Content, architecture: string, os: string, rank: string -> nat,
                           digest: string)
    : Result<Json, Error>
    requires Acyclic(lib, content, architecture, os, rank)
  {
    match Resolve(lib, content, architecture, os, rank, digest)
    case Err(e) => Err(e)
    case Ok(manifest) =>
      match Config(manifest)
      case Err(e) => Err(BadData(e))
      case Ok(descriptor) =>
        match DigestOf(descriptor)
        case Err(e) => Err(BadData(e))
        case Ok(d) =>
          if d !in content then Err(RpcFailed(NotFound))
          else
            match lib.loads(content[d].data)
            case None => Err(BadData(InvalidJson))
            case Some(config) => Ok(Obj(Set(manifest.fields, "config", config)))
  }

  /** `d` is the digest a manifest gives for its config, and `config` the document stored there. */
  ghost predicate HasConfig(lib: Lib, content: Content, manifest: Json, descriptor: Json, d: string, config: Json) {
    && Field(manifest, "config", "Config", descriptor)
    && Field(descriptor, "digest", "Digest", Str(d))
    && d in content && lib.loads(content[d].data) == Some(config)
  }

  /** What is read of an image: the manifest that its digest resolves to, where "config" is the stored document that
      the manifest names there, and all other keys are as they were. */
  lemma ReadImageIs(lib: Lib, content: Content, architecture: string, os: string, rank: string -> nat, digest: string)
    requires Acyclic(lib, content, architecture, os, rank)
    ensures var image := ReadImage(lib, content, architecture, os, rank, digest);
      image.Ok? ==>
        && image.value.Obj?
        && exists manifest, descriptor, d, config ::
          && Resolve(lib, content, architecture, os, rank, digest) == Ok(manifest)
          && HasConfig(lib, content, manifest, descriptor, d, config)
          && Lookup(image.value.fields, "config") == Some(config)
          && manifest.Obj?
          && forall key :: key != "config" ==> Lookup(image.value.fields, key) == Lookup(manifest.fields, key)
    ensures forall manifest, descriptor, d, config ::
      Resolve(lib, content, architecture, os, rank, digest) == Ok(manifest)
      && HasConfig(lib, content, manifest, descriptor, d, config) ==>
        ReadImage(lib, content, architecture, os, rank, digest).Ok?
  {
    hide Acyclic, Examine, Field, Resolve, Lookup, Set;
    var resolved := Resolve(lib, content, architecture, os, rank, digest);
    if resolved.Ok? {
      var manifest := resolved.value;
      FieldIs(manifest, "config", "Config");
      if Config(manifest).Ok? {
        FieldIs(Config(manifest).value, "digest", "Digest");
      }
      var image := ReadImage(lib, content, architecture, os, rank, digest);
      if image.Ok? {
        var (descriptor, d) := (Config(manifest).value, DigestOf(Config(manifest).value).value);
        var config := lib.loads(content[d].data).value;
        FieldIsObject(manifest, "config", "Config", descriptor);
        assert HasConfig(lib, content, manifest, descriptor, d, config);
        forall key
          ensures Lookup(image.value.fields, key) ==
            if key == "config" then Some(config) else Lookup(manifest.fields, key)
        {
          LookupSet(manifest.fields, "config", config, key);
        }
      }
    }
  }

  // ---------------------------------------------------------------- an image, written or pushed

  /** The documents an image is stored and pushed as: its config, and its manifest with the config's
      descriptor in place of the config. */
  datatype Documents = Documents(config: Json, manifest: Json)
  {
    function ConfigDescriptor(lib: Lib): Descriptor {
      Descriptor.FromData(lib, DOCKER_IMAGE_CONFIG_V1, config)
    }

    function ManifestDescriptor(lib: Lib): Descriptor {
      Descriptor.FromData(lib, DOCKER_MANIFEST_V2, manifest)
    }
  }

  function DocumentsOf(lib: Lib, image: Json): Result<Documents, DataError> {
    match Config(image)
    case Err(e) => Err(e)
    case Ok(config) =>
      var descriptor := Descriptor.FromData(lib, DOCKER_IMAGE_CONFIG_V1, config);
      Ok(Documents(config, Obj(Set(image.fields, "config", descriptor.ToPrimitive()))))
  }

  /** The store holds both documents under their digests. */
  ghost predicate Holds(lib: Lib, content: Content, docs: Documents) {
    && docs.ConfigDescriptor(lib).digest in content
    && content[docs.ConfigDescriptor(lib).digest].data == lib.dumps(docs.config)
    && docs.ManifestDescriptor(lib).digest in content
    && content[docs.ManifestDescriptor(lib).digest].data == lib.dumps(docs.manifest)
  }

  predicate IsManifest(image: Json) {
    GetValue(image, ["mediaType", "MediaType"]) == Ok(Str(DOCKER_MANIFEST_V2)) ||
    GetValue(image, ["mediaType", "MediaType"]) == Ok(Str(OCI_IMAGE_MANIFEST_V1))
  }

  lemma GetEither(fields: Fields, first: string, second: string)
    ensures GetValue(Obj(fields), [first, second]) ==
      match Lookup(fields, first)
      case Some(v) => if !v.Null? then Ok(v) else GetLast(fields, second, [first, second])
      case None => GetLast(fields, second, [first, second])
  {
    var keys := [first, second];
    assert keys[1..] == [second] && keys[1..][1..] == [];
    assert FirstOf(fields, keys[1..], keys) == GetLast(fields, second, keys);
  }

  function GetLast(fields: Fields, key: string, keys: seq<string>): Result<Json, DataError> {
    var v := Lookup(fields, key);
    if v.Some? && !v.value.Null? then Ok(v.value) else Err(NoSuchKeys(keys))
  }

  lemma GetValueAfterSet(fields: Fields, key: string, value: Json, first: string, second: string)
    requires !value.Null?
    ensures key == first ==> GetValue(Obj(Set(fields, key, value)), [first, second]) == Ok(value)
    ensures key != first && key != second ==>
      GetValue(Obj(Set(fields, key, value)), [first, second]) == GetValue(Obj(fields), [first, second])
  {
    LookupSet(fields, key, value, first);
    LookupSet(fields, key, value, second);
    GetEither(Set(fields, key, value), first, second);
    GetEither(fields, first, second);
  }

  lemma KeysDiffer()
    ensures "config" != "mediaType" && "config" != "MediaType" && "config" != "Config" && "config" != "layers"
  {
    assert "config"[0] == 'c' && "mediaType"[0] == 'm' && "MediaType"[0] == 'M';
    assert "Config"[0] == 'C' && "layers"[0] == 'l';
  }

  /** The manifest that is written is found as one, and names its config. */
  lemma WrittenManifest(lib: Lib, image: Json, architecture: string, os: string)
    requires lib.Valid() && WellKeyed(image) && IsManifest(image) && DocumentsOf(lib, image).Ok?
    ensures var docs := DocumentsOf(lib, image).value;
      && Examine(lib, lib.dumps(docs.manifest), architecture, os) == Found(docs.manifest)
      && Config(docs.manifest) == Ok(docs.ConfigDescriptor(lib).ToPrimitive())
      && DigestOf(docs.ConfigDescriptor(lib).ToPrimitive()) == Ok(docs.ConfigDescriptor(lib).digest)
  {
    KeysDiffer();
    var docs := DocumentsOf(lib, image).value;
    var fields := image.fields;
    var primitive := docs.ConfigDescriptor(lib).ToPrimitive();
    ParseToPrimitive(docs.ConfigDescriptor(lib));
    SetWellKeyed(fields, "config", primitive);
    GetValueAfterSet(fields, "config", primitive, "mediaType", "MediaType");
    GetValueAfterSet(fields, "config", primitive, "config", "Config");
  }

  /** What was written reads back, and what is read back is pushed as the very documents that were
      written: for every image document, however its keys are spelled and ordered. */
  lemma WriteReadPush(lib: Lib, content: Content, architecture: string, os: string, rank: string -> nat, image: Json)
    requires lib.Valid() && Acyclic(lib, content, architecture, os, rank)
    requires WellKeyed(image) && IsManifest(image) && DocumentsOf(lib, image).Ok?
    requires Holds(lib, content, DocumentsOf(lib, image).value)
    ensures var docs := DocumentsOf(lib, image).value;
      var back := ReadImage(lib, content, architecture, os, rank, docs.ManifestDescriptor(lib).digest);
      back == Ok(Obj(Set(image.fields, "config", docs.config))) && DocumentsOf(lib, back.value) == Ok(docs)
  {
    KeysDiffer();
    var docs := DocumentsOf(lib, image).value;
    var fields := image.fields;
    var primitive := docs.ConfigDescriptor(lib).ToPrimitive();
    FirstOfWellKeyed(fields, ["config", "Config"], ["config", "Config"]);
    WrittenManifest(lib, image, architecture, os);
    SetSet(fields, "config", primitive, docs.config);
    ConfigIsValue(image);
    GetValueAfterSet(fields, "config", docs.config, "config", "Config");
    SetSet(fields, "config", docs.config, primitive);
  }

  lemma ConfigIsValue(image: Json)
    ensures Config(image).Ok? ==> image.Obj? && !Config(image).value.Null?
  {
    if image.Obj? {
      FirstOfIsValue(image.fields, ["config", "Config"], ["config", "Config"]);
    }
  }

  lemma {:induction false} FirstOfIsValue(fields: Fields, keys: seq<string>, all: seq<string>)
    ensures FirstOf(fields, keys, all).Ok? ==> !FirstOf(fields, keys, all).value.Null?
  {
    if |keys| > 0 {
      FirstOfIsValue(fields, keys[1..], all);
    }
  }

  // ---------------------------------------------------------------- garbage collection labels

  function Decimal(n: nat): string {
    if n < 10 then [('0' as int + n) as char] else Decimal(n / 10) + [('0' as int + n % 10) as char]
  }

  lemma {:induction false} DecimalIsInjective(m: nat, n: nat)
    requires Decimal(m) == Decimal(n)
    ensures m == n
    decreases m
  {
    assert Decimal(m)[|Decimal(m)| - 1] == ('0' as int + m % 10) as char;
    assert Decimal(n)[|Decimal(n)| - 1] == ('0' as int + n % 10) as char;
    DecimalLength(m);
    DecimalLength(n);
    if m >= 10 {
      assert Decimal(m / 10) == Decimal(m)[..|Decimal(m)| - 1] == Decimal(n)[..|Decimal(n)| - 1] == Decimal(n / 10);
      DecimalIsInjective(m / 10, n / 10);
    }
  }

  /** What a string of digits denotes. */
  function Denoted(digits: string): int {
    if |digits| == 0 then 0
    else Denoted(digits[..|digits| - 1]) * 10 + (digits[|digits| - 1] as int - '0' as int)
  }

  /** The decimal spelling of a number denotes it, in digits, without leading zeros. */
  lemma {:induction false} DecimalIs(n: nat)
    ensures Denoted(Decimal(n)) == n
    ensures |Decimal(n)| > 0 && forall i | 0 <= i < |Decimal(n)| :: '0' <= Decimal(n)[i] <= '9'
    ensures n > 0 ==> Decimal(n)[0] != '0'
  {
    var d := Decimal(n);
    if n < 10 {
      assert Denoted(d[..0]) == 0;
    } else {
      DecimalIs(n / 10);
      assert d[..|d| - 1] == Decimal(n / 10);
    }
  }

  lemma DecimalLength(n: nat)
    ensures |Decimal(n)| > 0 && (|Decimal(n)| > 1 <==> n >= 10)
  {
    if n >= 10 {
      DecimalLength(n / 10);
    }
  }

  const CONFIG_KEY := CONTENT_REF + ".config"

  function LayerKey(i: nat): string {
    CONTENT_REF + ".l." + Decimal(i)
  }

  lemma LayerKeysDiffer(i: nat, j: nat)
    ensures LayerKey(i) == LayerKey(j) ==> i == j
    ensures LayerKey(i) != CONFIG_KEY
    ensures CONTENT_REF <= LayerKey(i) && CONTENT_REF <= CONFIG_KEY
  {
    var n := |CONTENT_REF|;
    assert LayerKey(i)[n..] == ".l." + Decimal(i) && LayerKey(j)[n..] == ".l." + Decimal(j);
    assert (".l." + Decimal(i))[3..] == Decimal(i) && (".l." + Decimal(j))[3..] == Decimal(j);
    if LayerKey(i) == LayerKey(j) {
      DecimalIsInjective(i, j);
    }
    assert LayerKey(i)[n + 1] == 'l' && CONFIG_KEY[n + 1] == 'c';
    assert LayerKey(i)[..n] == CONTENT_REF && CONFIG_KEY[..n] == CONTENT_REF;
  }

  function LayerDigests(layers: seq<Json>): Result<seq<string>, DataError>
    decreases |layers|
  {
    if |layers| == 0 then Ok([])
    else
      var n := |layers| - 1;
      match LayerDigests(layers[..n])
      case Err(e) => Err(e)
      case Ok(ds) =>
        match DigestOf(layers[n])
        case Err(e) => Err(e)
        case Ok(d) => Ok(ds + [d])
  }

  /** The labels written with a manifest: one for the config, and one per layer. */
  ghost predicate IsLabelling(labels: map<string, string>, config: string, layers: seq<string>) {
    && CONFIG_KEY in labels && labels[CONFIG_KEY] == config
    && (forall i | 0 <= i < |layers| :: LayerKey(i) in labels && labels[LayerKey(i)] == layers[i])
    && |labels| == |layers| + 1
  }

  /** The label dictionary of `_write_manifest`. */
  method GcLabels(config: string, layers: seq<Json>) returns (r: Result<map<string, string>, DataError>)
    ensures r.Ok? <==> LayerDigests(layers).Ok?
    ensures r.Ok? ==> IsLabelling(r.value, config, LayerDigests(layers).value)
    ensures r.Err? ==> LayerDigests(layers) == Err(r.error)
  {
    var labels := map[CONFIG_KEY := config];
    for i := 0 to |layers|
      invariant LayerDigests(layers[..i]).Ok?
      invariant |LayerDigests(layers[..i]).value| == i
      invariant IsLabelling(labels, config, LayerDigests(layers[..i]).value)
      invariant forall k | k in labels :: k == CONFIG_KEY || exists j | 0 <= j < i :: k == LayerKey(j)
    {
      assert layers[..i + 1][..i] == layers[..i];
      var digest := DigestOf(layers[i]);
      if digest.Err? {
        FailsLater(layers, i + 1);
        return Err(digest.error);
      }
      LayerKeysDiffer(i, i);
      forall j | 0 <= j <= i
        ensures LayerKey(j) == LayerKey(i) ==> j == i
      {
        LayerKeysDiffer(j, i);
      }
      labels := labels[LayerKey(i) := digest.value];
    }
    assert layers[..|layers|] == layers;
    return Ok(labels);
  }

  lemma {:induction false} FailsLater(layers: seq<Json>, i: nat)
    requires i <= |layers| && LayerDigests(layers[..i]).Err?
    ensures LayerDigests(layers) == LayerDigests(layers[..i])
    decreases |layers|
  {
    if i == |layers| {
      assert layers[..i] == layers;
    } else {
      var n := |layers| - 1;
      assert layers[..n][..i] == layers[..i];
      FailsLater(layers[..n], i);
    }
  }

  /** Such labels, literally: one per document the manifest needs, and no more. */
  lemma LabellingIs(labels: map<string, string>, config: string, layers: seq<string>)
    requires IsLabelling(labels, config, layers)
    ensures ("containerd.io/gc.ref.content.config", config) in labels.Items
    ensures forall i | 0 <= i < |layers| ::
      ("containerd.io/gc.ref.content.l." + Decimal(i), layers[i]) in labels.Items
    ensures |labels| == |layers| + 1
  {
    assert "containerd.io/gc.ref.content.config" == CONFIG_KEY;
    forall i | 0 <= i < |layers|
      ensures ("containerd.io/gc.ref.content.l." + Decimal(i), layers[i]) in labels.Items
    {
      assert "containerd.io/gc.ref.content.l." + Decimal(i) == LayerKey(i);
    }
  }

  /** A blob with such labels keeps the config and every layer alive. */
  lemma LabellingRefs(blob: Blob, config: string, layers: seq<string>)
    requires IsLabelling(blob.labels, config, layers)
    ensures config in Refs(blob) && forall i | 0 <= i < |layers| :: layers[i] in Refs(blob)
  {
    LayerKeysDiffer(0, 0);
    assert blob.labels[CONFIG_KEY] in Refs(blob);
    forall i | 0 <= i < |layers|
      ensures layers[i] in Refs(blob)
    {
      LayerKeysDiffer(i, i);
      assert blob.labels[LayerKey(i)] in Refs(blob);
    }
  }
}
