/** Reading an image from the content store and writing one to it. */
module Images {
  import opened Wrappers
  import opened Python
  import opened Json
  import opened Digests
  import opened Containerd
  import opened Manifests

  /** The `for ... else` over the entries of an index. */
  method FindEntry(lib: Lib, entries: seq<Json>, architecture: string, os: string) returns (r: Result<string, Error>)
    ensures r == Choose(lib, entries, architecture, os)
  {
    for i := 0 to |entries|
      invariant Choose(lib, entries, architecture, os) == Choose(lib, entries[i..], architecture, os)
    {
      assert entries[i..][1..] == entries[i + 1..];
      match EntryMatches(lib, entries[i], architecture, os)
      case Err(e) => return Err(BadData(e));
      case Ok(matches) =>
        if matches {
          return EntryDigest(entries[i]);
        }
    }
    return Err(PlatformNotSupported(architecture, os));
  }

  /** A result that is a failed call's code, or else what the store determines; and that for sure, if `sure`. */
  ghost predicate FromStore<T>(sure: bool, r: Result<T, Error>, log: seq<Entry>, spec: Result<T, Error>) {
    && (if r.Err? && r.error.RpcFailed? then |log| > 0 && log[|log| - 1].reply == Err(r.error.code) else r == spec)
    && (sure ==> r == spec)
  }

  /** Everything a store that only shrinks can still make of a digest, it makes as before. */
  lemma {:induction false} AcyclicShrinks(lib: Lib, big: Content, small: Content, architecture: string, os: string,
                                          rank: string -> nat)
    requires Acyclic(lib, big, architecture, os, rank)
    requires forall d | d in small :: d in big && small[d] == big[d]
    ensures Acyclic(lib, small, architecture, os, rank)
  {
    hide Examine;
  }

  lemma {:induction false} ResolveShrinks(lib: Lib, big: Content, small: Content, architecture: string, os: string,
                                          rank: string -> nat, digest: string)
    requires Acyclic(lib, big, architecture, os, rank) && Acyclic(lib, small, architecture, os, rank)
    requires forall d | d in small :: d in big && small[d] == big[d]
    ensures Resolve(lib, small, architecture, os, rank, digest) == Resolve(lib, big, architecture, os, rank, digest)
         || Resolve(lib, small, architecture, os, rank, digest) == Err(RpcFailed(NotFound))
    decreases rank(digest)
  {
    hide Examine;
    if digest in small {
      var next := Examine(lib, small[digest].data, architecture, os);
      if next.Follow? {
        ResolveShrinks(lib, big, small, architecture, os, rank, next.digest);
      }
    }
  }

  lemma ReadImageShrinks(lib: Lib, big: Content, small: Content, architecture: string, os: string, rank: string -> nat,
                         digest: string)
    requires Acyclic(lib, big, architecture, os, rank) && Acyclic(lib, small, architecture, os, rank)
    requires forall d | d in small :: d in big && small[d] == big[d]
    ensures ReadImage(lib, small, architecture, os, rank, digest) == ReadImage(lib, big, architecture, os, rank, digest)
         || ReadImage(lib, small, architecture, os, rank, digest) == Err(RpcFailed(NotFound))
  {
    hide Examine;
    ResolveShrinks(lib, big, small, architecture, os, rank, digest);
  }

  /** One round of resolution. */
  lemma ResolveStep(lib: Lib, content: Content, architecture: string, os: string, rank: string -> nat, digest: string)
    requires Acyclic(lib, content, architecture, os, rank) && digest in content
    ensures var r, next := Resolve(lib, content, architecture, os, rank, digest), Examine(lib, content[digest].data,
                                                                                          architecture, os);
      && (next.Found? ==> r == Ok(next.manifest))
      && (next.Fail? ==> r == Err(next.error))
      && (next.Follow? ==>
            rank(next.digest) < rank(digest) && r == Resolve(lib, content, architecture, os, rank, next.digest))
  {
    hide Examine;
  }

  /** Every digest on the way from `digest` to its manifest stays. */
  ghost predicate WalkStays(lib: Lib, schedule: nat -> Move, w: World, architecture: string, os: string,
                            rank: string -> nat, digest: string)
    requires Acyclic(lib, w.content, architecture, os, rank)
    decreases rank(digest)
  {
    && Stays(schedule, w, digest)
    && (digest in w.content ==>
        match Examine(lib, w.content[digest].data, architecture, os)
        case Follow(next) => WalkStays(lib, schedule, w, architecture, os, rank, next)
        case _ => true)
  }

  /** When nothing is collected, everything stays. */
  lemma {:induction false} CalmWalkStays(lib: Lib, schedule: nat -> Move, w: World, architecture: string, os: string,
                                         rank: string -> nat, digest: string)
    requires Acyclic(lib, w.content, architecture, os, rank) && Calm(schedule)
    ensures WalkStays(lib, schedule, w, architecture, os, rank, digest)
    decreases rank(digest)
  {
    hide Examine, Calm;
    if digest in w.content && Examine(lib, w.content[digest].data, architecture, os).Follow? {
      var next := Examine(lib, w.content[digest].data, architecture, os).digest;
      CalmWalkStays(lib, schedule, w, architecture, os, rank, next);
    }
  }

  /** The digest of a manifest's config. */
  function ConfigDigest(manifest: Json): Option<string> {
    match Config(manifest)
    case Err(_) => None
    case Ok(descriptor) => if DigestOf(descriptor).Ok? then Some(DigestOf(descriptor).value) else None
  }

  /** So do the digests on the way, and that of the config. */
  ghost predicate ImageStays(lib: Lib, schedule: nat -> Move, w: World, architecture: string, os: string,
                             rank: string -> nat, digest: string)
    requires Acyclic(lib, w.content, architecture, os, rank)
  {
    && WalkStays(lib, schedule, w, architecture, os, rank, digest)
    && var manifest := Resolve(lib, w.content, architecture, os, rank, digest);
    (manifest.Ok? && ConfigDigest(manifest.value).Some? ==> Stays(schedule, w, ConfigDigest(manifest.value).value))
  }

  lemma CalmImageStays(lib: Lib, schedule: nat -> Move, w: World, architecture: string, os: string, rank: string -> nat,
                       digest: string)
    requires Acyclic(lib, w.content, architecture, os, rank) && Calm(schedule)
    ensures ImageStays(lib, schedule, w, architecture, os, rank, digest)
  {
    hide Resolve, Acyclic;
    CalmWalkStays(lib, schedule, w, architecture, os, rank, digest);
  }

  lemma StayingIsQuiet(lib: Lib, schedule: nat -> Move, w: World, architecture: string, os: string, rank: string -> nat,
                       digest: string)
    requires Acyclic(lib, w.content, architecture, os, rank)
    ensures ImageStays(lib, schedule, w, architecture, os, rank, digest) ==> Quiet(schedule)
  {
    hide Resolve, Acyclic, Lives;
  }

  /** An image that stays reads the same from what is left. */
  lemma {:induction false} WalkOutlasts(lib: Lib, schedule: nat -> Move, w: World, v: World, architecture: string,
                                        os: string, rank: string -> nat, digest: string)
    requires Acyclic(lib, w.content, architecture, os, rank) && Acyclic(lib, v.content, architecture, os, rank)
    requires Outlasts(schedule, w, v) && WalkStays(lib, schedule, w, architecture, os, rank, digest)
    ensures WalkStays(lib, schedule, v, architecture, os, rank, digest)
    ensures Resolve(lib, v.content, architecture, os, rank, digest) == Resolve(lib, w.content, architecture, os, rank,
                                                                               digest)
    decreases rank(digest)
  {
    hide Examine, Stays;
    assert Stays(schedule, w, digest);
    if digest in w.content && Examine(lib, w.content[digest].data, architecture, os).Follow? {
      var next := Examine(lib, w.content[digest].data, architecture, os).digest;
      WalkOutlasts(lib, schedule, w, v, architecture, os, rank, next);
    }
  }

  lemma ImageOutlasts(lib: Lib, schedule: nat -> Move, w: World, v: World, architecture: string, os: string,
                      rank: string -> nat, digest: string)
    requires Acyclic(lib, w.content, architecture, os, rank) && Acyclic(lib, v.content, architecture, os, rank)
    requires Outlasts(schedule, w, v)
    ensures ImageStays(lib, schedule, w, architecture, os, rank, digest) ==>
      && ImageStays(lib, schedule, v, architecture, os, rank, digest)
      && ReadImage(lib, v.content, architecture, os, rank, digest) == ReadImage(lib, w.content, architecture, os, rank,
                                                                                digest)
  {
    hide Acyclic, Stays, Resolve, WalkStays, GetValue;
    if ImageStays(lib, schedule, w, architecture, os, rank, digest) {
      WalkOutlasts(lib, schedule, w, v, architecture, os, rank, digest);
    }
  }

  /** `n` digests have been read, all stored and all of higher rank than the current one. */
  ghost predicate Descended(stored: set<string>, rank: string -> nat, visited: set<string>, current: string, n: int) {
    visited <= stored && |visited| == n && forall d | d in visited :: rank(current) < rank(d)
  }

  lemma NothingVisited(stored: set<string>, rank: string -> nat, current: string)
    ensures Descended(stored, rank, {}, current, 0)
  {
  }

  lemma Descend(stored: set<string>, rank: string -> nat, visited: set<string>, current: string, n: int, next: string)
    requires Descended(stored, rank, visited, current, n) && current in stored && rank(next) < rank(current)
    ensures Descended(stored, rank, visited + {current}, next, n + 1)
  {
    assert current !in visited;
  }

  lemma DescendedFits(stored: set<string>, rank: string -> nat, visited: set<string>, current: string, n: int)
    requires Descended(stored, rank, visited, current, n)
    ensures n <= |stored|
  {
    assert stored == visited + (stored - visited);
  }

  /** All of a blob: the joined responses of one content read. */
  method ReadBlob(server: Server, digest: string) returns (r: Result<Bytes, Code>)
    requires Valid(server.lib, server.State())
    modifies server
    ensures Valid(server.lib, server.State()) && Reading(old(server.State()), server.State())
    ensures |server.log| == |old(server.log)| + 1
    ensures r.Ok? ==> digest in old(server.world.content) && r.value == old(server.world.content)[digest].data
    ensures r.Err? ==> server.log[|server.log| - 1].reply == Err(r.error)
    ensures Still(server.schedule, old(server.world), server.world)
    ensures Stays(server.schedule, old(server.world), digest) && r.Err? ==>
      digest !in old(server.world.content) && r.error == NotFound
  {
    hide Reading, Called, Valid, Stays, Calm;
    ghost var before := server.State();
    if Calm(server.schedule) {
      CalmRead(server.lib, server.schedule, before, digest);
    }
    if Stays(server.schedule, server.world, digest) {
      ReadOfStaying(server.lib, server.schedule, before, digest);
    }
    var reply := server.Rpc(Read(digest));
    Asked(server.lib, server.schedule, before, Read(digest));
    ReadReplies(server.lib, server.schedule, before, digest);
    if reply.Err? {
      return Err(reply.error);
    }
    return Ok(reply.value.data);
  }

  lemma CalmRead(lib: Lib, schedule: nat -> Move, p: Past, digest: string)
    requires Calm(schedule)
    ensures Called(lib, schedule, p, Read(digest)).world == p.world
  {
    CalmCall(lib, schedule, p, Read(digest));
  }

  lemma {:induction false} ChooseNeverCalls(lib: Lib, entries: seq<Json>, architecture: string, os: string)
    ensures Choose(lib, entries, architecture, os).Err? ==> !Choose(lib, entries, architecture, os).error.RpcFailed?
    decreases |entries|
  {
    if |entries| > 0 {
      ChooseNeverCalls(lib, entries[1..], architecture, os);
    }
  }

  lemma ExamineNeverCalls(lib: Lib, data: Bytes, architecture: string, os: string)
    ensures var next := Examine(lib, data, architecture, os); next.Fail? ==> !next.error.RpcFailed?
  {
    forall entries: seq<Json>
      ensures Choose(lib, entries, architecture, os).Err? ==> !Choose(lib, entries, architecture, os).error.RpcFailed?
    {
      ChooseNeverCalls(lib, entries, architecture, os);
    }
  }

  /** The part of a round of `_read_manifest` after the read. */
  method NextDigest(lib: Lib, data: Bytes, architecture: string, os: string) returns (next: Next)
    ensures next == Examine(lib, data, architecture, os)
  {
    var content := lib.loads(data);
    if content.None? {
      return Fail(BadData(InvalidJson));
    }
    var mediaType := GetValue(content.value, ["mediaType", "MediaType"]);
    if mediaType.Err? {
      return Fail(BadData(mediaType.error));
    }
    if mediaType.value == Str(DOCKER_MANIFEST_V2) || mediaType.value == Str(OCI_IMAGE_MANIFEST_V1) {
      return Found(content.value);
    }
    if mediaType.value == Str(DOCKER_MANIFEST_LIST_V2) || mediaType.value == Str(OCI_IMAGE_INDEX_V1) {
      var manifests := Subscript(content.value, "manifests");
      if manifests.Err? {
        return Fail(BadData(manifests.error));
      }
      var entries := Items(manifests.value);
      if entries.Err? {
        return Fail(BadData(entries.error));
      }
      var digest := FindEntry(lib, entries.value, architecture, os);
      return if digest.Ok? then Follow(digest.value) else Fail(digest.error);
    }
    return Fail(MediaTypeNotSupported(mediaType.value));
  }

  /** One round of `_read_manifest`: the blob, and what it says to do next. */
  method ReadRound(server: Server, digest: string, architecture: string, os: string) returns (r: Result<Next, Code>)
    requires Valid(server.lib, server.State())
    modifies server
    ensures Valid(server.lib, server.State()) && Reading(old(server.State()), server.State())
    ensures |server.log| == |old(server.log)| + 1
    ensures r.Ok? ==> digest in old(server.world.content)
    ensures r.Ok? ==> r.value == Examine(server.lib, old(server.world.content)[digest].data, architecture, os)
    ensures r.Ok? && r.value.Fail? ==> !r.value.error.RpcFailed?
    ensures r.Err? ==> server.log[|server.log| - 1].reply == Err(r.error)
    ensures Still(server.schedule, old(server.world), server.world)
    ensures Stays(server.schedule, old(server.world), digest) && r.Err? ==>
      digest !in old(server.world.content) && r.error == NotFound
  {
    hide Examine, Reading, Valid, Stays, Still;
    var data := ReadBlob(server, digest);
    if data.Err? {
      return Err(data.error);
    }
    ExamineNeverCalls(server.lib, data.value, architecture, os);
    var next := NextDigest(server.lib, data.value, architecture, os);
    return Ok(next);
  }

  /** Where resolution stands: `current` is still to read, and decides the result. */
  ghost predicate Searching(lib: Lib, schedule: nat -> Move, start: Past, now: Past, architecture: string, os: string,
                            rank: string -> nat, digest: string, current: string, visited: set<string>)
    requires Acyclic(lib, start.world.content, architecture, os, rank)
  {
    && Reading(start, now) && Still(schedule, start.world, now.world)
    && Resolve(lib, start.world.content, architecture, os, rank, digest)
       == Resolve(lib, start.world.content, architecture, os, rank, current)
    && Descended(start.world.content.Keys, rank, visited, current, |now.log| - |start.log|)
    && (WalkStays(lib, schedule, start.world, architecture, os, rank, digest) ==>
        WalkStays(lib, schedule, start.world, architecture, os, rank, current))
  }

  lemma SearchBegins(lib: Lib, schedule: nat -> Move, start: Past, architecture: string, os: string,
                     rank: string -> nat, digest: string)
    requires Valid(lib, start) && Acyclic(lib, start.world.content, architecture, os, rank)
    ensures Searching(lib, schedule, start, start, architecture, os, rank, digest, digest, {})
  {
    hide Valid, Acyclic, Reading, Resolve, Still, WalkStays;
    ReadingReflexive(lib, start);
    StillReflexive(schedule, start.world);
    NothingVisited(start.world.content.Keys, rank, digest);
  }

  /** What a round that answers, or does not, means for the search. */
  lemma SearchRound(lib: Lib, schedule: nat -> Move, start: Past, before: Past, now: Past, architecture: string,
                    os: string, rank: string -> nat, digest: string, current: string, visited: set<string>,
                    next: Result<Next, Code>)
    requires Acyclic(lib, start.world.content, architecture, os, rank)
    requires Searching(lib, schedule, start, before, architecture, os, rank, digest, current, visited)
    requires Reading(before, now) && |now.log| == |before.log| + 1 && Still(schedule, before.world, now.world)
    requires next.Ok? ==> current in before.world.content
    requires next.Ok? ==> next.value == Examine(lib, before.world.content[current].data, architecture, os)
    requires next.Ok? && next.value.Fail? ==> !next.value.error.RpcFailed?
    requires next.Err? ==> now.log[|now.log| - 1].reply == Err(next.error)
    requires Stays(schedule, before.world, current) && next.Err? ==>
      current !in before.world.content && next.error == NotFound
    ensures Reading(start, now) && Still(schedule, start.world, now.world)
    ensures |now.log| <= |start.log| + |start.world.content| + 1
    ensures next.Ok? && next.value.Follow? ==>
      && rank(next.value.digest) < rank(current)
      && Searching(lib, schedule, start, now, architecture, os, rank, digest, next.value.digest, visited + {current})
    ensures next.Err? || !next.value.Follow? ==>
      FromStore(WalkStays(lib, schedule, start.world, architecture, os, rank, digest), Outcome(next), now.log,
                Resolve(lib, start.world.content, architecture, os, rank, digest))
  {
    hide Examine, Reading, Acyclic, Resolve, Descended, Still, Stays;
    var sure := WalkStays(lib, schedule, start.world, architecture, os, rank, digest);
    DescendedFits(start.world.content.Keys, rank, visited, current, |before.log| - |start.log|);
    ReadingAt(start, before, current);
    ReadingTransitive(start, before, now);
    StillTransitive(schedule, start.world, before.world, now.world);
    if next.Err? {
      if sure {
        ReadingStays(schedule, start, before, current);
        ResolveMissing(lib, start.world.content, architecture, os, rank, current);
      }
    } else {
      ResolveStep(lib, start.world.content, architecture, os, rank, current);
      if next.value.Follow? {
        Descend(start.world.content.Keys, rank, visited, current, |before.log| - |start.log|, next.value.digest);
      }
    }
  }

  /** The result of a search that ends with a round. */
  function Outcome(next: Result<Next, Code>): Result<Json, Error>
    requires next.Err? || !next.value.Follow?
  {
    match next
    case Err(code) => Err(RpcFailed(code))
    case Ok(Found(manifest)) => Ok(manifest)
    case Ok(Fail(e)) => Err(e)
  }

  lemma ResolveMissing(lib: Lib, content: Content, architecture: string, os: string, rank: string -> nat,
                       digest: string)
    requires Acyclic(lib, content, architecture, os, rank)
    ensures digest !in content ==> Resolve(lib, content, architecture, os, rank, digest) == Err(RpcFailed(NotFound))
  {
    hide Examine;
  }

  /** `ImageManifest._read_manifest`. */
  method ReadManifest(server: Server, architecture: string, os: string, digest: string, ghost rank: string -> nat)
      returns (r: Result<Json, Error>)
    requires Valid(server.lib, server.State())
    requires Acyclic(server.lib, server.world.content, architecture, os, rank)
    modifies server
    ensures Valid(server.lib, server.State()) && Reading(old(server.State()), server.State())
    ensures FromStore(WalkStays(server.lib, server.schedule, old(server.world), architecture, os, rank, digest), r,
                      server.log, Resolve(server.lib, old(server.world.content), architecture, os, rank, digest))
    ensures |server.log| <= |old(server.log)| + |old(server.world.content)| + 1
    ensures Still(server.schedule, old(server.world), server.world)
  {
    hide Examine, Reading, Valid, Acyclic, Resolve, Searching, WalkStays, FromStore, Still, Stays;
    var lib := server.lib;
    ghost var start := server.State();
    ghost var visited: set<string> := {};
    var current := digest;
    SearchBegins(lib, server.schedule, start, architecture, os, rank, digest);
    while true
      invariant Valid(lib, server.State())
      invariant Searching(lib, server.schedule, start, server.State(), architecture, os, rank, digest, current, visited)
      decreases rank(current)
    {
      ghost var before := server.State();
      var next := ReadRound(server, current, architecture, os);
      SearchRound(lib, server.schedule, start, before, server.State(), architecture, os, rank, digest, current,
                  visited, next);
      if next.Err? || !next.value.Follow? {
        return Outcome(next);
      }
      visited := visited + {current};
      current := next.value.digest;
    }
  }

  /** `ImageManifest.read`: the manifest, with the config read in place of its descriptor. */
  method ReadImageManifest(server: Server, architecture: string, os: string, digest: string, ghost rank: string -> nat)
      returns (r: Result<Json, Error>)
    requires Valid(server.lib, server.State())
    requires Acyclic(server.lib, server.world.content, architecture, os, rank)
    modifies server
    ensures Valid(server.lib, server.State()) && Reading(old(server.State()), server.State())
    ensures FromStore(ImageStays(server.lib, server.schedule, old(server.world), architecture, os, rank, digest), r,
                      server.log, ReadImage(server.lib, old(server.world.content), architecture, os, rank, digest))
    ensures Still(server.schedule, old(server.world), server.world)
  {
    hide Examine, Reading, Valid, Resolve, Acyclic, GetValue, DigestOf, Set, WalkStays, Stays, Still;
    var lib := server.lib;
    ghost var start := server.State();
    var manifest := ReadManifest(server, architecture, os, digest, rank);
    if manifest.Err? {
      return Err(manifest.error);
    }
    ConfigIsValue(manifest.value);
    var descriptor := Config(manifest.value);
    if descriptor.Err? {
      return Err(BadData(descriptor.error));
    }
    var configDigest := DigestOf(descriptor.value);
    if configDigest.Err? {
      return Err(BadData(configDigest.error));
    }
    ghost var before := server.State();
    var data := ReadBlob(server, configDigest.value);
    ReadingAt(start, before, configDigest.value);
    ReadingTransitive(start, before, server.State());
    StillTransitive(server.schedule, start.world, before.world, server.world);
    ReadingOutlasts(server.schedule, start, before);
    if data.Err? {
      return Err(RpcFailed(data.error));
    }
    var config := lib.loads(data.value);
    if config.None? {
      return Err(BadData(InvalidJson));
    }
    return Ok(Obj(Set(manifest.value.fields, "config", config.value)));
  }

  /** The record of an image. */
  method FindImage(server: Server, name: string) returns (r: Result<Descriptor, Code>)
    requires Valid(server.lib, server.State())
    modifies server
    ensures Valid(server.lib, server.State()) && Reading(old(server.State()), server.State())
    ensures r.Ok? ==> name in old(server.world.images) && r.value == old(server.world.images)[name]
    ensures |server.log| == |old(server.log)| + 1
    ensures r.Err? ==> server.log[|server.log| - 1].reply == Err(r.error)
    ensures Still(server.schedule, old(server.world), server.world)
    ensures Quiet(server.schedule) && r.Err? ==> name !in old(server.world.images) && r.error == NotFound
  {
    ghost var before := server.State();
    if Calm(server.schedule) {
      CalmCall(server.lib, server.schedule, before, GetImage(name));
    }
    var reply := server.Rpc(GetImage(name));
    Asked(server.lib, server.schedule, before, GetImage(name));
    if reply.Err? {
      return Err(reply.error);
    }
    return Ok(reply.value.target);
  }

  /** `Image.read`: from the image record to its manifest. */
  method ReadByName(server: Server, name: string, architecture: string, os: string, ghost rank: string -> nat)
      returns (r: Result<Json, Error>)
    requires Valid(server.lib, server.State())
    requires Acyclic(server.lib, server.world.content, architecture, os, rank)
    modifies server
    ensures Valid(server.lib, server.State()) && Reading(old(server.State()), server.State())
    ensures |server.log| > |old(server.log)|
    ensures r.Ok? ==> name in old(server.world.images)
    ensures name !in old(server.world.images) ==>
      r.Err? && r.error.RpcFailed? && CallFailed<()>(Err(r.error.code), server.log)
    ensures name in old(server.world.images) ==>
      var digest := old(server.world.images)[name].digest;
      FromStore(ImageStays(server.lib, server.schedule, old(server.world), architecture, os, rank, digest), r,
                server.log,
                ReadImage(server.lib, old(server.world.content), architecture, os, rank, digest))
    ensures Still(server.schedule, old(server.world), server.world)
  {
    hide Examine, Reading, Valid, ReadImage, ImageStays, Acyclic, Calm, Quiet, Still;
    ghost var start := server.State();
    var target := FindImage(server, name);
    if name in start.world.images {
      StayingIsQuiet(server.lib, server.schedule, start.world, architecture, os, rank, start.world.images[name].digest);
    }
    if target.Err? {
      return Err(RpcFailed(target.error));
    }
    ghost var before := server.State();
    ReadingShrinks(start, before);
    AcyclicShrinks(server.lib, start.world.content, before.world.content, architecture, os, rank);
    ReadingOutlasts(server.schedule, start, before);
    ImageOutlasts(server.lib, server.schedule, start.world, before.world, architecture, os, rank, target.value.digest);
    r := ReadImageManifest(server, architecture, os, target.value.digest, rank);
    ReadingShrinks(before, server.State());
    ReadingTransitive(start, before, server.State());
    StillTransitive(server.schedule, start.world, before.world, server.world);
    ReadImageShrinks(server.lib, start.world.content, before.world.content, architecture, os, rank,
                     target.value.digest);
  }

  // ---------------------------------------------------------------- writing

  /** `r` failed because the last call did. */
  ghost predicate CallFailed<T>(r: Result<T, Code>, log: seq<Entry>) {
    r.Err? && |log| > 0 && log[|log| - 1].reply == Err(r.error)
  }

  /** A content write in one piece, under a lease. The server's answer always passes the two
      assertions the program makes about it. */
  method PutBlob(server: Server, digest: string, data: Bytes, labels: map<string, string>, lease: LeaseId)
      returns (r: Result<(), Code>)
    requires Valid(server.lib, server.State()) && lease in server.world.leases
    requires server.lib.Digest(data) == digest
    modifies server
    ensures Valid(server.lib, server.State()) && Working(old(server.State()), server.State(), lease)
    ensures server.world.images == old(server.world.images) && server.world.snapshots == old(server.world.snapshots)
    ensures forall d | d in old(server.world.leases)[lease] ::
      d in server.world.content && server.world.content[d] == old(server.world.content)[d]
    ensures r.Ok? ==> digest in server.world.content && server.world.content[digest] == Blob(data, labels)
    ensures r.Ok? ==> digest in server.world.leases[lease]
    ensures r.Err? ==> CallFailed(r, server.log)
    ensures Quiet(server.schedule) && digest !in old(server.world.content) ==> r.Ok?
    ensures Calm(server.schedule) ==>
      if digest in old(server.world.content) then r == Err(AlreadyExists) else r.Ok?
    ensures Calm(server.schedule) ==> old(server.world.content.Keys) <= server.world.content.Keys
    ensures forall d | d in server.world.content :: d in old(server.world.content) || d == digest
  {
    ghost var before := server.State();
    if Calm(server.schedule) {
      CalmWrites(server.lib, server.schedule, before, digest, data, labels, lease);
    }
    var reply := server.Rpc(Write(digest, data, labels, Some(lease)));
    Worked(server.lib, server.schedule, before, Write(digest, data, labels, Some(lease)), lease);
    WriteReplies(server.lib, server.schedule, before, digest, data, labels, lease);
    if reply.Err? {
      return Err(reply.error);
    }
    assert reply.value.offset == |data|;
    assert reply.value.digest == digest;
    return Ok(());
  }

  /** The documents are stored under the lease, the manifest labelled with everything it refers to. */
  ghost predicate WrittenAs(lib: Lib, w: World, lease: LeaseId, docs: Documents, layers: seq<string>) {
    && Holds(lib, w.content, docs)
    && lease in w.leases
    && docs.ConfigDescriptor(lib).digest in w.leases[lease]
    && docs.ManifestDescriptor(lib).digest in w.leases[lease]
    && IsLabelling(w.content[docs.ManifestDescriptor(lib).digest].labels, docs.ConfigDescriptor(lib).digest, layers)
  }

  /** The layer digests of a manifest document, as `_write_manifest` finds them. */
  function ManifestLayers(manifest: Json): Result<seq<string>, DataError> {
    match Subscript(manifest, "layers")
    case Err(e) => Err(e)
    case Ok(layers) =>
      match Items(layers)
      case Err(e) => Err(e)
      case Ok(items) => LayerDigests(items)
  }

  /** Why a write fails: a call did, or the document lacks what is read from it. */
  ghost predicate WriteFailed(lib: Lib, image: Json, error: Error, log: seq<Entry>) {
    match error
    case RpcFailed(code) => CallFailed<()>(Err(code), log)
    case BadData(e) =>
      if DocumentsOf(lib, image).Err? then DocumentsOf(lib, image).error == e
      else ManifestLayers(DocumentsOf(lib, image).value.manifest) == Err(e)
    case _ => false
  }

  /** Nothing is in the way of storing an image: the document has what writing reads from it, and its two
      documents are new to the store. */
  ghost predicate Storable(lib: Lib, stored: set<string>, image: Json) {
    && DocumentsOf(lib, image).Ok?
    && var docs := DocumentsOf(lib, image).value;
    && ManifestLayers(docs.manifest).Ok?
    && docs.ConfigDescriptor(lib).digest !in stored
    && docs.ManifestDescriptor(lib).digest !in stored
    && docs.ManifestDescriptor(lib).digest != docs.ConfigDescriptor(lib).digest
  }

  /** The labels for a manifest. */
  method ManifestLabels(config: string, manifest: Json) returns (r: Result<map<string, string>, DataError>)
    ensures r.Ok? ==> ManifestLayers(manifest).Ok? && IsLabelling(r.value, config, ManifestLayers(manifest).value)
    ensures r.Err? ==> ManifestLayers(manifest) == Err(r.error)
  {
    var layers := Subscript(manifest, "layers");
    if layers.Err? {
      return Err(layers.error);
    }
    var items := Items(layers.value);
    if items.Err? {
      return Err(items.error);
    }
    r := GcLabels(config, items.value);
  }

  /** The config is stored and held. */
  ghost predicate ConfigWritten(lib: Lib, w: World, lease: LeaseId, docs: Documents) {
    var digest := docs.ConfigDescriptor(lib).digest;
    && lease in w.leases && digest in w.leases[lease]
    && digest in w.content && w.content[digest].data == lib.dumps(docs.config)
  }

  /** The blob is stored with exactly these labels. */
  ghost predicate Labelled(w: World, digest: string, labels: map<string, string>) {
    digest in w.content && w.content[digest].labels == labels
  }

  /** `ImageManifest.write`. */
  method WriteDocuments(server: Server, image: Json, configLabels: map<string, string>, lease: LeaseId)
      returns (r: Result<Descriptor, Error>)
    requires Valid(server.lib, server.State()) && lease in server.world.leases
    modifies server
    ensures Valid(server.lib, server.State()) && Working(old(server.State()), server.State(), lease)
    ensures server.world.images == old(server.world.images) && server.world.snapshots == old(server.world.snapshots)
    ensures r.Ok? ==> DocumentsOf(server.lib, image).Ok?
    ensures r.Ok? ==> var docs := DocumentsOf(server.lib, image).value;
      && r.value == docs.ManifestDescriptor(server.lib)
      && ManifestLayers(docs.manifest).Ok?
      && WrittenAs(server.lib, server.world, lease, docs, ManifestLayers(docs.manifest).value)
      && Labelled(server.world, docs.ConfigDescriptor(server.lib).digest, configLabels)
    ensures r.Err? ==> WriteFailed(server.lib, image, r.error, server.log)
    ensures Quiet(server.schedule) && Storable(server.lib, old(server.world.content.Keys), image) ==> r.Ok?
    ensures Calm(server.schedule) && r.Ok? ==> Storable(server.lib, old(server.world.content.Keys), image)
  {
    hide Working, Valid, DocumentsOf, ManifestLayers, Quiet, Calm, WrittenAs, ConfigWritten, Storable, Labelled;
    var lib := server.lib;
    ghost var start := server.State();
    WorkingReflexive(lib, start, lease);
    var documents := DocumentsOf(lib, image);
    StorableNeeds(lib, start.world.content.Keys, image);
    if documents.Err? {
      return Err(BadData(documents.error));
    }
    var docs := documents.value;
    var written := WriteConfig(server, docs, configLabels, lease);
    if written.Err? {
      return Err(written.error);
    }
    ghost var before := server.State();
    WorkingKeepsHeld(start, before, lease);
    StorableThen(lib, start.world.content.Keys, before.world.content.Keys, image);
    ConfigIsHeld(lib, before.world, lease, docs);
    written := WriteManifest(server, docs, lease);
    WorkingTransitive(start, before, server.State(), lease);
    if written.Err? {
      return Err(written.error);
    }
    LabelledStays(before.world, server.world, docs.ConfigDescriptor(lib).digest, configLabels);
    return Ok(docs.ManifestDescriptor(lib));
  }

  lemma LabelledStays(w: World, v: World, digest: string, labels: map<string, string>)
    requires Labelled(w, digest, labels) && digest in v.content && v.content[digest] == w.content[digest]
    ensures Labelled(v, digest, labels)
  {
  }

  lemma ConfigIsHeld(lib: Lib, w: World, lease: LeaseId, docs: Documents)
    requires ConfigWritten(lib, w, lease, docs)
    ensures lease in w.leases && docs.ConfigDescriptor(lib).digest in w.leases[lease]
  {
  }

  lemma StorableNeeds(lib: Lib, stored: set<string>, image: Json)
    ensures Storable(lib, stored, image) ==>
      && DocumentsOf(lib, image).Ok?
      && ManifestLayers(DocumentsOf(lib, image).value.manifest).Ok?
      && DocumentsOf(lib, image).value.ConfigDescriptor(lib).digest !in stored
  {
    hide DocumentsOf, ManifestLayers;
  }

  /** Once the config is stored, it is the manifest's turn. */
  lemma StorableThen(lib: Lib, stored: set<string>, mid: set<string>, image: Json)
    requires DocumentsOf(lib, image).Ok?
    ensures var docs := DocumentsOf(lib, image).value;
      && (Storable(lib, stored, image) && mid <= stored + {docs.ConfigDescriptor(lib).digest} ==>
          docs.ManifestDescriptor(lib).digest !in mid)
      && (docs.ConfigDescriptor(lib).digest !in stored && stored + {docs.ConfigDescriptor(lib).digest} <= mid
          && docs.ManifestDescriptor(lib).digest !in mid && ManifestLayers(docs.manifest).Ok?
          ==> Storable(lib, stored, image))
  {
    hide DocumentsOf, ManifestLayers;
  }

  /** `ImageManifest._write_config`. */
  method WriteConfig(server: Server, docs: Documents, labels: map<string, string>, lease: LeaseId)
      returns (r: Result<(), Error>)
    requires Valid(server.lib, server.State()) && lease in server.world.leases
    modifies server
    ensures Valid(server.lib, server.State()) && Working(old(server.State()), server.State(), lease)
    ensures server.world.images == old(server.world.images) && server.world.snapshots == old(server.world.snapshots)
    ensures r.Ok? ==> ConfigWritten(server.lib, server.world, lease, docs)
    ensures r.Ok? ==> Labelled(server.world, docs.ConfigDescriptor(server.lib).digest, labels)
    ensures r.Err? ==> r.error.RpcFailed? && CallFailed<()>(Err(r.error.code), server.log)
    ensures Quiet(server.schedule) && docs.ConfigDescriptor(server.lib).digest !in old(server.world.content) ==> r.Ok?
    ensures Calm(server.schedule) && r.Ok? ==>
      && docs.ConfigDescriptor(server.lib).digest !in old(server.world.content)
      && old(server.world.content.Keys) + {docs.ConfigDescriptor(server.lib).digest} <= server.world.content.Keys
    ensures server.world.content.Keys <= old(server.world.content.Keys) + {docs.ConfigDescriptor(server.lib).digest}
  {
    hide Working, Valid, Quiet, Calm;
    var config := docs.ConfigDescriptor(server.lib);
    ghost var start := server.State();
    var written := PutBlob(server, config.digest, server.lib.dumps(docs.config), labels, lease);
    WorkingKeepsHeld(start, server.State(), lease);
    return if written.Ok? then Ok(()) else Err(RpcFailed(written.error));
  }

  /** `ImageManifest._write_manifest`. */
  method WriteManifest(server: Server, docs: Documents, lease: LeaseId) returns (r: Result<(), Error>)
    requires Valid(server.lib, server.State()) && lease in server.world.leases
    modifies server
    ensures Valid(server.lib, server.State()) && Working(old(server.State()), server.State(), lease)
    ensures server.world.images == old(server.world.images) && server.world.snapshots == old(server.world.snapshots)
    ensures forall d | d in old(server.world.leases)[lease] ::
      d in server.world.content && server.world.content[d] == old(server.world.content)[d]
    ensures r.Ok? ==>
      var digest := docs.ManifestDescriptor(server.lib).digest;
      && ManifestLayers(docs.manifest).Ok?
      && lease in server.world.leases
      && digest in server.world.leases[lease] && digest in server.world.content
      && server.world.content[digest].data == server.lib.dumps(docs.manifest)
      && IsLabelling(server.world.content[digest].labels, docs.ConfigDescriptor(server.lib).digest,
                     ManifestLayers(docs.manifest).value)
    ensures r.Ok? && ConfigWritten(server.lib, old(server.world), lease, docs) ==>
      WrittenAs(server.lib, server.world, lease, docs, ManifestLayers(docs.manifest).value)
    ensures r.Err? && r.error.RpcFailed? ==> CallFailed<()>(Err(r.error.code), server.log)
    ensures r.Err? && !r.error.RpcFailed? ==>
      r.error.BadData? && ManifestLayers(docs.manifest) == Err(r.error.data)
    ensures Quiet(server.schedule) && ManifestLayers(docs.manifest).Ok?
      ==> docs.ManifestDescriptor(server.lib).digest !in old(server.world.content) ==> r.Ok?
    ensures Calm(server.schedule) && r.Ok? ==> docs.ManifestDescriptor(server.lib).digest !in old(server.world.content)
  {
    hide Working, Valid, DocumentsOf, ManifestLayers, IsLabelling, Quiet, Calm;
    var lib := server.lib;
    ghost var start := server.State();
    var manifest := docs.ManifestDescriptor(lib);
    var labels := ManifestLabels(docs.ConfigDescriptor(lib).digest, docs.manifest);
    if labels.Err? {
      WorkingReflexive(lib, server.State(), lease);
      HeldIsStored(lib, server.State(), lease);
      return Err(BadData(labels.error));
    }
    var written := PutBlob(server, manifest.digest, lib.dumps(docs.manifest), labels.value, lease);
    WorkingKeepsHeld(start, server.State(), lease);
    return if written.Ok? then Ok(()) else Err(RpcFailed(written.error));
  }

  lemma HeldIsStored(lib: Lib, p: Past, lease: LeaseId)
    requires Valid(lib, p) && lease in p.world.leases
    ensures p.world.leases[lease] <= p.world.content.Keys
  {
    SoundNow(lib, p);
  }

  lemma WorkingKeepsHeld(a: Past, b: Past, lease: LeaseId)
    requires Working(a, b, lease)
    ensures lease in a.world.leases && lease in b.world.leases && a.world.leases[lease] <= b.world.leases[lease]
  {
  }

  /** The record was put over a stored image: it names the stored manifest, and nothing the lease held
      has changed since. */
  ghost predicate Put(lib: Lib, mid: Past, now: Past, lease: LeaseId, name: string, image: Json,
                      configLabels: map<string, string>) {
    && DocumentsOf(lib, image).Ok?
    && var docs := DocumentsOf(lib, image).value;
    && ManifestLayers(docs.manifest).Ok?
    && WrittenAs(lib, mid.world, lease, docs, ManifestLayers(docs.manifest).value)
    && Labelled(mid.world, docs.ConfigDescriptor(lib).digest, configLabels)
    && Registering(mid, now, lease, name, docs.ManifestDescriptor(lib))
  }

  /** `Image.write`: the documents, then the record, updated or created. `mid` is the past before the record,
      or the last one if it does not come to that. */
  method WriteImage(server: Server, name: string, image: Json, configLabels: map<string, string>, lease: LeaseId)
      returns (r: Result<(), Error>, ghost mid: Past)
    requires Valid(server.lib, server.State()) && lease in server.world.leases
    modifies server
    ensures Valid(server.lib, server.State()) && Valid(server.lib, mid)
    ensures Working(old(server.State()), mid, lease)
    ensures server.State() == mid || Put(server.lib, mid, server.State(), lease, name, image, configLabels)
    ensures r.Ok? ==> Put(server.lib, mid, server.State(), lease, name, image, configLabels)
    ensures r.Ok? ==>
      server.world.images
      == old(server.world.images)[name := DocumentsOf(server.lib, image).value.ManifestDescriptor(server.lib)]
    ensures server.world.snapshots == old(server.world.snapshots)
    ensures r.Err? ==> WriteFailed(server.lib, image, r.error, server.log)
    ensures r.Err? && server.world.images != old(server.world.images) ==> RecordLost(old(server.log), server.log)
    ensures Quiet(server.schedule) && Storable(server.lib, old(server.world.content.Keys), image) ==> r.Ok?
    ensures Calm(server.schedule) && r.Ok? ==> Storable(server.lib, old(server.world.content.Keys), image)
  {
    hide Working, Registering, Valid, WrittenAs, DocumentsOf, ManifestLayers, Storable, Quiet, Calm;
    var lib := server.lib;
    ghost var start := server.State();
    var target := WriteDocuments(server, image, configLabels, lease);
    mid := server.State();
    if target.Err? {
      r := Err(target.error);
      return;
    }
    WorkingKeepsHeld(start, mid, lease);
    WorkingGrows(start, mid, lease);
    var done := PutRecord(server, name, target.value, lease);
    r := if done.Ok? then Ok(()) else Err(RpcFailed(done.error));
  }

  /** The calls that put a record: an update; and after it, exactly if the answer is that there is no such record
      (NotFound) or is Unknown, a create. The last answer counts. */
  ghost predicate Upserted(name: string, target: Descriptor, a: seq<Entry>, b: seq<Entry>, r: Result<(), Code>) {
    && |a| < |b| <= |a| + 2 && b[..|a|] == a
    && b[|a|].call == UpdateImage(name, target)
    && (|b| == |a| + 2 <==> b[|a|].reply == Err(Unknown) || b[|a|].reply == Err(NotFound))
    && (|b| == |a| + 2 ==> b[|a| + 1].call == CreateImage(name, target))
    && (r.Ok? <==> b[|b| - 1].reply.Ok?)
    && (r.Err? ==> b[|b| - 1].reply == Err(r.error))
  }

  /** The end of `Image.write`: update the record, or create it when the update says it is missing. */
  method PutRecord(server: Server, name: string, target: Descriptor, lease: LeaseId) returns (r: Result<(), Code>)
    requires Valid(server.lib, server.State()) && lease in server.world.leases
    modifies server
    ensures Valid(server.lib, server.State())
    ensures Registering(old(server.State()), server.State(), lease, name, target)
    ensures server.world.snapshots == old(server.world.snapshots)
    ensures server.world.images == old(server.world.images)
         || server.world.images == old(server.world.images)[name := target]
    ensures r.Ok? ==> server.world.images == old(server.world.images)[name := target]
    ensures r.Err? ==> CallFailed(r, server.log)
    ensures r.Err? && server.world.images != old(server.world.images) ==> RecordLost(old(server.log), server.log)
    ensures Quiet(server.schedule) ==> r.Ok?
    ensures Upserted(name, target, old(server.log), server.log, r)
  {
    hide Registering, Valid, Called, Quiet;
    ghost var start := server.State();
    var reply := server.Rpc(UpdateImage(name, target));
    Registers(server.lib, server.schedule, start, UpdateImage(name, target), lease);
    RecordReplies(server.lib, server.schedule, start, UpdateImage(name, target), lease);
    if reply.Ok? {
      return Ok(());
    }
    assert server.world.images != start.world.images ==> LostRecord(server.log[|start.log|]);
    if reply.error == Unknown || reply.error == NotFound {
      ghost var mid := server.State();
      reply := server.Rpc(CreateImage(name, target));
      Registers(server.lib, server.schedule, mid, CreateImage(name, target), lease);
      RecordReplies(server.lib, server.schedule, mid, CreateImage(name, target), lease);
      RegisteringTransitive(start, mid, server.State(), lease, name, target);
      assert reply.Err? && server.world.images != mid.world.images ==> LostRecord(server.log[|mid.log|]);
      assert server.log[|start.log|] == mid.log[|start.log|];
      return if reply.Ok? then Ok(()) else Err(reply.error);
    }
    return Err(reply.error);
  }
}
