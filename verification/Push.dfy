/** Pushing an image to a registry: `Image.push` and `ImageManifest.push`. */
module Push {
  import opened Wrappers
  import opened Python
  import opened Json
  import opened Digests
  import opened Rechunker
  import Handoff
  import opened Containerd
  import opened Manifests
  import opened Images

  // ---------------------------------------------------------------- the registry

  datatype RegistryCall =
    | GetVersion
    | CheckBlob(digest: string)
    | StartBlobUpload
    | UploadBlob(digest: string, length: int, data: Bytes)
    | PutManifest(ref: string, data: Bytes)

  /** How a request ends: answered, refused before it took effect, or with its answer lost after. */
  datatype RegistryOutcome = Answered | Rejected | AnswerLost

  datatype Store = Store(blobs: map<string, Bytes>, tags: map<string, Bytes>)

  /** What a request does; a blob must match the digest and length it is announced with. */
  function Accepts(lib: Lib, s: Store, call: RegistryCall): bool {
    call.UploadBlob? ==> lib.Digest(call.data) == call.digest && |call.data| == call.length
  }

  function Apply(lib: Lib, s: Store, call: RegistryCall): Store {
    match call
    case UploadBlob(digest, _, data) =>
      if !Accepts(lib, s, call) || digest in s.blobs then s else s.(blobs := s.blobs[digest := data])
    case PutManifest(ref, data) => s.(tags := s.tags[ref := data])
    case _ => s
  }

  /** The registry is content addressed. */
  ghost predicate StoreSound(lib: Lib, s: Store) {
    forall d | d in s.blobs :: lib.Digest(s.blobs[d]) == d
  }

  /** A request, the blobs the registry held when it arrived, and whether it was answered well. */
  datatype Request = Request(call: RegistryCall, held: set<string>, answered: bool)

  class Registry {
    const lib: Lib
    const schedule: nat -> RegistryOutcome
    const isV2: bool
    var store: Store
    var requests: seq<Request>

    constructor (lib: Lib, schedule: nat -> RegistryOutcome, isV2: bool, store: Store)
      ensures this.lib == lib && this.schedule == schedule && this.isV2 == isV2 && this.store == store && requests == []
    {
      this.lib := lib;
      this.schedule := schedule;
      this.isV2 := isV2;
      this.store := store;
      requests := [];
    }

    /** Any request; `ok` is whether an answer came and it was not an error. */
    method Send(call: RegistryCall) returns (ok: bool)
      modifies this
      ensures requests == old(requests) + [Request(call, old(store.blobs.Keys), ok)]
      ensures store == old(store) || store == Apply(lib, old(store), call)
      ensures ok ==> store == Apply(lib, old(store), call) && Accepts(lib, old(store), call)
      ensures ok <==> schedule(|old(requests)|) == Answered && Accepts(lib, old(store), call)
      ensures StoreSound(lib, old(store)) ==> StoreSound(lib, store)
    {
      var outcome := schedule(|requests|);
      ok := outcome == Answered && Accepts(lib, store, call);
      requests := requests + [Request(call, store.blobs.Keys, ok)];
      if outcome != Rejected {
        store := Apply(lib, store, call);
      }
    }

    /** `check_blob`: whether the registry says it has the blob, when it answers. */
    method HasBlob(digest: string) returns (r: Option<bool>)
      modifies this
      ensures requests == old(requests) + [Request(CheckBlob(digest), old(store.blobs.Keys), r.Some?)]
      ensures store == old(store)
      ensures r.Some? ==> r.value == (digest in store.blobs)
      ensures r.Some? <==> schedule(|old(requests)|) == Answered
    {
      var ok := Send(CheckBlob(digest));
      return if ok then Some(digest in store.blobs) else None;
    }
  }

  /** Nothing goes wrong with a registry that speaks version 2 and shares the hash with containerd. */
  ghost predicate Smooth(server: Server, registry: Registry) {
    && registry.lib == server.lib && registry.isV2
    && forall n: nat :: registry.schedule(n) == Answered
  }

  /** Every upload runs on to its end. */
  ghost predicate Unbroken(courses: nat -> Course) {
    forall i :: courses(i).ending.RunsOn?
  }

  /** A layer can be pushed: the registry has it, or it is stored with the size its descriptor gives, and stays. */
  ghost predicate Available(schedule: nat -> Move, w: World, s: Store, desc: Descriptor) {
    || desc.digest in s.blobs
    || (desc.digest in w.content && |w.content[desc.digest].data| == desc.size && Stays(schedule, w, desc.digest))
  }

  /** Nothing is in the way of pushing these layers. */
  ghost predicate AllAvailable(schedule: nat -> Move, w: World, s: Store, ids: seq<Json>, layers: seq<Json>) {
    forall i | 0 <= i < |ids| && i < |layers| ::
      ids[i].Str? && Descriptor.Parse(layers[i]).Ok? && Available(schedule, w, s, Descriptor.Parse(layers[i]).value)
  }

  /** Nothing is in the way of pushing an image. */
  ghost predicate Pushable(lib: Lib, schedule: nat -> Move, w: World, s: Store, image: Json) {
    && DocumentsOf(lib, image).Ok? && DiffIds(image).Ok? && Layers(image).Ok?
    && AllAvailable(schedule, w, s, DiffIds(image).value, Layers(image).value)
  }

  /** The store only grew, and every manifest was put when the registry held all of `needed`. */
  ghost predicate Orderly(before: Store, earlier: seq<Request>, after: Store, later: seq<Request>,
                          needed: set<string>) {
    && (forall d | d in before.blobs :: d in after.blobs && after.blobs[d] == before.blobs[d])
    && earlier <= later
    && forall i | |earlier| <= i < |later| && later[i].call.PutManifest? :: needed <= later[i].held
  }

  /** No manifest was put, and tags are as they were. */
  ghost predicate Uploading(before: Store, earlier: seq<Request>, after: Store, later: seq<Request>) {
    && (forall d | d in before.blobs :: d in after.blobs && after.blobs[d] == before.blobs[d])
    && earlier <= later
    && after.tags == before.tags
    && forall i | |earlier| <= i < |later| :: !later[i].call.PutManifest?
  }

  /** Exactly these calls were made, in this order. */
  ghost predicate Asked(earlier: seq<Request>, later: seq<Request>, calls: seq<RegistryCall>) {
    && |later| == |earlier| + |calls| && earlier <= later
    && forall i | 0 <= i < |calls| :: later[|earlier| + i].call == calls[i]
  }

  lemma AskedThen(a: seq<Request>, b: seq<Request>, c: seq<Request>, first: RegistryCall, second: RegistryCall,
                  third: RegistryCall)
    requires Asked(a, b, [first, second]) && Asked(b, c, [third])
    ensures Asked(a, c, [first, second, third])
  {
    forall i | 0 <= i < 3
      ensures c[|a| + i].call == [first, second, third][i]
    {
      assert i < 2 ==> c[|a| + i] == b[|a| + i] && [first, second, third][i] == [first, second][i];
      assert i == 2 ==> c[|a| + i] == c[|b| + 0] && [third][0] == third;
    }
  }

  lemma UploadingTransitive(s: Store, a: seq<Request>, t: Store, b: seq<Request>, u: Store, c: seq<Request>)
    requires Uploading(s, a, t, b) && Uploading(t, b, u, c)
    ensures Uploading(s, a, u, c)
  {
  }

  // ---------------------------------------------------------------- what is read from the image

  datatype PushError =
    | BadImage(error: DataError) | Unsupported(reason: Error) | ReadFailed(code: Code)
    | NoSuchImage | RegistryFailed | NotV2 | Closed

  datatype Message =
    | RefersTo
    | Preparing(diffId: string)
    | AlreadyThere(diffId: string)
    | Pushing(diffId: string, current: nat, total: int)
    | PushedLayer(diffId: string)
    | PushedTag(tag: string, digest: string, size: int)
    | Aux(tag: string, digest: string, size: int)

  /** `Image.layers`. */
  function Layers(image: Json): Result<seq<Json>, DataError> {
    match GetValue(image, ["layers", "Layers"])
    case Err(e) => Err(e)
    case Ok(layers) => Items(layers)
  }

  /** `Image.diff_ids`. */
  function DiffIds(image: Json): Result<seq<Json>, DataError> {
    match Config(image)
    case Err(e) => Err(e)
    case Ok(config) =>
      match GetValue(config, ["rootfs", "RootFS"])
      case Err(e) => Err(e)
      case Ok(rootfs) =>
        match GetValue(rootfs, ["diff_ids", "Diff_ids"])
        case Err(e) => Err(e)
        case Ok(ids) => Items(ids)
  }

  /** The two lists of an image, by its fields; where something empty stands for them, they are empty. */
  lemma ListsAre(image: Json, ids: seq<Json>, layers: seq<Json>)
    ensures Field(image, "layers", "Layers", Arr(layers)) ==> Layers(image) == Ok(layers)
    ensures Layers(image) == Ok(layers) ==>
      Field(image, "layers", "Layers", Arr(layers)) ||
      (layers == [] && (Field(image, "layers", "Layers", Obj([])) || Field(image, "layers", "Layers", Str(""))))
    ensures DiffIds(image) == Ok(ids) && ids != [] <==>
      ids != [] && exists config, rootfs :: FieldPath(image, config, rootfs, Arr(ids))
  {
    hide Field, GetValue;
    FieldIs(image, "layers", "Layers");
    FieldIs(image, "config", "Config");
    forall config, rootfs
      ensures FieldPath(image, config, rootfs, Arr(ids)) ==> DiffIds(image) == Ok(ids)
    {
      FieldIs(config, "rootfs", "RootFS");
      FieldIs(rootfs, "diff_ids", "Diff_ids");
    }
    if DiffIds(image).Ok? && ids != [] && DiffIds(image) == Ok(ids) {
      var config := Config(image).value;
      FieldIs(config, "rootfs", "RootFS");
      var rootfs := GetValue(config, ["rootfs", "RootFS"]).value;
      FieldIs(rootfs, "diff_ids", "Diff_ids");
      assert FieldPath(image, config, rootfs, Arr(ids));
    }
  }

  ghost predicate FieldPath(image: Json, config: Json, rootfs: Json, ids: Json) {
    && Field(image, "config", "Config", config)
    && Field(config, "rootfs", "RootFS", rootfs)
    && Field(rootfs, "diff_ids", "Diff_ids", ids)
  }

  function Min(a: nat, b: nat): nat {
    if a < b then a else b
  }

  const CHUNK_SIZE: nat := 1048576

  // ---------------------------------------------------------------- one layer

  /** How an upload ends after its course: it runs on to the registry's answer, breaks off, or is cancelled because
      the consumer of the messages closes the generator. */
  datatype Ending = RunsOn | BreaksOff | CutShort

  /** How one upload goes, apart from what the registry answers: how the content server cuts the blob into
      responses, how task and generator take turns, and what comes after that. */
  datatype Course = Course(split: Bytes -> seq<Bytes>, moves: seq<Handoff.Move>, ending: Ending)
  {
    ghost predicate Valid() {
      (forall data :: Join(split(data)) == data) && Handoff.Ongoing(moves)
    }
  }

  /** What a push owes to others when it fails: a failed call, a request not answered well or an upload that broke
      off, or the consumer that closed it. */
  ghost predicate Failed(error: PushError, broke: bool, closed: bool, a: seq<Entry>, b: seq<Entry>,
                         earlier: seq<Request>, later: seq<Request>) {
    match error
    case ReadFailed(code) => exists i :: |a| <= i < |b| && b[i].reply == Err(code)
    case RegistryFailed => broke || exists i :: |earlier| <= i < |later| && !later[i].answered
    case Closed => closed
    case _ => false
  }

  lemma FailedWider(error: PushError, broke: bool, closed: bool, moreBroke: bool, moreClosed: bool, a0: seq<Entry>,
                    a: seq<Entry>, b: seq<Entry>, q0: seq<Request>, q: seq<Request>, u: seq<Request>)
    requires Failed(error, broke, closed, a, b, q, u)
    requires |a0| <= |a| && |q0| <= |q| && (broke ==> moreBroke) && (closed ==> moreClosed)
    ensures Failed(error, moreBroke, moreClosed, a0, b, q0, u)
  {
    if error.ReadFailed? {
      var i :| |a| <= i < |b| && b[i].reply == Err(error.code);
    } else if error.RegistryFailed? && !broke {
      var i :| |q| <= i < |u| && !u[i].answered;
    }
  }

  function Pushings(diffId: string, size: int, values: seq<nat>): (messages: seq<Message>)
    ensures |messages| == |values|
    ensures forall i | 0 <= i < |values| :: messages[i] == Pushing(diffId, values[i], size)
  {
    seq(|values|, i requires 0 <= i < |values| => Pushing(diffId, values[i], size))
  }

  /** The values that the course of an upload makes its generator report. */
  ghost function Reported(desc: Descriptor, data: Bytes, course: Course): seq<nat> {
    Handoff.Reports(desc.size, 1048576, course.split(data), course.moves)
  }

  /** All that is said about a layer that ends up in the registry. If it was there, that; and if not, how it got there,
      in values that start at 0, increase, and stay within its size. */
  ghost predicate Report(messages: seq<Message>, diffId: string, size: int, there: bool) {
    if there then messages == [Preparing(diffId), AlreadyThere(diffId)]
    else exists values ::
      && Handoff.Ascending(values) && (forall v | v in values :: v <= size)
      && messages == [Preparing(diffId)] + Pushings(diffId, size, values) + [PushedLayer(diffId)]
  }

  /** What is said about a layer that does not. */
  ghost predicate BrokenReport(messages: seq<Message>, diffId: string, size: int) {
    exists values ::
      (values == [] || Handoff.Ascending(values)) && messages == [Preparing(diffId)] + Pushings(diffId, size, values)
  }

  /** `Image._push_layer`. */
  method PushLayer(server: Server, registry: Registry, diffId: string, desc: Descriptor, course: Course)
      returns (r: Result<(), PushError>, messages: seq<Message>)
    requires Valid(server.lib, server.State()) && course.Valid()
    modifies server, registry
    ensures Valid(server.lib, server.State()) && Reading(old(server.State()), server.State())
    ensures Uploading(old(registry.store), old(registry.requests), registry.store, registry.requests)
    ensures r.Ok? ==> desc.digest in registry.store.blobs
    ensures r.Ok? && desc.digest !in old(registry.store.blobs) ==>
      && desc.digest in old(server.world.content)
      && registry.store.blobs[desc.digest] == old(server.world.content)[desc.digest].data
      && desc.size == |registry.store.blobs[desc.digest]|
      && Asked(old(registry.requests), registry.requests,
               [CheckBlob(desc.digest), StartBlobUpload,
                UploadBlob(desc.digest, desc.size, registry.store.blobs[desc.digest])])
      && messages == [Preparing(diffId)]
         + Pushings(diffId, desc.size, Reported(desc, registry.store.blobs[desc.digest], course))
         + [PushedLayer(diffId)]
    ensures BlobsFrom(old(registry.store), registry.store, old(server.world.content), {})
    ensures StoreSound(registry.lib, old(registry.store)) ==> StoreSound(registry.lib, registry.store)
    ensures r.Ok? ==> Report(messages, diffId, desc.size, desc.digest in old(registry.store.blobs))
    ensures r.Err? ==> BrokenReport(messages, diffId, desc.size)
    ensures desc.digest in old(registry.store.blobs) ==>
      && registry.store == old(registry.store)
      && registry.requests ==
         old(registry.requests) + [Request(CheckBlob(desc.digest), old(registry.store.blobs.Keys), r.Ok?)]
      && (r.Err? ==> messages == [Preparing(diffId)])
    ensures AtMost(old(registry.store), registry.store, desc.digest)
    ensures Still(server.schedule, old(server.world), server.world)
    ensures r.Err? ==>
      Failed(r.error, course.ending.BreaksOff?, course.ending.CutShort?, old(server.log), server.log,
             old(registry.requests), registry.requests)
    ensures Smooth(server, registry) && course.ending.RunsOn?
      ==> Available(server.schedule, old(server.world), old(registry.store), desc) ==> r.Ok?
  {
    hide Valid, Reading, StoreSound, Stays, Still, Handoff.Ascending, BlobsFrom, Failed;
    ghost var s0, q0, content := registry.store, registry.requests, server.world.content;
    NothingSent(s0, q0, content);
    StillReflexive(server.schedule, server.world);
    messages := [Preparing(diffId)];
    NothingPushed(diffId, desc.size);
    ReadingReflexive(server.lib, server.State());
    var exists_ := registry.HasBlob(desc.digest);
    if exists_.None? {
      Unanswered(course.ending.BreaksOff?, course.ending.CutShort?, server.log, server.log, q0, registry.requests);
      return Err(RegistryFailed), messages;
    }
    if exists_.value {
      return Ok(()), messages + [AlreadyThere(diffId)];
    }
    var started := registry.Send(StartBlobUpload);
    if !started {
      Unanswered(course.ending.BreaksOff?, course.ending.CutShort?, server.log, server.log, q0, registry.requests);
      return Err(RegistryFailed), messages;
    }
    ghost var q2 := registry.requests;
    var values;
    r, values := Transfer(server, registry, desc, course);
    if r.Err? {
      FailedWider(r.error, course.ending.BreaksOff?, course.ending.CutShort?, course.ending.BreaksOff?,
                  course.ending.CutShort?, old(server.log), old(server.log), server.log, q0, q2, registry.requests);
    }
    messages := messages + Pushings(diffId, desc.size, values);
    if r.Ok? {
      AskedThen(q0, q2, registry.requests, CheckBlob(desc.digest), StartBlobUpload,
                UploadBlob(desc.digest, desc.size, content[desc.digest].data));
      messages := messages + [PushedLayer(diffId)];
    }
  }

  /** The registry has at most this one blob more. */
  ghost predicate AtMost(before: Store, after: Store, digest: string) {
    after.blobs.Keys <= before.blobs.Keys + {digest}
  }

  lemma NothingPushed(diffId: string, size: int)
    ensures BrokenReport([Preparing(diffId)], diffId, size)
  {
    assert [Preparing(diffId)] == [Preparing(diffId)] + Pushings(diffId, size, []);
  }

  /** `Image._push_layer` around its upload task, and the task, `Image._push_layer_monolithic`: until both are
      over, with the values reported meanwhile. */
  method Transfer(server: Server, registry: Registry, desc: Descriptor, course: Course)
      returns (r: Result<(), PushError>, values: seq<nat>)
    requires Valid(server.lib, server.State()) && course.Valid()
    modifies server, registry
    ensures Valid(server.lib, server.State()) && Reading(old(server.State()), server.State())
    ensures Uploading(old(registry.store), old(registry.requests), registry.store, registry.requests)
    ensures r.Ok? ==> desc.digest in registry.store.blobs
    ensures r.Ok? && desc.digest !in old(registry.store.blobs) ==>
      && desc.digest in old(server.world.content)
      && registry.store.blobs[desc.digest] == old(server.world.content)[desc.digest].data
      && desc.size == |registry.store.blobs[desc.digest]|
    ensures r.Ok? ==>
      && desc.digest in old(server.world.content)
      && Asked(old(registry.requests), registry.requests,
               [UploadBlob(desc.digest, desc.size, old(server.world.content)[desc.digest].data)])
      && values == Reported(desc, old(server.world.content)[desc.digest].data, course)
    ensures BlobsFrom(old(registry.store), registry.store, old(server.world.content), {})
    ensures AtMost(old(registry.store), registry.store, desc.digest)
    ensures StoreSound(registry.lib, old(registry.store)) ==> StoreSound(registry.lib, registry.store)
    ensures Handoff.Ascending(values) && (r.Ok? ==> forall v | v in values :: v <= desc.size)
    ensures Still(server.schedule, old(server.world), server.world)
    ensures r.Err? ==>
      Failed(r.error, course.ending.BreaksOff?, course.ending.CutShort?, old(server.log), server.log,
             old(registry.requests), registry.requests)
    ensures Smooth(server, registry) && course.ending.RunsOn? && desc.digest in old(server.world.content) ==>
      |old(server.world.content)[desc.digest].data| == desc.size ==>
        Stays(server.schedule, old(server.world), desc.digest) ==> r.Ok?
  {
    hide Valid, Reading, StoreSound, Stays, Still, Handoff.Ascending, Handoff.OutOfChunks, Uploading, BlobsFrom,
      Accepts, Apply, Failed;
    var lib := registry.lib;
    ghost var s0, q0, content, log0 := registry.store, registry.requests, server.world.content, server.log;
    NothingSent(s0, q0, content);
    StoredUnderDigest(server.lib, server.State());
    var data := ReadBlob(server, desc.digest);
    if data.Err? {
      values := Handoff.BreakOff(desc.size, CHUNK_SIZE, [], course.moves);
      ReadDidFail(data.error, course.ending.BreaksOff?, course.ending.CutShort?, log0, server.log, q0);
      return Err(ReadFailed(data.error)), values;
    }
    OwnFailure(course.ending.BreaksOff?, course.ending.CutShort?, log0, server.log, q0, q0);
    if course.ending.BreaksOff? {
      values := Handoff.BreakOff(desc.size, CHUNK_SIZE, course.split(data.value), course.moves);
      return Err(RegistryFailed), values;
    }
    if course.ending.CutShort? {
      values := CloseUpload(registry, desc, data.value, course, content);
      OwnFailure(course.ending.BreaksOff?, course.ending.CutShort?, log0, server.log, q0, registry.requests);
      return Err(Closed), values;
    }
    r, values := FinishUpload(registry, desc, data.value, course, content);
    if r.Err? {
      Unanswered(course.ending.BreaksOff?, course.ending.CutShort?, log0, server.log, q0, registry.requests);
    }
  }

  /** The upload of a stored blob, to the registry's answer. */
  method FinishUpload(registry: Registry, desc: Descriptor, data: Bytes, course: Course, ghost content: Content)
      returns (r: Result<(), PushError>, values: seq<nat>)
    requires course.Valid() && desc.digest in content && content[desc.digest].data == data
    modifies registry
    ensures Uploading(old(registry.store), old(registry.requests), registry.store, registry.requests)
    ensures BlobsFrom(old(registry.store), registry.store, content, {})
    ensures AtMost(old(registry.store), registry.store, desc.digest)
    ensures StoreSound(registry.lib, old(registry.store)) ==> StoreSound(registry.lib, registry.store)
    ensures Asked(old(registry.requests), registry.requests, [UploadBlob(desc.digest, desc.size, data)])
    ensures r.Ok? ==> desc.digest in registry.store.blobs && desc.size == |data|
    ensures r.Ok? && desc.digest !in old(registry.store.blobs) ==> registry.store.blobs[desc.digest] == data
    ensures r.Err? ==> r.error == RegistryFailed && !registry.requests[|registry.requests| - 1].answered
    ensures registry.lib.Digest(data) == desc.digest && |data| == desc.size
      ==> registry.schedule(|old(registry.requests)|) == Answered ==> r.Ok?
    ensures Handoff.Ascending(values) && (r.Ok? ==> forall v | v in values :: v <= desc.size)
    ensures values == Reported(desc, data, course)
  {
    hide StoreSound, Handoff.Ascending, Handoff.OutOfChunks, Uploading, BlobsFrom, Accepts, Apply;
    ghost var s0, q0 := registry.store, registry.requests;
    var lib := registry.lib;
    var responses := course.split(data);
    var accepts := body => lib.Digest(body) == desc.digest && |body| == desc.size;
    var push := Handoff.HandOver(desc.size, CHUNK_SIZE, responses, accepts, course.moves);
    var sent := registry.Send(UploadBlob(desc.digest, desc.size, Handed(push.done)));
    LayerSent(lib, s0, q0, registry.store, registry.requests, desc, content, sent);
    var pushed;
    pushed, values := Handoff.Conclude(push, sent, desc.size, CHUNK_SIZE, responses, accepts, course.moves);
    return if pushed then Ok(()) else Err(RegistryFailed), values;
  }

  /** The upload of a stored blob, cancelled with its generator. If the whole body was out, the registry may have
      taken it, though nobody hears of that. */
  method CloseUpload(registry: Registry, desc: Descriptor, data: Bytes, course: Course, ghost content: Content)
      returns (values: seq<nat>)
    requires course.Valid() && desc.digest in content && content[desc.digest].data == data
    modifies registry
    ensures Uploading(old(registry.store), old(registry.requests), registry.store, registry.requests)
    ensures BlobsFrom(old(registry.store), registry.store, content, {})
    ensures AtMost(old(registry.store), registry.store, desc.digest)
    ensures StoreSound(registry.lib, old(registry.store)) ==> StoreSound(registry.lib, registry.store)
    ensures |old(registry.requests)| <= |registry.requests|
    ensures Handoff.Ascending(values) && values == Reported(desc, data, course)
  {
    hide StoreSound, Handoff.Ascending, Uploading, BlobsFrom, Accepts, Apply;
    ghost var s0, q0 := registry.store, registry.requests;
    NothingSent(s0, q0, content);
    var body;
    values, body := Handoff.CloseDown(desc.size, CHUNK_SIZE, course.split(data), course.moves);
    if body.Some? {
      var unheard := registry.Send(UploadBlob(desc.digest, desc.size, body.value));
      LayerSent(registry.lib, s0, q0, registry.store, registry.requests, desc, content, unheard);
    }
  }

  lemma ReadDidFail(code: Code, broke: bool, closed: bool, a: seq<Entry>, b: seq<Entry>, q: seq<Request>)
    requires |a| < |b| && b[|b| - 1].reply == Err(code)
    ensures Failed(ReadFailed(code), broke, closed, a, b, q, q)
  {
  }

  lemma OwnFailure(broke: bool, closed: bool, a: seq<Entry>, b: seq<Entry>, q: seq<Request>, u: seq<Request>)
    ensures broke ==> Failed(RegistryFailed, broke, closed, a, b, q, u)
    ensures closed ==> Failed(Closed, broke, closed, a, b, q, u)
  {
  }

  lemma NothingSent(s: Store, q: seq<Request>, content: Content)
    ensures Uploading(s, q, s, q) && BlobsFrom(s, s, content, {})
    ensures forall digest :: AtMost(s, s, digest)
  {
  }

  /** What becomes of the registry when the stored blob of a descriptor is sent. */
  lemma LayerSent(lib: Lib, s: Store, a: seq<Request>, t: Store, b: seq<Request>, desc: Descriptor, content: Content,
                  ok: bool)
    requires desc.digest in content
    requires var call := UploadBlob(desc.digest, desc.size, content[desc.digest].data);
      && b == a + [Request(call, s.blobs.Keys, ok)]
      && (t == s || t == Apply(lib, s, call))
      && (ok ==> t == Apply(lib, s, call) && Accepts(lib, s, call))
    ensures Uploading(s, a, t, b) && BlobsFrom(s, t, content, {}) && AtMost(s, t, desc.digest)
    ensures ok ==> desc.digest in t.blobs && |content[desc.digest].data| == desc.size
    ensures ok && desc.digest !in s.blobs ==> t.blobs[desc.digest] == content[desc.digest].data
    ensures ok ==> lib.Digest(content[desc.digest].data) == desc.digest
    ensures lib.Digest(content[desc.digest].data) == desc.digest && |content[desc.digest].data| == desc.size ==>
      Accepts(lib, s, UploadBlob(desc.digest, desc.size, content[desc.digest].data))
  {
  }

  lemma StoredUnderDigest(lib: Lib, p: Past)
    requires Valid(lib, p)
    ensures forall d | d in p.world.content :: lib.Digest(p.world.content[d].data) == d
  {
    SoundNow(lib, p);
  }

  // ---------------------------------------------------------------- the manifest

  /** Every blob was there before, or is the blob of its digest in `content`, or is one of `extra`. */
  ghost predicate BlobsFrom(before: Store, after: Store, content: Content, extra: set<Bytes>) {
    forall d | d in after.blobs ::
      || (d in before.blobs && after.blobs[d] == before.blobs[d])
      || (d in content && after.blobs[d] == content[d].data)
      || after.blobs[d] in extra
  }

  /** The manifest was put although the push reports a failure. */
  ghost predicate AnswerWasLost(lib: Lib, image: Json, tag: string, before: Store, after: Store) {
    DocumentsOf(lib, image).Ok? && after.tags == before.tags[tag := lib.dumps(DocumentsOf(lib, image).value.manifest)]
  }

  /** `ImageManifest.push`. */
  method PushManifest(registry: Registry, image: Json, tag: string) returns (r: Result<Descriptor, PushError>)
    modifies registry
    ensures var docs := DocumentsOf(registry.lib, image);
      if docs.Err? then
        && r == Err(BadImage(docs.error))
        && registry.store == old(registry.store) && registry.requests == old(registry.requests)
      else Orderly(old(registry.store), old(registry.requests), registry.store, registry.requests,
                   old(registry.store.blobs.Keys) + {docs.value.ConfigDescriptor(registry.lib).digest})
    ensures StoreSound(registry.lib, old(registry.store)) ==> StoreSound(registry.lib, registry.store)
    ensures r.Ok? ==> DocumentsOf(registry.lib, image).Ok?
    ensures r.Ok? ==> var docs := DocumentsOf(registry.lib, image).value;
      && r.value == docs.ManifestDescriptor(registry.lib)
      && docs.ConfigDescriptor(registry.lib).digest in registry.store.blobs
      && Asked(old(registry.requests), registry.requests,
               [StartBlobUpload,
                UploadBlob(docs.ConfigDescriptor(registry.lib).digest, docs.ConfigDescriptor(registry.lib).size,
                           registry.lib.dumps(docs.config)),
                PutManifest(tag, registry.lib.dumps(docs.manifest))])
      && registry.store.tags == old(registry.store.tags)[tag := registry.lib.dumps(docs.manifest)]
    ensures BlobsFrom(old(registry.store), registry.store, map[], ConfigBytes(registry.lib, image))
    ensures r.Err? && DocumentsOf(registry.lib, image).Ok? ==>
      && r.error == RegistryFailed && |registry.requests| > |old(registry.requests)|
      && !registry.requests[|registry.requests| - 1].answered
    ensures r.Err? ==>
      || registry.store.tags == old(registry.store.tags)
      || AnswerWasLost(registry.lib, image, tag, old(registry.store), registry.store)
    ensures DocumentsOf(registry.lib, image).Ok? && (forall n: nat :: registry.schedule(n) == Answered) ==> r.Ok?
  {
    hide DocumentsOf, StoreSound;
    var lib := registry.lib;
    var documents := DocumentsOf(lib, image);
    if documents.Err? {
      return Err(BadImage(documents.error));
    }
    var docs := documents.value;
    var config := docs.ConfigDescriptor(lib);
    var started := registry.Send(StartBlobUpload);
    if !started {
      return Err(RegistryFailed);
    }
    var uploaded := registry.Send(UploadBlob(config.digest, config.size, lib.dumps(docs.config)));
    if !uploaded {
      return Err(RegistryFailed);
    }
    var put := registry.Send(PutManifest(tag, lib.dumps(docs.manifest)));
    if !put {
      return Err(RegistryFailed);
    }
    return Ok(docs.ManifestDescriptor(lib));
  }

  // ---------------------------------------------------------------- the image

  /** The digests of the first `n` layers. */
  ghost function FirstDigests(layers: seq<Json>, n: nat): set<string> {
    set i | 0 <= i < n && i < |layers| && Descriptor.Parse(layers[i]).Ok? :: Descriptor.Parse(layers[i]).value.digest
  }

  /** What a manifest must not be put without: the config and every layer the loop goes over. */
  ghost function Needed(lib: Lib, image: Json): set<string> {
    if DocumentsOf(lib, image).Ok? && Layers(image).Ok? && DiffIds(image).Ok? then
      {DocumentsOf(lib, image).value.ConfigDescriptor(lib).digest}
      + FirstDigests(Layers(image).value, Min(|DiffIds(image).value|, |Layers(image).value|))
    else {}
  }

  /** The messages of the first `n` layers, for a registry that holds `held` at first: the reports of one layer after
      another. A layer is there if it was at first, or if it is one of those before. */
  ghost predicate LayerMessages(held: set<string>, messages: seq<Message>, ids: seq<Json>, layers: seq<Json>, n: nat)
    decreases n
  {
    if n == 0 then messages == [RefersTo]
    else
      && n <= |ids| && n <= |layers|
      && exists k | 0 <= k <= |messages| ::
           && LayerMessages(held, messages[..k], ids, layers, n - 1)
           && LayerReport(held + FirstDigests(layers, n - 1), messages[k..], ids[n - 1], layers[n - 1])
  }

  ghost predicate LayerReport(held: set<string>, messages: seq<Message>, id: Json, layer: Json) {
    && id.Str? && Descriptor.Parse(layer).Ok?
    && var desc := Descriptor.Parse(layer).value;
    && Report(messages, id.s, desc.size, desc.digest in held)
  }

  /** The messages of a push that stops in the middle of its layers: whole reports, and then at most the
      beginning of another. */
  ghost predicate StoppedMessages(held: set<string>, messages: seq<Message>, ids: seq<Json>, layers: seq<Json>) {
    exists n: nat, k: nat :: StopsAfter(held, messages, ids, layers, n, k)
  }

  ghost predicate StopsAfter(held: set<string>, messages: seq<Message>, ids: seq<Json>, layers: seq<Json>, n: nat,
                             k: nat) {
    && k <= |messages| && n <= |ids| && n <= |layers| && LayerMessages(held, messages[..k], ids, layers, n)
    && (k == |messages| || (n < |ids| && n < |layers| && LayerStop(messages[k..], ids[n], layers[n])))
  }

  ghost predicate LayerStop(messages: seq<Message>, id: Json, layer: Json) {
    id.Str? && Descriptor.Parse(layer).Ok? && BrokenReport(messages, id.s, Descriptor.Parse(layer).value.size)
  }

  lemma LayerMessagesStep(held: set<string>, messages: seq<Message>, ids: seq<Json>, layers: seq<Json>, n: nat,
                          more: seq<Message>)
    requires LayerMessages(held, messages, ids, layers, n) && n < |ids| && n < |layers|
    requires LayerReport(held + FirstDigests(layers, n), more, ids[n], layers[n])
    ensures LayerMessages(held, messages + more, ids, layers, n + 1)
  {
    hide LayerReport;
    var k := |messages|;
    assert (messages + more)[..k] == messages && (messages + more)[k..] == more;
  }

  lemma StoppedBetween(held: set<string>, messages: seq<Message>, ids: seq<Json>, layers: seq<Json>, n: nat)
    requires LayerMessages(held, messages, ids, layers, n) && n <= |ids| && n <= |layers|
    ensures StoppedMessages(held, messages, ids, layers)
  {
    hide LayerMessages, LayerStop;
    var k := |messages|;
    assert messages[..k] == messages;
    assert StopsAfter(held, messages, ids, layers, n, k);
  }

  lemma StoppedInside(held: set<string>, messages: seq<Message>, ids: seq<Json>, layers: seq<Json>, n: nat,
                      more: seq<Message>)
    requires LayerMessages(held, messages, ids, layers, n)
    requires n < |ids| && n < |layers| && LayerStop(more, ids[n], layers[n])
    ensures StoppedMessages(held, messages + more, ids, layers)
  {
    hide LayerMessages, LayerStop;
    var k := |messages|;
    assert (messages + more)[..k] == messages && (messages + more)[k..] == more;
    assert StopsAfter(held, messages + more, ids, layers, n, k);
  }

  /** The loop over the first `n` layers is done and all of them are in the registry. */
  ghost predicate LayersPushed(layers: seq<Json>, n: nat, s: Store) {
    n <= |layers| && forall i | 0 <= i < n ::
      Descriptor.Parse(layers[i]).Ok? && Descriptor.Parse(layers[i]).value.digest in s.blobs
  }

  lemma BlobsFromTransitive(a: Store, b: Store, c: Store, x: Content, y: Content, extra: set<Bytes>)
    requires BlobsFrom(a, b, x, {}) && BlobsFrom(b, c, y, extra)
    requires forall d | d in y :: d in x && y[d] == x[d]
    ensures BlobsFrom(a, c, x, extra)
  {
  }

  lemma LayersPushedStep(layers: seq<Json>, n: nat, s: Store, t: Store)
    requires LayersPushed(layers, n, s) && n < |layers|
    requires forall d | d in s.blobs :: d in t.blobs
    requires Descriptor.Parse(layers[n]).Ok? && Descriptor.Parse(layers[n]).value.digest in t.blobs
    ensures LayersPushed(layers, n + 1, t)
  {
  }

  /** The layers of an image, up to the shorter of its two lists. */
  method PushLayers(server: Server, registry: Registry, ids: seq<Json>, layers: seq<Json>, courses: nat -> Course)
      returns (r: Result<(), PushError>, messages: seq<Message>)
    requires Valid(server.lib, server.State())
    requires forall i :: courses(i).Valid()
    modifies server, registry
    ensures Valid(server.lib, server.State()) && Reading(old(server.State()), server.State())
    ensures Uploading(old(registry.store), old(registry.requests), registry.store, registry.requests)
    ensures BlobsFrom(old(registry.store), registry.store, old(server.world.content), {})
    ensures StoreSound(registry.lib, old(registry.store)) ==> StoreSound(registry.lib, registry.store)
    ensures r.Ok? ==> LayersPushed(layers, Min(|ids|, |layers|), registry.store)
    ensures r.Ok? ==> LayerMessages(old(registry.store.blobs.Keys), messages, ids, layers, Min(|ids|, |layers|))
    ensures r.Err? ==> StoppedMessages(old(registry.store.blobs.Keys), messages, ids, layers)
    ensures r.Err? ==>
      LayersFailed(r.error, courses, ids, layers, old(server.log), server.log, old(registry.requests),
                   registry.requests)
    ensures Smooth(server, registry) && Unbroken(courses) ==>
      AllAvailable(server.schedule, old(server.world), old(registry.store), ids, layers) ==> r.Ok?
  {
    hide Valid, Reading, Uploading, BlobsFrom, LayersPushed, LayerMessages, StoppedMessages, Report, BrokenReport,
      StoreSound, Smooth, Stays, Still, Available, AllAvailable, FirstDigests;
    ghost var start, s0, q0 := server.State(), registry.store, registry.requests;
    ghost var held := s0.blobs.Keys;
    ReadingReflexive(server.lib, start);
    Unsent(s0, q0, layers, ids);
    StillReflexive(server.schedule, start.world);
    messages := [RefersTo];
    for i := 0 to Min(|ids|, |layers|)
      invariant Valid(server.lib, server.State()) && Reading(start, server.State())
      invariant Uploading(s0, q0, registry.store, registry.requests)
      invariant BlobsFrom(s0, registry.store, start.world.content, {})
      invariant StoreSound(registry.lib, s0) ==> StoreSound(registry.lib, registry.store)
      invariant LayersPushed(layers, i, registry.store) && LayerMessages(held, messages, ids, layers, i)
      invariant registry.store.blobs.Keys == held + FirstDigests(layers, i)
      invariant Still(server.schedule, start.world, server.world)
    {
      ghost var before, s1, q1 := server.State(), registry.store, registry.requests;
      NextAvailable(server.schedule, start, before, s0, q0, s1, q1, ids, layers, i);
      var desc := Descriptor.Parse(layers[i]);
      StoppedBetween(held, messages, ids, layers, i);
      if desc.Err? {
        return Err(BadImage(desc.error)), messages;
      }
      if !ids[i].Str? {
        return Err(BadImage(WrongType)), messages;
      }
      var pushed, more := PushLayer(server, registry, ids[i].s, desc.value, courses(i));
      StillTransitive(server.schedule, start.world, before.world, server.world);
      ReadingShrinks(start, before);
      ReadingTransitive(start, before, server.State());
      UploadingTransitive(s0, q0, s1, q1, registry.store, registry.requests);
      BlobsFromTransitive(s0, s1, registry.store, start.world.content, before.world.content, {});
      UploadingGrows(s1, q1, registry.store, registry.requests);
      if pushed.Err? {
        StoppedInside(held, messages, ids, layers, i, more);
        UploadingGrows(s0, q0, s1, q1);
        FailedWider(pushed.error, courses(i).ending.BreaksOff?, courses(i).ending.CutShort?, SomeBreaks(courses),
                    SomeCut(courses), start.log, before.log, server.log, q0, q1, registry.requests);
        return Err(pushed.error), messages + more;
      }
      LayersPushedStep(layers, i, s1, registry.store);
      FirstDigestsStep(layers, i, s1, registry.store, held);
      LayerMessagesStep(held, messages, ids, layers, i, more);
      messages := messages + more;
    }
    return Ok(()), messages;
  }

  ghost predicate SomeBreaks(courses: nat -> Course) {
    exists i :: courses(i).ending.BreaksOff?
  }

  ghost predicate SomeCut(courses: nat -> Course) {
    exists i :: courses(i).ending.CutShort?
  }

  /** A diff id or a layer that cannot be used. */
  predicate BadLayer(id: Json, layer: Json, e: DataError) {
    Descriptor.Parse(layer) == Err(e) || (!id.Str? && e == WrongType)
  }

  ghost predicate SomeBadLayer(ids: seq<Json>, layers: seq<Json>, e: DataError) {
    exists i :: 0 <= i < |ids| && i < |layers| && BadLayer(ids[i], layers[i], e)
  }

  /** Why pushing the layers fails. */
  ghost predicate LayersFailed(error: PushError, courses: nat -> Course, ids: seq<Json>, layers: seq<Json>,
                               a: seq<Entry>, b: seq<Entry>, earlier: seq<Request>, later: seq<Request>) {
    if error.BadImage? then SomeBadLayer(ids, layers, error.error)
    else Failed(error, SomeBreaks(courses), SomeCut(courses), a, b, earlier, later)
  }

  /** Why a push fails: the image lacks what is read of it, the registry is of another version, or it is
      others that failed. */
  ghost predicate PushFailed(lib: Lib, image: Json, isV2: bool, courses: nat -> Course, error: PushError, a: seq<Entry>,
                             b: seq<Entry>, earlier: seq<Request>, later: seq<Request>) {
    if error.NotV2? then !isV2
    else if error.BadImage? then ImageLacks(lib, image, error.error)
    else Failed(error, SomeBreaks(courses), SomeCut(courses), a, b, earlier, later)
  }

  /** The image lacks something that a push reads of it, in the order in which it reads. */
  ghost predicate ImageLacks(lib: Lib, image: Json, e: DataError) {
    if DiffIds(image).Err? then DiffIds(image) == Err(e)
    else if Layers(image).Err? then Layers(image) == Err(e)
    else SomeBadLayer(DiffIds(image).value, Layers(image).value, e) || DocumentsOf(lib, image) == Err(e)
  }

  /** A layer that could be pushed at the start still can. */
  lemma NextAvailable(schedule: nat -> Move, start: Past, before: Past, s: Store, a: seq<Request>, t: Store,
                      b: seq<Request>, ids: seq<Json>, layers: seq<Json>, i: nat)
    requires Reading(start, before) && Still(schedule, start.world, before.world)
    requires Uploading(s, a, t, b) && i < |ids| && i < |layers|
    ensures AllAvailable(schedule, start.world, s, ids, layers) ==>
      && ids[i].Str? && Descriptor.Parse(layers[i]).Ok?
      && Available(schedule, before.world, t, Descriptor.Parse(layers[i]).value)
  {
    hide Reading, Stays, Still;
    ReadingOutlasts(schedule, start, before);
  }

  lemma FirstDigestsStep(layers: seq<Json>, n: nat, s: Store, t: Store, held: set<string>)
    requires n < |layers| && Descriptor.Parse(layers[n]).Ok?
    requires var digest := Descriptor.Parse(layers[n]).value.digest;
      AtMost(s, t, digest) && digest in t.blobs && forall d | d in s.blobs :: d in t.blobs
    requires s.blobs.Keys == held + FirstDigests(layers, n)
    ensures t.blobs.Keys == held + FirstDigests(layers, n + 1)
  {
    var digest := Descriptor.Parse(layers[n]).value.digest;
    assert FirstDigests(layers, n + 1) == FirstDigests(layers, n) + {digest};
    assert t.blobs.Keys == s.blobs.Keys + {digest};
  }

  lemma Unsent(s: Store, q: seq<Request>, layers: seq<Json>, ids: seq<Json>)
    ensures Uploading(s, q, s, q) && BlobsFrom(s, s, map[], {}) && LayersPushed(layers, 0, s)
    ensures LayerMessages(s.blobs.Keys, [RefersTo], ids, layers, 0)
    ensures s.blobs.Keys == s.blobs.Keys + FirstDigests(layers, 0)
    ensures forall content: Content :: BlobsFrom(s, s, content, {})
  {
  }

  lemma UploadingGrows(s: Store, a: seq<Request>, t: Store, b: seq<Request>)
    requires Uploading(s, a, t, b)
    ensures forall d | d in s.blobs :: d in t.blobs
    ensures a <= b
  {
  }

  /** An image's config and layers are in the registry, and its manifest is under the tag. */
  ghost predicate PushedAs(lib: Lib, image: Json, tag: string, before: Store, after: Store) {
    && DocumentsOf(lib, image).Ok? && Layers(image).Ok? && DiffIds(image).Ok?
    && Needed(lib, image) <= after.blobs.Keys
    && (forall i | 0 <= i < Min(|DiffIds(image).value|,
                                |Layers(image).value|) :: Descriptor.Parse(Layers(image).value[i]).Ok?)
    && after.tags == before.tags[tag := lib.dumps(DocumentsOf(lib, image).value.manifest)]
  }

  /** `Image.push`. */
  method PushImage(server: Server, registry: Registry, image: Json, tag: string, courses: nat -> Course)
      returns (r: Result<Descriptor, PushError>, messages: seq<Message>)
    requires Valid(server.lib, server.State()) && registry.lib == server.lib
    requires forall i :: courses(i).Valid()
    modifies server, registry
    ensures Valid(server.lib, server.State()) && Reading(old(server.State()), server.State())
    ensures Orderly(old(registry.store), old(registry.requests), registry.store, registry.requests,
                    Needed(server.lib, image))
    ensures StoreSound(server.lib, old(registry.store)) ==> StoreSound(server.lib, registry.store)
    ensures PushEnds(server.lib, image, tag, old(registry.store), registry.store, old(server.world.content), r,
                     messages)
    ensures Smooth(server, registry) && Unbroken(courses) ==>
      Pushable(server.lib, server.schedule, old(server.world), old(registry.store), image) ==> r.Ok?
    ensures r.Err? ==>
      PushFailed(server.lib, image, registry.isV2, courses, r.error, old(server.log), server.log,
                 old(registry.requests), registry.requests)
    ensures
      var asked := |old(registry.requests)|;
      |registry.requests| > asked && registry.requests[asked].call == GetVersion
    ensures !registry.isV2 ==>
      r.Err? && messages == [RefersTo] && registry.store == old(registry.store) && server.State() == old(server.State())
      && Asked(old(registry.requests), registry.requests, [GetVersion])
  {
    hide Valid, Reading, StoreSound, DocumentsOf, Layers, DiffIds, Stays, Smooth, Pushable, Needed, PushedAs,
      PushedBytes, AnswerWasLost, FullMessages, Failed, SomeBadLayer;
    ghost var s0, q0 := registry.store, registry.requests;
    PushableParts(server, registry, server.world, s0, image);
    NothingPushedYet(server.lib, image, s0, server.world.content);
    ReadingReflexive(server.lib, server.State());
    messages := [RefersTo];
    var answered := registry.Send(GetVersion);
    if !answered {
      Unanswered(SomeBreaks(courses), SomeCut(courses), server.log, server.log, q0, registry.requests);
      return Err(RegistryFailed), messages;
    }
    if !registry.isV2 {
      return Err(NotV2), messages;
    }
    var ids := DiffIds(image);
    if ids.Err? {
      return Err(BadImage(ids.error)), messages;
    }
    var layers := Layers(image);
    if layers.Err? {
      return Err(BadImage(layers.error)), messages;
    }
    ghost var q1 := registry.requests;
    r, messages := PushParts(server, registry, image, tag, courses, ids.value, layers.value);
    if r.Err? && !r.error.NotV2? && !r.error.BadImage? {
      FailedWider(r.error, SomeBreaks(courses), SomeCut(courses), SomeBreaks(courses), SomeCut(courses),
                  old(server.log), old(server.log), server.log, q0, q1, registry.requests);
    }
  }

  lemma Unanswered(broke: bool, closed: bool, a: seq<Entry>, b: seq<Entry>, earlier: seq<Request>, later: seq<Request>)
    requires |earlier| < |later| && !later[|later| - 1].answered
    ensures Failed(RegistryFailed, broke, closed, a, b, earlier, later)
  {
  }

  lemma NothingPushedYet(lib: Lib, image: Json, s: Store, content: Content)
    ensures PushedBytes(lib, image, s, s, content)
  {
    hide DocumentsOf;
  }

  /** The end of `Image.push`: the layers, the manifest, and what is said about them. */
  method PushParts(server: Server, registry: Registry, image: Json, tag: string, courses: nat -> Course, ids: seq<Json>,
                   layers: seq<Json>)
      returns (r: Result<Descriptor, PushError>, messages: seq<Message>)
    requires Valid(server.lib, server.State()) && registry.lib == server.lib
    requires forall i :: courses(i).Valid()
    requires DiffIds(image) == Ok(ids) && Layers(image) == Ok(layers)
    modifies server, registry
    ensures Valid(server.lib, server.State()) && Reading(old(server.State()), server.State())
    ensures Orderly(old(registry.store), old(registry.requests), registry.store, registry.requests,
                    Needed(server.lib, image))
    ensures StoreSound(server.lib, old(registry.store)) ==> StoreSound(server.lib, registry.store)
    ensures PushEnds(server.lib, image, tag, old(registry.store), registry.store, old(server.world.content), r,
                     messages)
    ensures Smooth(server, registry) && Unbroken(courses) ==>
      Pushable(server.lib, server.schedule, old(server.world), old(registry.store), image) ==> r.Ok?
    ensures r.Err? ==>
      PushFailed(server.lib, image, registry.isV2, courses, r.error, old(server.log), server.log,
                 old(registry.requests), registry.requests)
  {
    hide Valid, Reading, BlobsFrom, LayerMessages, StoppedMessages, LayersPushed, DocumentsOf, Layers, DiffIds,
      StoreSound, Stays, AllAvailable, Smooth, Pushable, Orderly, Uploading, Needed, PushEnds, SomeBadLayer;
    var lib := server.lib;
    ghost var s0, q0, content := registry.store, registry.requests, server.world.content;
    PushableParts(server, registry, server.world, s0, image);
    var pushed;
    pushed, messages := PushLayers(server, registry, ids, layers, courses);
    ghost var s1, q1 := registry.store, registry.requests;
    if pushed.Ok? {
      StoppedBetween(s0.blobs.Keys, messages, ids, layers, Min(|ids|, |layers|));
    }
    if pushed.Err? {
      StoppedInLayers(lib, image, tag, s0, q0, s1, q1, content, pushed.error, messages);
      LayersFailedIs(lib, image, registry.isV2, courses, pushed.error, old(server.log), server.log, q0, q1);
      return Err(pushed.error), messages;
    }
    r := PushManifest(registry, image, tag);
    FinallyOrderly(lib, image, s0, q0, s1, q1, registry.store, registry.requests, ids, layers);
    if r.Err? {
      FailedManifest(lib, image, tag, s0, q0, s1, q1, registry.store, content, r.error, messages);
      UploadingGrows(s0, q0, s1, q1);
      if DocumentsOf(lib, image).Ok? {
        Unanswered(SomeBreaks(courses), SomeCut(courses), old(server.log), server.log, q0, registry.requests);
      }
      return;
    }
    BlobsFromTransitive(s0, s1, registry.store, content, map[], {lib.dumps(DocumentsOf(lib, image).value.config)});
    ghost var said := messages;
    messages := messages + [PushedTag(tag, r.value.digest, r.value.size), Aux(tag, r.value.digest, r.value.size)];
    PushIsComplete(lib, image, tag, s0, q0, s1, q1, registry.store, content, r.value, ids, layers, said);
  }

  lemma LayersFailedIs(lib: Lib, image: Json, isV2: bool, courses: nat -> Course, error: PushError, a: seq<Entry>,
                       b: seq<Entry>, earlier: seq<Request>, later: seq<Request>)
    requires DiffIds(image).Ok? && Layers(image).Ok?
    requires LayersFailed(error, courses, DiffIds(image).value, Layers(image).value, a, b, earlier, later)
    ensures PushFailed(lib, image, isV2, courses, error, a, b, earlier, later)
  {
    hide DiffIds, Layers, DocumentsOf, SomeBadLayer;
  }

  /** The bytes of the config, if the image has one. */
  ghost function ConfigBytes(lib: Lib, image: Json): set<Bytes> {
    if DocumentsOf(lib, image).Ok? then {lib.dumps(DocumentsOf(lib, image).value.config)} else {}
  }

  /** The blobs of a push come from the store, but for the config. */
  ghost predicate PushedBytes(lib: Lib, image: Json, before: Store, after: Store, content: Content) {
    BlobsFrom(before, after, content, ConfigBytes(lib, image))
  }

  /** All that a push that succeeds says. */
  ghost predicate FullMessages(held: set<string>, image: Json, tag: string, d: Descriptor, messages: seq<Message>) {
    && DiffIds(image).Ok? && Layers(image).Ok?
    && var (ids, layers, n) := (DiffIds(image).value, Layers(image).value, |messages| - 2);
    && n >= 0
    && LayerMessages(held, messages[..n], ids, layers, Min(|ids|, |layers|))
    && messages[n..] == [PushedTag(tag, d.digest, d.size), Aux(tag, d.digest, d.size)]
  }

  /** What a push that fails says: it stopped before the layers, among them, or after them. */
  ghost predicate FailedMessages(held: set<string>, image: Json, messages: seq<Message>) {
    || messages == [RefersTo]
    || (DiffIds(image).Ok? && Layers(image).Ok?
        && StoppedMessages(held, messages, DiffIds(image).value, Layers(image).value))
  }

  /** How a push ends. */
  ghost predicate PushEnds(lib: Lib, image: Json, tag: string, before: Store, after: Store, content: Content,
                           r: Result<Descriptor, PushError>, messages: seq<Message>) {
    && PushedBytes(lib, image, before, after, content)
    && if r.Ok? then
      && PushedAs(lib, image, tag, before, after)
      && r.value == DocumentsOf(lib, image).value.ManifestDescriptor(lib)
      && FullMessages(before.blobs.Keys, image, tag, r.value, messages)
    else
      && (after.tags == before.tags || AnswerWasLost(lib, image, tag, before, after))
      && FailedMessages(before.blobs.Keys, image, messages)
  }

  lemma PushableParts(server: Server, registry: Registry, w: World, s: Store, image: Json)
    ensures Smooth(server, registry) ==>
      registry.lib == server.lib && registry.isV2 && forall n: nat :: registry.schedule(n) == Answered
    ensures Pushable(server.lib, server.schedule, w, s, image) ==>
      && DocumentsOf(server.lib, image).Ok? && DiffIds(image).Ok? && Layers(image).Ok?
      && AllAvailable(server.schedule, w, s, DiffIds(image).value, Layers(image).value)
  {
    hide DocumentsOf, Layers, DiffIds, AllAvailable;
  }

  lemma StoppedInLayers(lib: Lib, image: Json, tag: string, s0: Store, q0: seq<Request>, s1: Store, q1: seq<Request>,
                        content: Content, error: PushError, messages: seq<Message>)
    requires Uploading(s0, q0, s1, q1) && FailedMessages(s0.blobs.Keys, image, messages)
    requires BlobsFrom(s0, s1, content, {})
    ensures Orderly(s0, q0, s1, q1, Needed(lib, image))
    ensures PushEnds(lib, image, tag, s0, s1, content, Err(error), messages)
  {
    hide Needed, FailedMessages, DocumentsOf;
  }

  lemma FailedManifest(lib: Lib, image: Json, tag: string, s0: Store, q0: seq<Request>, s1: Store, q1: seq<Request>,
                       s2: Store, content: Content, error: PushError, messages: seq<Message>)
    requires Uploading(s0, q0, s1, q1) && FailedMessages(s0.blobs.Keys, image, messages)
    requires s2.tags == s1.tags || AnswerWasLost(lib, image, tag, s1, s2)
    requires BlobsFrom(s0, s1, content, {}) && BlobsFrom(s1, s2, map[], ConfigBytes(lib, image))
    ensures PushEnds(lib, image, tag, s0, s2, content, Err(error), messages)
  {
    hide DocumentsOf, FailedMessages, ConfigBytes;
    BlobsFromTransitive(s0, s1, s2, content, map[], ConfigBytes(lib, image));
  }

  lemma PushIsComplete(lib: Lib, image: Json, tag: string, s0: Store, q0: seq<Request>, s1: Store, q1: seq<Request>,
                       s2: Store, content: Content, d: Descriptor, ids: seq<Json>, layers: seq<Json>,
                       said: seq<Message>)
    requires DiffIds(image) == Ok(ids) && Layers(image) == Ok(layers) && DocumentsOf(lib, image).Ok?
    requires Uploading(s0, q0, s1, q1) && LayersPushed(layers, Min(|ids|, |layers|), s1)
    requires d == DocumentsOf(lib, image).value.ManifestDescriptor(lib)
    requires Needed(lib, image) <= s2.blobs.Keys
    requires s2.tags == s1.tags[tag := lib.dumps(DocumentsOf(lib, image).value.manifest)]
    requires BlobsFrom(s0, s2, content, {lib.dumps(DocumentsOf(lib, image).value.config)})
    requires LayerMessages(s0.blobs.Keys, said, ids, layers, Min(|ids|, |layers|))
    ensures PushEnds(lib, image, tag, s0, s2, content, Ok(d),
                     said + [PushedTag(tag, d.digest, d.size), Aux(tag, d.digest, d.size)])
  {
    hide DocumentsOf, DiffIds, Layers, Needed, BlobsFrom, FullMessages, LayerMessages, FailedMessages, AnswerWasLost,
      PushedAs, Uploading, LayersPushed;
    PushedIs(lib, image, tag, s0, q0, s1, q1, s2, ids, layers);
    FullMessagesAre(s0.blobs.Keys, image, tag, d, ids, layers, said);
  }

  lemma PushedIs(lib: Lib, image: Json, tag: string, s0: Store, q0: seq<Request>, s1: Store, q1: seq<Request>,
                 s2: Store, ids: seq<Json>, layers: seq<Json>)
    requires DiffIds(image) == Ok(ids) && Layers(image) == Ok(layers) && DocumentsOf(lib, image).Ok?
    requires Uploading(s0, q0, s1, q1) && LayersPushed(layers, Min(|ids|, |layers|), s1)
    requires Needed(lib, image) <= s2.blobs.Keys
    requires s2.tags == s1.tags[tag := lib.dumps(DocumentsOf(lib, image).value.manifest)]
    ensures PushedAs(lib, image, tag, s0, s2)
  {
    hide DocumentsOf, DiffIds, Layers, Needed;
  }

  lemma FullMessagesAre(held: set<string>, image: Json, tag: string, d: Descriptor, ids: seq<Json>, layers: seq<Json>,
                        said: seq<Message>)
    requires DiffIds(image) == Ok(ids) && Layers(image) == Ok(layers)
    requires LayerMessages(held, said, ids, layers, Min(|ids|, |layers|))
    ensures FullMessages(held, image, tag, d, said + [PushedTag(tag, d.digest, d.size), Aux(tag, d.digest, d.size)])
  {
    hide DiffIds, Layers, LayerMessages;
    var messages := said + [PushedTag(tag, d.digest, d.size), Aux(tag, d.digest, d.size)];
    assert messages[..|messages| - 2] == said;
  }

  /** When the manifest is put, the registry holds the config and every layer the loop went over. */
  lemma FinallyOrderly(lib: Lib, image: Json, s0: Store, q0: seq<Request>, s2: Store, q2: seq<Request>, s3: Store,
                       q3: seq<Request>, ids: seq<Json>, layers: seq<Json>)
    requires Uploading(s0, q0, s2, q2) && LayersPushed(layers, Min(|ids|, |layers|), s2)
    requires Layers(image) == Ok(layers) && DiffIds(image) == Ok(ids)
    requires var docs := DocumentsOf(lib, image);
      if docs.Err? then s3 == s2 && q3 == q2
      else Orderly(s2, q2, s3, q3, s2.blobs.Keys + {docs.value.ConfigDescriptor(lib).digest})
    ensures Orderly(s0, q0, s3, q3, Needed(lib, image))
    ensures DocumentsOf(lib, image).Ok? && DocumentsOf(lib, image).value.ConfigDescriptor(lib).digest in s3.blobs ==>
      Needed(lib, image) <= s3.blobs.Keys
  {
    hide DocumentsOf, Layers, DiffIds;
    forall d | d in FirstDigests(layers, Min(|ids|, |layers|))
      ensures d in s2.blobs
    {
    }
  }

  /** Nothing is in the way of pushing the image recorded under a name. */
  ghost predicate PushableByName(lib: Lib, schedule: nat -> Move, w: World, s: Store, name: string,
                                 architecture: string, os: string, rank: string -> nat)
    requires Acyclic(lib, w.content, architecture, os, rank)
  {
    && name in w.images
    && ImageStays(lib, schedule, w, architecture, os, rank, w.images[name].digest)
    && var image := ReadImage(lib, w.content, architecture, os, rank, w.images[name].digest);
    && image.Ok?
    && Pushable(lib, schedule, w, s, image.value)
  }

  /** What `get_image` makes of a failed read. */
  function ReadError(e: Error): PushError {
    match e
    case RpcFailed(code) => if code == Unknown || code == NotFound then NoSuchImage else ReadFailed(code)
    case BadData(data) => BadImage(data)
    case _ => Unsupported(e)
  }

  /** There is no such image exactly when a call was answered Unknown or NotFound; what else failed is passed on. */
  ghost predicate FailsAs(e: Error, error: PushError) {
    && (error == NoSuchImage <==> e == RpcFailed(Unknown) || e == RpcFailed(NotFound))
    && (error == NoSuchImage || (e.RpcFailed? && error == ReadFailed(e.code)) ||
        (e.BadData? && error == BadImage(e.data)) || (!e.RpcFailed? && !e.BadData? && error == Unsupported(e)))
  }

  /** Why an image could not be read by name. */
  ghost predicate ImageUnread(lib: Lib, w: World, name: string, architecture: string, os: string, rank: string -> nat,
                              e: Error, a: seq<Entry>, b: seq<Entry>)
    requires Acyclic(lib, w.content, architecture, os, rank)
  {
    if e.RpcFailed? then |a| < |b| && b[|b| - 1].reply == Err(e.code)
    else name in w.images && ReadImage(lib, w.content, architecture, os, rank, w.images[name].digest) == Err(e)
  }

  /** How a push by name ends: without a trace when its image cannot be read, and otherwise as a push of the
      image that the record led to at the start. */
  ghost predicate EndsByName(lib: Lib, w: World, a: seq<Entry>, b: seq<Entry>, before: Store, earlier: seq<Request>,
                             after: Store, later: seq<Request>, name: string, architecture: string, os: string,
                             rank: string -> nat, tag: string, isV2: bool, courses: nat -> Course,
                             r: Result<Descriptor, PushError>, messages: seq<Message>)
    requires Acyclic(lib, w.content, architecture, os, rank)
  {
    || (&& after == before && later == earlier && messages == []
        && r.Err? && exists e :: FailsAs(e, r.error) && ImageUnread(lib, w, name, architecture, os, rank, e, a, b))
    || (name in w.images
        && var image := ReadImage(lib, w.content, architecture, os, rank, w.images[name].digest);
        && image.Ok?
        && Orderly(before, earlier, after, later, Needed(lib, image.value))
        && PushEnds(lib, image.value, tag, before, after, w.content, r, messages)
        && (r.Err? ==> PushFailed(lib, image.value, isV2, courses, r.error, a, b, earlier, later)))
  }

  lemma PushEndsEarlier(lib: Lib, image: Json, tag: string, before: Store, after: Store, content: Content,
                        earlier: Content, r: Result<Descriptor, PushError>, messages: seq<Message>)
    requires PushEnds(lib, image, tag, before, after, content, r, messages)
    requires forall d | d in content :: d in earlier && earlier[d] == content[d]
    ensures PushEnds(lib, image, tag, before, after, earlier, r, messages)
  {
    hide PushedAs, DocumentsOf, FullMessages, FailedMessages, AnswerWasLost;
  }

  /** What could be pushed at the start still can. */
  lemma PushableOutlasts(lib: Lib, schedule: nat -> Move, w: World, v: World, s: Store, image: Json)
    requires Outlasts(schedule, w, v)
    ensures Pushable(lib, schedule, w, s, image) ==> Pushable(lib, schedule, v, s, image)
  {
    hide Stays, DocumentsOf, DiffIds, Layers;
  }

  /** `ContainerdClient.get_image` and `Image.push`. */
  method PushByName(server: Server, registry: Registry, name: string, tag: string, architecture: string, os: string,
                    courses: nat -> Course, ghost rank: string -> nat)
      returns (r: Result<Descriptor, PushError>, messages: seq<Message>)
    requires Valid(server.lib, server.State()) && registry.lib == server.lib
    requires Acyclic(server.lib, server.world.content, architecture, os, rank)
    requires forall i :: courses(i).Valid()
    modifies server, registry
    ensures Valid(server.lib, server.State()) && Reading(old(server.State()), server.State())
    ensures StoreSound(server.lib, old(registry.store)) ==> StoreSound(server.lib, registry.store)
    ensures EndsByName(server.lib, old(server.world), old(server.log), server.log, old(registry.store),
                       old(registry.requests), registry.store, registry.requests, name, architecture, os, rank, tag,
                       registry.isV2, courses, r, messages)
    ensures r.Ok? ==> name in old(server.world.images)
    ensures r.Ok? ==>
      var image := ReadImage(server.lib, old(server.world.content), architecture, os, rank,
                             old(server.world.images)[name].digest);
      && image.Ok?
      && PushedAs(server.lib, image.value, tag, old(registry.store), registry.store)
      && r.value == DocumentsOf(server.lib, image.value).value.ManifestDescriptor(server.lib)
      && Orderly(old(registry.store), old(registry.requests), registry.store, registry.requests,
                 Needed(server.lib, image.value))
    ensures Smooth(server, registry) && Unbroken(courses) ==>
      PushableByName(server.lib, server.schedule, old(server.world), old(registry.store), name, architecture, os, rank)
      ==> r.Ok?
  {
    hide Valid, Reading, ReadImage, Acyclic, PushedAs, PushedBytes, FullMessages, FailedMessages, AnswerWasLost,
      Orderly, Needed, StoreSound, Pushable, Smooth, Stays, Still, ImageStays, Failed, ImageLacks;
    ghost var start := server.State();
    var image := ReadByName(server, name, architecture, os, rank);
    ghost var mid := server.State();
    ReadingShrinks(start, mid);
    if image.Err? {
      assert ImageUnread(server.lib, start.world, name, architecture, os, rank, image.error, start.log, mid.log);
      assert FailsAs(image.error, ReadError(image.error));
      return Err(ReadError(image.error)), [];
    }
    ReadingOutlasts(server.schedule, start, mid);
    ghost var s0 := registry.store;
    PushableOutlasts(server.lib, server.schedule, start.world, mid.world, s0, image.value);
    r, messages := PushImage(server, registry, image.value, tag, courses);
    ReadingTransitive(start, mid, server.State());
    PushEndsEarlier(server.lib, image.value, tag, s0, registry.store, mid.world.content, start.world.content, r,
                    messages);
    if r.Err? {
      PushFailedWider(server.lib, image.value, registry.isV2, courses, r.error, start.log, mid.log, server.log,
                      old(registry.requests), registry.requests);
    }
  }

  lemma PushFailedWider(lib: Lib, image: Json, isV2: bool, courses: nat -> Course, error: PushError, a0: seq<Entry>,
                        a: seq<Entry>, b: seq<Entry>, earlier: seq<Request>, later: seq<Request>)
    requires PushFailed(lib, image, isV2, courses, error, a, b, earlier, later) && |a0| <= |a|
    ensures PushFailed(lib, image, isV2, courses, error, a0, b, earlier, later)
  {
    hide ImageLacks, SomeBreaks, SomeCut;
    if !error.NotV2? && !error.BadImage? {
      FailedWider(error, SomeBreaks(courses), SomeCut(courses), SomeBreaks(courses), SomeCut(courses), a0, a, b,
                  earlier,
                  earlier, later);
    }
  }
}
