/** containerd as the program sees it: an explicit state, the meaning of each call, a garbage
    collector that may run before any call, and calls that may fail. */
module Containerd {
  import opened Wrappers
  import opened Python
  import opened Digests

  datatype Status = TaskUnknown | Created | Running | Stopped | Paused | Pausing

  datatype Kind = Active | Committed | ReadOnly

  datatype SnapshotInfo = SnapshotInfo(parent: string, kind: Kind, files: FileSystem)

  datatype Blob = Blob(data: Bytes, labels: map<string, string>)

  type LeaseId = nat

  datatype World = World(
    tasks: map<string, Status>,
    leases: map<LeaseId, set<string>>,   // the content digests each lease holds
    leaseCount: nat,                     // lease ids given out so far
    snapshots: map<string, SnapshotInfo>,
    content: map<string, Blob>,
    images: map<string, Descriptor>)

  // ---------------------------------------------------------------- garbage collection

  const CONTENT_REF := "containerd.io/gc.ref.content"
  const UNCOMPRESSED := "containerd.io/uncompressed"

  /** The digests a blob's labels keep alive. */
  function Refs(blob: Blob): set<string> {
    set k | k in blob.labels && CONTENT_REF <= k :: blob.labels[k]
  }

  function Roots(w: World): set<string> {
    (set name | name in w.images :: w.images[name].digest) +
    (set l, d | l in w.leases && d in w.leases[l] :: d)
  }

  /** What the roots reach through at most `n` labels. */
  function Reach(w: World, n: nat): set<string> {
    if n == 0 then Roots(w)
    else
      var near := Reach(w, n - 1);
      near + set p, d | p in near && p in w.content && d in Refs(w.content[p]) :: d
  }

  function Live(w: World): set<string> {
    Reach(w, |w.content|)
  }

  /** One run of the collector: of the digests it picks, those that are not live go. */
  function Collect(w: World, picked: set<string>): World {
    w.(content := map d | d in w.content && (d in picked ==> d in Live(w)) :: w.content[d])
  }

  lemma {:induction false} ReachGrows(w: World, m: nat, n: nat)
    requires m <= n
    ensures Reach(w, m) <= Reach(w, n)
    decreases n
  {
    if m < n {
      ReachGrows(w, m, n - 1);
    }
  }

  /** A digest that the roots reach through any number of labels. */
  ghost predicate Lives(w: World, d: string) {
    exists n: nat :: d in Reach(w, n)
  }

  /** What is stored of what the roots reach through `n` labels. */
  function Reached(w: World, n: nat): set<string> {
    set d | d in Reach(w, n) && d in w.content
  }

  lemma StableOnce(w: World, n: nat)
    requires Reached(w, n) == Reached(w, n + 1)
    ensures Reached(w, n + 1) == Reached(w, n + 2)
  {
    ReachGrows(w, n + 1, n + 2);
    var near, far := Reach(w, n + 1), Reach(w, n + 2);
    forall d | d in far
      ensures d in near
    {
      if p :| p in near && p in w.content && d in Refs(w.content[p]) {
        assert p in Reached(w, n);
      }
    }
  }

  lemma {:induction false} StableForever(w: World, m: nat, n: nat)
    requires Reached(w, m) == Reached(w, m + 1) && m <= n
    ensures Reached(w, n) == Reached(w, m) && Reached(w, n + 1) == Reached(w, m)
    decreases n
  {
    if m < n {
      StableForever(w, m, n - 1);
      StableOnce(w, n - 1);
    }
  }

  /** At every step something stored is added, until nothing is added any more. */
  lemma {:induction false} GrowsOrStable(w: World, n: nat)
    ensures |Reached(w, n)| >= n || Reached(w, n + 1) == Reached(w, n)
  {
    hide Reached, Reach;
    if n > 0 {
      GrowsOrStable(w, n - 1);
      ReachedGrows(w, n - 1);
      if Reached(w, n) == Reached(w, n - 1) {
        StableOnce(w, n - 1);
      } else {
        FewerMembers(Reached(w, n - 1), Reached(w, n));
      }
    }
  }

  lemma ReachedGrows(w: World, n: nat)
    ensures Reached(w, n) <= Reached(w, n + 1)
  {
    ReachGrows(w, n, n + 1);
  }

  lemma FewerMembers<T>(a: set<T>, b: set<T>)
    requires a <= b && a != b
    ensures |a| < |b|
  {
    assert b == a + (b - a);
  }

  /** As many labels as there are blobs are enough to reach every stored digest that lives. */
  lemma LiveIsReached(w: World, d: string)
    requires d in w.content && Lives(w, d)
    ensures d in Live(w)
  {
    var n: nat :| d in Reach(w, n);
    var size := |w.content|;
    if n <= size {
      ReachGrows(w, n, size);
    } else {
      GrowsOrStable(w, size);
      if Reached(w, size + 1) == Reached(w, size) {
        StableForever(w, size, n);
        assert d in Reached(w, n);
      } else {
        assert Reached(w, size) <= w.content.Keys;
        if Reached(w, size) != w.content.Keys {
          FewerMembers(Reached(w, size), w.content.Keys);
        }
        assert d in Reached(w, size);
      }
    }
  }

  /** A collection keeps every stored digest that lives, and everything lives on that did. */
  lemma CollectKeepsLive(w: World, picked: set<string>)
    ensures forall d | d in w.content && Lives(w, d) :: d in Collect(w, picked).content
    ensures forall n: nat :: Reach(Collect(w, picked), n) == Reach(w, n)
  {
    forall d | d in w.content && Lives(w, d)
      ensures d in Collect(w, picked).content
    {
      LiveIsReached(w, d);
    }
    forall n: nat
      ensures Reach(Collect(w, picked), n) == Reach(w, n)
    {
      CollectReaches(w, picked, n);
    }
  }

  lemma {:induction false} CollectReaches(w: World, picked: set<string>, n: nat)
    requires forall d | d in w.content && Lives(w, d) :: d in Collect(w, picked).content
    ensures Reach(Collect(w, picked), n) == Reach(w, n)
  {
    if n > 0 {
      CollectReaches(w, picked, n - 1);
      forall p | p in Reach(w, n - 1) && p in w.content
        ensures p in Collect(w, picked).content
      {
        assert Lives(w, p);
      }
    }
  }

  // ---------------------------------------------------------------- calls

  datatype Code = Unknown | NotFound | AlreadyExists | FailedPrecondition | InvalidArgument | Cancelled | Unavailable

  datatype Call =
    | GetTask(id: string)
    | PauseTask(id: string)
    | ResumeTask(id: string)
    | CreateLease
    | DeleteLease(lease: LeaseId)
    | Stat(key: string)
    | Mounts(key: string)
    | View(key: string, parent: string, held: Option<LeaseId>)
    | Remove(key: string)
    | Diff(left: Option<string>, right: string, held: Option<LeaseId>)
    | Info(digest: string)
    | Read(digest: string)
    | Write(expected: string, data: Bytes, labels: map<string, string>, held: Option<LeaseId>)
    | GetImage(name: string)
    | UpdateImage(name: string, target: Descriptor)
    | CreateImage(name: string, target: Descriptor)

  datatype Reply =
    | Task(status: Status)
    | Leased(lease: LeaseId)
    | Parent(parent: string)
    | Mounted(key: string)              // mounts showing the files of snapshot `key`
    | Diffed(digest: string, size: int)
    | Labels(labels: map<string, string>)
    | Data(data: Bytes)
    | Written(offset: int, digest: string)
    | Target(target: Descriptor)
    | Done

  type Answer = (World, Result<Reply, Code>)

  function Hold(w: World, held: Option<LeaseId>, digest: string): World {
    if held.Some? && held.value in w.leases
    then w.(leases := w.leases[held.value := w.leases[held.value] + {digest}])
    else w
  }

  /** Whether a call names a lease that is not there. */
  predicate BadLease(w: World, held: Option<LeaseId>) {
    held.Some? && held.value !in w.leases
  }

  function ServeTask(w: World, id: string, from: Status, to: Status): Answer {
    if id !in w.tasks then (w, Err(NotFound))
    else if w.tasks[id] != from then (w, Err(FailedPrecondition))
    else (w.(tasks := w.tasks[id := to]), Ok(Done))
  }

  function ServeView(w: World, key: string, parent: string, held: Option<LeaseId>): Answer {
    if BadLease(w, held) then (w, Err(NotFound))
    else if key in w.snapshots then (w, Err(AlreadyExists))
    else if parent !in w.snapshots then (w, Err(NotFound))
    else if w.snapshots[parent].kind != Committed then (w, Err(InvalidArgument))
    else (w.(snapshots := w.snapshots[key := SnapshotInfo(parent, ReadOnly, w.snapshots[parent].files)]),
          Ok(Mounted(parent)))
  }

  /** The layer is stored and labelled; a blob that is already there keeps its data. */
  function ServeDiff(lib: Lib, w: World, left: Option<string>, right: string, held: Option<LeaseId>): Answer {
    if BadLease(w, held) then (w, Err(NotFound))
    else if right !in w.snapshots || (left.Some? && left.value !in w.snapshots) then (w, Err(NotFound))
    else
      var before := if left.Some? then w.snapshots[left.value].files else map[];
      var data := lib.diff(before, w.snapshots[right].files);
      var digest := lib.Digest(data);
      var blob := if digest in w.content then w.content[digest] else Blob(data, map[]);
      var labelled := blob.(labels := blob.labels[UNCOMPRESSED := lib.Digest(lib.uncompressed(data))]);
      (Hold(w.(content := w.content[digest := labelled]), held, digest), Ok(Diffed(digest, |data|)))
  }

  function ServeWrite(lib: Lib, w: World, expected: string, data: Bytes, labels: map<string, string>,
                      held: Option<LeaseId>): Answer {
    if BadLease(w, held) then (w, Err(NotFound))
    else if expected in w.content then (w, Err(AlreadyExists))
    else if lib.Digest(data) != expected then (w, Err(FailedPrecondition))
    else (Hold(w.(content := w.content[expected := Blob(data, labels)]), held, expected), Ok(Written(|data|, expected)))
  }

  /** What a call does and answers when nothing goes wrong on the way. */
  function Serve(lib: Lib, w: World, call: Call): Answer {
    match call
    case GetTask(id) => (w, if id in w.tasks then Ok(Task(w.tasks[id])) else Err(NotFound))
    case PauseTask(id) => ServeTask(w, id, Running, Paused)
    case ResumeTask(id) => ServeTask(w, id, Paused, Running)
    case CreateLease =>
      (w.(leases := w.leases[w.leaseCount := {}], leaseCount := w.leaseCount + 1), Ok(Leased(w.leaseCount)))
    case DeleteLease(l) =>
      if l in w.leases then (w.(leases := w.leases - {l}), Ok(Done)) else (w, Err(NotFound))
    case Stat(key) => (w, if key in w.snapshots then Ok(Parent(w.snapshots[key].parent)) else Err(NotFound))
    case Mounts(key) => (w, if key in w.snapshots then Ok(Mounted(key)) else Err(NotFound))
    case View(key, parent, held) => ServeView(w, key, parent, held)
    case Remove(key) =>
      if key in w.snapshots then (w.(snapshots := w.snapshots - {key}), Ok(Done)) else (w, Err(NotFound))
    case Diff(left, right, held) => ServeDiff(lib, w, left, right, held)
    case Info(digest) => (w, if digest in w.content then Ok(Labels(w.content[digest].labels)) else Err(NotFound))
    case Read(digest) => (w, if digest in w.content then Ok(Data(w.content[digest].data)) else Err(NotFound))
    case Write(expected, data, labels, held) => ServeWrite(lib, w, expected, data, labels, held)
    case GetImage(name) => (w, if name in w.images then Ok(Target(w.images[name])) else Err(NotFound))
    case UpdateImage(name, target) =>
      if name in w.images then (w.(images := w.images[name := target]), Ok(Done)) else (w, Err(NotFound))
    case CreateImage(name, target) =>
      if name in w.images then (w, Err(AlreadyExists)) else (w.(images := w.images[name := target]), Ok(Done))
  }

  /** How a call ends: as it should, refused before it took effect, or with its answer lost after. */
  datatype Outcome = Undisturbed | Refused(code: Code) | Lost(code: Code)

  /** What surrounds one call: the digests a collection before it picks, and the call's outcome. */
  datatype Move = Move(picked: set<string>, outcome: Outcome)

  datatype Entry = Entry(call: Call, reply: Result<Reply, Code>, applied: bool)

  /** Everything there is to know about a server: its state, its decisions so far, the calls it
      answered and every state it went through. */
  datatype Past = Past(world: World, clock: nat, log: seq<Entry>, history: seq<World>)

  function Replied(lib: Lib, move: Move, w: World, call: Call): Entry {
    var (_, reply) := Serve(lib, w, call);
    match move.outcome
    case Undisturbed => Entry(call, reply, reply.Ok?)
    case Refused(code) => Entry(call, Err(code), false)
    case Lost(code) => Entry(call, Err(code), reply.Ok?)
  }

  function Moved(lib: Lib, move: Move, w: World, call: Call): World {
    if Replied(lib, move, w, call).applied then Serve(lib, w, call).0 else w
  }

  /** The past after one more call. */
  ghost function Called(lib: Lib, schedule: nat -> Move, p: Past, call: Call): Past {
    var move := schedule(p.clock);
    var swept := Collect(p.world, move.picked);
    var after := Moved(lib, move, swept, call);
    Past(after, p.clock + 1, p.log + [Replied(lib, move, swept, call)], p.history + [swept, after])
  }

  class Server {
    const lib: Lib
    const schedule: nat -> Move
    var world: World
    var clock: nat
    var log: seq<Entry>
    ghost var history: seq<World>

    ghost function State(): Past
      reads this
    {
      Past(world, clock, log, history)
    }

    constructor (lib: Lib, schedule: nat -> Move, world: World)
      requires Sound(lib, world)
      ensures this.lib == lib && this.schedule == schedule
      ensures State() == Past(world, 0, [], [world]) && Valid(lib, State())
    {
      this.lib := lib;
      this.schedule := schedule;
      this.world := world;
      clock := 0;
      log := [];
      history := [world];
    }

    /** Any call. */
    method Rpc(call: Call) returns (reply: Result<Reply, Code>)
      requires Valid(lib, State())
      modifies this
      ensures State() == Called(lib, schedule, old(State()), call)
      ensures |log| == |old(log)| + 1 && reply == log[|log| - 1].reply
      ensures Valid(lib, State())
    {
      CalledIsValid(lib, schedule, State(), call);
      var move := schedule(clock);
      var swept := Collect(world, move.picked);
      history := history + [swept];
      var entry := Replied(lib, move, swept, call);
      world := Moved(lib, move, swept, call);
      history := history + [world];
      log := log + [entry];
      clock := clock + 1;
      reply := entry.reply;
    }
  }

  // ---------------------------------------------------------------- what every call keeps

  /** The store is content addressed, and everything a lease holds is stored. */
  ghost predicate Sound(lib: Lib, w: World) {
    && (forall d | d in w.content :: lib.Digest(w.content[d].data) == d)
    && (forall l | l in w.leases :: l < w.leaseCount && w.leases[l] <= w.content.Keys)
  }

  ghost predicate Valid(lib: Lib, p: Past) {
    && |p.history| > 0
    && p.history[|p.history| - 1] == p.world
    && forall i | 0 <= i < |p.history| :: Sound(lib, p.history[i])
  }

  lemma SoundNow(lib: Lib, p: Past)
    requires Valid(lib, p)
    ensures Sound(lib, p.world)
  {
  }

  lemma CollectKeepsRoots(w: World, picked: set<string>)
    ensures forall d | d in Roots(w) && d in w.content :: d in Collect(w, picked).content
    ensures forall d, e | d in Roots(w) && d in w.content && e in Refs(w.content[d]) && e in w.content ::
      e in Collect(w, picked).content
  {
    ReachGrows(w, 0, |w.content|);
    forall d, e | d in Roots(w) && d in w.content && e in Refs(w.content[d]) && e in w.content
      ensures e in Collect(w, picked).content
    {
      assert e in Reach(w, 1);
      assert |w.content.Keys| > 0;
      ReachGrows(w, 1, |w.content|);
    }
  }

  lemma CollectIsSound(lib: Lib, w: World, picked: set<string>)
    requires Sound(lib, w)
    ensures Sound(lib, Collect(w, picked))
  {
    CollectKeepsRoots(w, picked);
    var v := Collect(w, picked);
    forall l | l in v.leases
      ensures v.leases[l] <= v.content.Keys
    {
      forall d | d in v.leases[l]
        ensures d in v.content.Keys
      {
        assert d in w.leases[l];
        assert d in Roots(w);
      }
    }
  }

  lemma ServeDiffIsSound(lib: Lib, w: World, left: Option<string>, right: string, held: Option<LeaseId>)
    requires Sound(lib, w)
    ensures Sound(lib, ServeDiff(lib, w, left, right, held).0)
  {
  }

  lemma ServeWriteIsSound(lib: Lib, w: World, expected: string, data: Bytes, labels: map<string, string>,
                          held: Option<LeaseId>)
    requires Sound(lib, w)
    ensures Sound(lib, ServeWrite(lib, w, expected, data, labels, held).0)
  {
  }

  lemma ServeIsSound(lib: Lib, w: World, call: Call)
    requires Sound(lib, w)
    ensures Sound(lib, Serve(lib, w, call).0)
  {
    hide ServeDiff, ServeWrite;
    match call
    case Diff(left, right, held) => ServeDiffIsSound(lib, w, left, right, held);
    case Write(expected, data, labels, held) => ServeWriteIsSound(lib, w, expected, data, labels, held);
    case _ =>
  }

  /** No schedule and no call leads out of the sound states. */
  lemma CalledIsValid(lib: Lib, schedule: nat -> Move, p: Past, call: Call)
    requires Valid(lib, p)
    ensures Valid(lib, Called(lib, schedule, p, call))
  {
    var move := schedule(p.clock);
    var swept := Collect(p.world, move.picked);
    assert Sound(lib, p.history[|p.history| - 1]);
    CollectIsSound(lib, p.world, move.picked);
    ServeIsSound(lib, swept, call);
  }

  /** No call fails on its way; the collector still runs when it likes. */
  ghost predicate Quiet(schedule: nat -> Move) {
    forall t: nat :: schedule(t).outcome == Undisturbed
  }

  /** No call fails on its way, and nothing is collected. */
  ghost predicate Calm(schedule: nat -> Move) {
    forall t: nat :: schedule(t) == Move({}, Undisturbed)
  }

  lemma CalmIsQuiet(schedule: nat -> Move)
    requires Calm(schedule)
    ensures Quiet(schedule)
  {
  }

  lemma CalmCall(lib: Lib, schedule: nat -> Move, p: Past, call: Call)
    requires Calm(schedule)
    ensures var (w, reply) := Serve(lib, p.world, call);
      var q := Called(lib, schedule, p, call);
      && q.log == p.log + [Entry(call, reply, reply.Ok?)]
      && (reply.Ok? ==> q.world == w) && (reply.Err? ==> q.world == p.world)
  {
    assert Collect(p.world, {}).content == p.world.content;
  }

  /** No call removes content; only the collector does. */
  lemma CalmGrows(lib: Lib, schedule: nat -> Move, p: Past, call: Call)
    ensures Calm(schedule) ==> p.world.content.Keys <= Called(lib, schedule, p, call).world.content.Keys
  {
    hide Calm;
    if Calm(schedule) {
      CalmCall(lib, schedule, p, call);
    }
  }

  // ---------------------------------------------------------------- what a stretch of calls keeps

  /** Calls that neither control the task nor open or close a lease. */
  predicate Plain(call: Call) {
    !call.GetTask? && !call.PauseTask? && !call.ResumeTask? && !call.CreateLease? && !call.DeleteLease?
  }

  /** Calls that change an image record. */
  predicate Records(call: Call) {
    call.UpdateImage? || call.CreateImage?
  }

  /** A record was put, and the answer was lost. */
  predicate LostRecord(e: Entry) {
    Records(e.call) && e.applied && e.reply.Err?
  }

  /** That happened between two logs. */
  ghost predicate RecordLost(a: seq<Entry>, b: seq<Entry>) {
    exists i :: |a| <= i < |b| && LostRecord(b[i])
  }

  /** Calls made under no lease but `l`. */
  predicate Under(call: Call, l: LeaseId) {
    call.View? || call.Diff? || call.Write? ==> call.held == None || call.held == Some(l)
  }

  /** How two states of one run, an earlier and a later one, are related. */
  datatype Relation = Sweeping | Keeping(lease: LeaseId) | Recording(lease: LeaseId, name: string, target: Descriptor)

  /** Only content went, and nothing that lives. */
  ghost predicate Swept(w: World, v: World) {
    && v == w.(content := v.content)
    && (forall d | d in v.content :: d in w.content && v.content[d] == w.content[d])
    && (forall d | d in w.content && Lives(w, d) :: d in v.content)
    && (forall n: nat :: Reach(v, n) == Reach(w, n))
  }

  /** The lease is still there and holds at least what it held; the blobs it held are stored with the
      same data; no task and no other lease changed. */
  ghost predicate Kept(w: World, v: World, l: LeaseId) {
    && l in w.leases && l in v.leases
    && w.leases[l] <= v.leases[l]
    && v.leases == w.leases[l := v.leases[l]] && v.leaseCount == w.leaseCount
    && v.tasks == w.tasks
    && forall d | d in w.leases[l] && d in w.content :: d in v.content && v.content[d].data == w.content[d].data
  }

  ghost predicate Related(rel: Relation, w: World, v: World) {
    match rel
    case Sweeping => Swept(w, v)
    case Keeping(l) => Kept(w, v, l) && v.images == w.images
    case Recording(l, name, target) => Kept(w, v, l) && Registered(w, v, l, name, target)
  }

  /** At most this record changed, and nothing of what the lease holds. */
  ghost predicate Registered(w: World, v: World, l: LeaseId, name: string, target: Descriptor)
    requires l in w.leases
  {
    && (v.images == w.images || v.images == w.images[name := target])
    && v.leases == w.leases && v.snapshots == w.snapshots
    && forall d | d in w.leases[l] :: d in w.content && d in v.content && v.content[d] == w.content[d]
  }

  /** `b` continues `a` by plain calls only, and every two states since are related. */
  ghost predicate Ran(a: Past, b: Past, rel: Relation) {
    && a.log <= b.log && (forall i | |a.log| <= i < |b.log| :: Plain(b.log[i].call))
    && b.clock - a.clock == |b.log| - |a.log|
    && |a.history| > 0 && a.history <= b.history
    && forall i, j | |a.history| - 1 <= i <= j < |b.history| :: Related(rel, b.history[i], b.history[j])
  }

  lemma RelatedTransitive(rel: Relation, x: World, y: World, z: World)
    requires Related(rel, x, y) && Related(rel, y, z)
    ensures Related(rel, x, z)
  {
  }

  lemma SweptTransitive(x: World, y: World, z: World)
    requires Swept(x, y) && Swept(y, z)
    ensures Swept(x, z)
  {
    RelatedTransitive(Sweeping, x, y, z);
  }

  lemma RanTransitive(a: Past, b: Past, c: Past, rel: Relation)
    requires Ran(a, b, rel) && Ran(b, c, rel)
    ensures Ran(a, c, rel)
  {
    var m := |b.history| - 1;
    forall i, j | |a.history| - 1 <= i <= j < |c.history|
      ensures Related(rel, c.history[i], c.history[j])
    {
      if j <= m {
        assert c.history[i] == b.history[i] && c.history[j] == b.history[j];
      } else if i < m {
        assert c.history[i] == b.history[i] && c.history[m] == b.history[m];
        assert Related(rel, b.history[i], b.history[m]);
        RelatedTransitive(rel, c.history[i], c.history[m], c.history[j]);
      }
    }
  }

  /** One call, given what relates the states before it, after the sweep, and after it. */
  lemma RanCalled(lib: Lib, schedule: nat -> Move, p: Past, call: Call, rel: Relation)
    requires Valid(lib, p) && Plain(call)
    requires var q := Called(lib, schedule, p, call);
      var swept := Collect(p.world, schedule(p.clock).picked);
      && Related(rel, p.world, p.world) && Related(rel, p.world, swept)
      && Related(rel, swept, q.world) && Related(rel, swept, swept) && Related(rel, q.world, q.world)
    ensures Ran(p, Called(lib, schedule, p, call), rel)
  {
    var q := Called(lib, schedule, p, call);
    var swept := Collect(p.world, schedule(p.clock).picked);
    var n := |p.history|;
    RelatedTransitive(rel, p.world, swept, q.world);
    assert q.history[n - 1] == p.world && q.history[n] == swept && q.history[n + 1] == q.world;
    forall i, j | n - 1 <= i <= j < n + 2
      ensures Related(rel, q.history[i], q.history[j])
    {
      assert i == n - 1 || i == n || i == n + 1;
      assert j == n - 1 || j == n || j == n + 1;
    }
  }

  lemma CollectSweeps(w: World, picked: set<string>)
    ensures Swept(w, w) && Swept(w, Collect(w, picked))
  {
    CollectKeepsLive(w, picked);
  }

  /** Calls that only ask. */
  predicate Asks(call: Call) {
    call.Stat? || call.Mounts? || call.Info? || call.Read? || call.GetImage?
  }

  lemma AskingSweeps(lib: Lib, schedule: nat -> Move, p: Past, call: Call)
    requires Valid(lib, p) && Asks(call)
    ensures Ran(p, Called(lib, schedule, p, call), Sweeping)
  {
    var swept := Collect(p.world, schedule(p.clock).picked);
    CollectSweeps(p.world, schedule(p.clock).picked);
    CollectSweeps(swept, {});
    RanCalled(lib, schedule, p, call, Sweeping);
  }

  lemma SweptIsKept(lib: Lib, w: World, v: World, l: LeaseId)
    requires Sound(lib, w) && l in w.leases && Swept(w, v)
    ensures Kept(w, v, l)
  {
    forall d | d in w.leases[l]
      ensures Lives(w, d)
    {
      assert d in Reach(w, 0);
    }
  }

  /** A stretch of questions asked under a lease keeps the lease. */
  lemma SweepingKeeps(lib: Lib, a: Past, b: Past, l: LeaseId)
    requires Valid(lib, a) && Valid(lib, b) && Ran(a, b, Sweeping) && l in a.world.leases
    ensures Ran(a, b, Keeping(l))
  {
    var s := |a.history| - 1;
    forall i, j | s <= i <= j < |b.history|
      ensures Kept(b.history[i], b.history[j], l)
    {
      assert b.history[s] == a.world;
      assert Related(Sweeping, b.history[s], b.history[i]) && Related(Sweeping, b.history[i], b.history[j]);
      SweptIsKept(lib, b.history[i], b.history[j], l);
    }
    forall i, j | s <= i <= j < |b.history|
      ensures Related(Keeping(l), b.history[i], b.history[j])
    {
      assert Related(Sweeping, b.history[i], b.history[j]);
    }
  }

  lemma DiffKeeps(lib: Lib, w: World, left: Option<string>, right: string, held: Option<LeaseId>, l: LeaseId)
    requires l in w.leases && (held == None || held == Some(l))
    ensures Kept(w, ServeDiff(lib, w, left, right, held).0, l)
    ensures ServeDiff(lib, w, left, right, held).0.images == w.images
  {
  }

  lemma WriteKeeps(lib: Lib, w: World, expected: string, data: Bytes, labels: map<string, string>,
                   held: Option<LeaseId>, l: LeaseId)
    requires l in w.leases && (held == None || held == Some(l))
    ensures Kept(w, ServeWrite(lib, w, expected, data, labels, held).0, l)
    ensures ServeWrite(lib, w, expected, data, labels, held).0.images == w.images
  {
  }

  lemma ServeKeeps(lib: Lib, w: World, call: Call, l: LeaseId)
    requires Plain(call) && Under(call, l) && l in w.leases
    ensures Kept(w, w, l) && Kept(w, Serve(lib, w, call).0, l)
    ensures !Records(call) ==> Serve(lib, w, call).0.images == w.images
  {
    hide ServeDiff, ServeWrite;
    match call
    case Diff(left, right, held) => DiffKeeps(lib, w, left, right, held, l);
    case Write(expected, data, labels, held) => WriteKeeps(lib, w, expected, data, labels, held, l);
    case _ =>
  }

  lemma KeptIsReflexive(w: World, v: World, l: LeaseId)
    requires Kept(w, v, l)
    ensures Kept(w, w, l) && Kept(v, v, l)
  {
  }

  /** Every plain call but those for records keeps the lease it is made under. */
  lemma PlainKeeps(lib: Lib, schedule: nat -> Move, p: Past, call: Call, l: LeaseId)
    requires Valid(lib, p) && Plain(call) && Under(call, l) && !Records(call) && l in p.world.leases
    ensures Ran(p, Called(lib, schedule, p, call), Keeping(l))
  {
    var picked := schedule(p.clock).picked;
    var swept := Collect(p.world, picked);
    CollectSweeps(p.world, picked);
    CollectIsSound(lib, p.world, picked);
    SweptIsKept(lib, p.world, swept, l);
    ServeKeeps(lib, swept, call, l);
    KeptIsReflexive(swept, Moved(lib, schedule(p.clock), swept, call), l);
    RanCalled(lib, schedule, p, call, Keeping(l));
  }

  lemma RanReflexive(lib: Lib, p: Past, rel: Relation)
    requires Valid(lib, p) && Related(rel, p.world, p.world)
    ensures Ran(p, p, rel)
  {
  }

  /** The two ends of a stretch are related. */
  lemma RanEnds(lib: Lib, a: Past, b: Past, rel: Relation)
    requires Valid(lib, a) && Valid(lib, b) && Ran(a, b, rel)
    ensures Related(rel, a.world, b.world)
  {
    assert Related(rel, b.history[|a.history| - 1], b.history[|b.history| - 1]);
  }

  /** A read that answers returns the blob that was there before it. */
  lemma ReadReplies(lib: Lib, schedule: nat -> Move, p: Past, digest: string)
    ensures var q := Called(lib, schedule, p, Read(digest));
      var reply := q.log[|q.log| - 1].reply;
      reply.Ok? ==> digest in p.world.content && reply.value == Data(p.world.content[digest].data)
  {
  }

  /** A stretch of questions: nothing changed but that content may have been collected. */
  ghost predicate Reading(a: Past, b: Past) {
    Ran(a, b, Sweeping) && Swept(a.world, b.world)
  }

  lemma ReadingReflexive(lib: Lib, p: Past)
    requires Valid(lib, p)
    ensures Reading(p, p)
  {
    CollectSweeps(p.world, {});
    RanReflexive(lib, p, Sweeping);
  }

  lemma ReadingTransitive(a: Past, b: Past, c: Past)
    requires Reading(a, b) && Reading(b, c)
    ensures Reading(a, c)
  {
    hide Swept;
    RanTransitive(a, b, c, Sweeping);
    SweptTransitive(a.world, b.world, c.world);
  }

  lemma ReadingAt(a: Past, b: Past, d: string)
    requires Reading(a, b)
    ensures d in b.world.content ==> d in a.world.content && b.world.content[d] == a.world.content[d]
  {
  }

  /** A digest that no collection takes before the calls ahead: it lives, or there are no collections; and no
      call fails on its way. */
  ghost predicate Stays(schedule: nat -> Move, w: World, d: string) {
    Calm(schedule) || (Quiet(schedule) && Lives(w, d))
  }

  /** When nothing goes wrong, asking changes nothing. */
  ghost predicate Still(schedule: nat -> Move, w: World, v: World) {
    Calm(schedule) ==> v == w
  }

  lemma StillReflexive(schedule: nat -> Move, w: World)
    ensures Still(schedule, w, w)
  {
  }

  lemma StillTransitive(schedule: nat -> Move, a: World, b: World, c: World)
    requires Still(schedule, a, b) && Still(schedule, b, c)
    ensures Still(schedule, a, c)
  {
  }

  lemma ReadingStays(schedule: nat -> Move, a: Past, b: Past, d: string)
    requires Reading(a, b) && Still(schedule, a.world, b.world) && Stays(schedule, a.world, d)
    ensures Stays(schedule, b.world, d) && (d in a.world.content ==> d in b.world.content)
  {
    hide Calm, Quiet, Ran;
    if !Calm(schedule) {
      var n: nat :| d in Reach(a.world, n);
      assert d in Reach(b.world, n);
    }
  }

  /** Nothing that stays is gone in `v`, and all that is left of the content is as it was. */
  ghost predicate Outlasts(schedule: nat -> Move, w: World, v: World) {
    && (forall d | d in v.content :: d in w.content && v.content[d] == w.content[d])
    && (forall d | Stays(schedule, w, d) :: Stays(schedule, v, d) && (d in w.content ==> d in v.content))
  }

  lemma ReadingOutlasts(schedule: nat -> Move, a: Past, b: Past)
    requires Reading(a, b) && Still(schedule, a.world, b.world)
    ensures Outlasts(schedule, a.world, b.world)
  {
    ReadingShrinks(a, b);
    forall d | Stays(schedule, a.world, d)
      ensures Stays(schedule, b.world, d) && (d in a.world.content ==> d in b.world.content)
    {
      ReadingStays(schedule, a, b, d);
    }
  }

  /** A read of a digest that stays fails only where there is nothing to read. */
  lemma ReadOfStaying(lib: Lib, schedule: nat -> Move, p: Past, digest: string)
    requires Stays(schedule, p.world, digest)
    ensures var q := Called(lib, schedule, p, Read(digest));
      q.log[|q.log| - 1].reply ==
        if digest in p.world.content then Ok(Data(p.world.content[digest].data)) else Err(NotFound)
  {
    if Calm(schedule) {
      CalmCall(lib, schedule, p, Read(digest));
    } else {
      CollectKeepsLive(p.world, schedule(p.clock).picked);
    }
  }

  lemma ReadingShrinks(a: Past, b: Past)
    requires Reading(a, b)
    ensures a.log <= b.log
    ensures b.world == a.world.(content := b.world.content)
    ensures forall d | d in b.world.content :: d in a.world.content && b.world.content[d] == a.world.content[d]
  {
  }

  lemma Asked(lib: Lib, schedule: nat -> Move, p: Past, call: Call)
    requires Valid(lib, p) && Asks(call)
    ensures Reading(p, Called(lib, schedule, p, call))
  {
    var q := Called(lib, schedule, p, call);
    AskingSweeps(lib, schedule, p, call);
    CalledIsValid(lib, schedule, p, call);
    RanEnds(lib, p, q, Sweeping);
  }

  lemma WorkingGrows(a: Past, b: Past, lease: LeaseId)
    requires Working(a, b, lease)
    ensures a.log <= b.log
  {
  }

  /** A stretch of work under a lease, in which no image record changes. */
  ghost predicate Working(a: Past, b: Past, lease: LeaseId) {
    Ran(a, b, Keeping(lease)) && Kept(a.world, b.world, lease) && b.world.images == a.world.images
  }

  /** A stretch under a lease in which a record is put and nothing else happens but collections. */
  ghost predicate Registering(a: Past, b: Past, lease: LeaseId, name: string, target: Descriptor) {
    Ran(a, b, Recording(lease, name, target)) && Related(Recording(lease, name, target), a.world, b.world)
  }

  lemma RegisteringTransitive(a: Past, b: Past, c: Past, lease: LeaseId, name: string, target: Descriptor)
    requires Registering(a, b, lease, name, target) && Registering(b, c, lease, name, target)
    ensures Registering(a, c, lease, name, target)
  {
    hide Related;
    RanTransitive(a, b, c, Recording(lease, name, target));
    RelatedTransitive(Recording(lease, name, target), a.world, b.world, c.world);
  }

  lemma SoundIsRegistered(lib: Lib, w: World, lease: LeaseId, name: string, target: Descriptor)
    requires Sound(lib, w) && lease in w.leases
    ensures Related(Recording(lease, name, target), w, w)
  {
  }

  lemma SweptIsRegistered(lib: Lib, w: World, picked: set<string>, lease: LeaseId, name: string, target: Descriptor)
    requires Sound(lib, w) && lease in w.leases
    ensures Related(Recording(lease, name, target), w, Collect(w, picked))
  {
    HeldSurvives(lib, w, picked, lease);
    CollectSweeps(w, picked);
    SweptIsKept(lib, w, Collect(w, picked), lease);
  }

  /** A call that puts the record. */
  lemma Registers(lib: Lib, schedule: nat -> Move, p: Past, call: Call, lease: LeaseId)
    requires Valid(lib, p) && lease in p.world.leases && Records(call)
    ensures Registering(p, Called(lib, schedule, p, call), lease, call.name, call.target)
  {
    hide Related;
    var rel := Recording(lease, call.name, call.target);
    var q := Called(lib, schedule, p, call);
    var swept := Collect(p.world, schedule(p.clock).picked);
    SoundNow(lib, p);
    CollectIsSound(lib, p.world, schedule(p.clock).picked);
    CalledIsValid(lib, schedule, p, call);
    SoundNow(lib, q);
    SoundIsRegistered(lib, p.world, lease, call.name, call.target);
    SweptIsRegistered(lib, p.world, schedule(p.clock).picked, lease, call.name, call.target);
    SoundIsRegistered(lib, swept, lease, call.name, call.target);
    MovedIsRegistered(lib, schedule(p.clock), swept, call, lease);
    SoundIsRegistered(lib, q.world, lease, call.name, call.target);
    RanCalled(lib, schedule, p, call, rel);
    RanEnds(lib, p, q, rel);
  }

  lemma MovedIsRegistered(lib: Lib, move: Move, w: World, call: Call, lease: LeaseId)
    requires Sound(lib, w) && lease in w.leases && Records(call)
    ensures Related(Recording(lease, call.name, call.target), w, Moved(lib, move, w, call))
    ensures lease in Moved(lib, move, w, call).leases
  {
  }

  lemma WorkingReflexive(lib: Lib, p: Past, lease: LeaseId)
    requires Valid(lib, p) && lease in p.world.leases
    ensures Working(p, p, lease)
  {
    RanReflexive(lib, p, Keeping(lease));
  }

  lemma WorkingTransitive(a: Past, b: Past, c: Past, lease: LeaseId)
    requires Working(a, b, lease) && Working(b, c, lease)
    ensures Working(a, c, lease)
  {
    hide Kept;
    RanTransitive(a, b, c, Keeping(lease));
    KeptTransitive(a.world, b.world, c.world, lease);
  }

  lemma KeptTransitive(x: World, y: World, z: World, lease: LeaseId)
    requires Kept(x, y, lease) && Kept(y, z, lease)
    ensures Kept(x, z, lease)
  {
  }

  lemma ReadingWorks(lib: Lib, a: Past, b: Past, lease: LeaseId)
    requires Valid(lib, a) && Valid(lib, b) && Reading(a, b) && lease in a.world.leases
    ensures Working(a, b, lease)
  {
    SweepingKeeps(lib, a, b, lease);
    RanEnds(lib, a, b, Keeping(lease));
  }

  lemma Worked(lib: Lib, schedule: nat -> Move, p: Past, call: Call, lease: LeaseId)
    requires Valid(lib, p) && Plain(call) && Under(call, lease) && !Records(call) && lease in p.world.leases
    ensures Working(p, Called(lib, schedule, p, call), lease)
  {
    var q := Called(lib, schedule, p, call);
    PlainKeeps(lib, schedule, p, call, lease);
    CalledIsValid(lib, schedule, p, call);
    RanEnds(lib, p, q, Keeping(lease));
  }

  /** What a lease holds stays as it is under a collection. */
  lemma HeldSurvives(lib: Lib, w: World, picked: set<string>, lease: LeaseId)
    requires Sound(lib, w) && lease in w.leases
    ensures forall d | d in w.leases[lease] ::
      d in w.content && d in Collect(w, picked).content && Collect(w, picked).content[d] == w.content[d]
  {
    CollectKeepsRoots(w, picked);
    forall d | d in w.leases[lease]
      ensures d in Roots(w)
    {
    }
  }

  lemma WriteStores(lib: Lib, w: World, digest: string, data: Bytes, labels: map<string, string>, lease: LeaseId)
    requires lease in w.leases
    ensures var (v, reply) := ServeWrite(lib, w, digest, data, labels, Some(lease));
      && v.images == w.images && v.snapshots == w.snapshots
      && (forall d | d in w.content :: d in v.content && v.content[d] == w.content[d])
      && (reply.Ok? ==>
          && reply.value == Written(|data|, digest)
          && digest in v.content && v.content[digest] == Blob(data, labels)
          && lease in v.leases && digest in v.leases[lease])
      && (forall d | d in v.content :: d in w.content || d == digest)
      && (digest !in w.content && lib.Digest(data) == digest ==> reply.Ok?)
      && (digest in w.content ==> reply == Err(AlreadyExists))
  {
  }

  /** A write that answers has stored the blob, and left alone what the lease held. */
  lemma WriteReplies(lib: Lib, schedule: nat -> Move, p: Past, digest: string, data: Bytes, labels: map<string, string>,
                     lease: LeaseId)
    requires Valid(lib, p) && lease in p.world.leases
    ensures var q := Called(lib, schedule, p, Write(digest, data, labels, Some(lease)));
      && q.world.images == p.world.images && q.world.snapshots == p.world.snapshots
      && forall d | d in p.world.leases[lease] ::
           d in p.world.content && d in q.world.content && q.world.content[d] == p.world.content[d]
    ensures var q := Called(lib, schedule, p, Write(digest, data, labels, Some(lease)));
      var reply := q.log[|q.log| - 1].reply;
      reply.Ok? ==>
        && reply.value == Written(|data|, digest)
        && digest in q.world.content && q.world.content[digest] == Blob(data, labels)
        && lease in q.world.leases && digest in q.world.leases[lease]
    ensures var q := Called(lib, schedule, p, Write(digest, data, labels, Some(lease)));
      && (forall d | d in q.world.content :: d in p.world.content || d == digest)
      && (Quiet(schedule) && digest !in p.world.content && lib.Digest(data) == digest ==> q.log[|q.log| - 1].reply.Ok?)
  {
    hide ServeWrite;
    HeldSurvives(lib, p.world, schedule(p.clock).picked, lease);
    WriteStores(lib, Collect(p.world, schedule(p.clock).picked), digest, data, labels, lease);
  }

  /** When nothing goes wrong, a write is refused exactly where its digest is stored. */
  lemma CalmWrites(lib: Lib, schedule: nat -> Move, p: Past, digest: string, data: Bytes, labels: map<string, string>,
                   lease: LeaseId)
    requires Calm(schedule) && lease in p.world.leases && lib.Digest(data) == digest
    ensures var q := Called(lib, schedule, p, Write(digest, data, labels, Some(lease)));
      var reply := q.log[|q.log| - 1].reply;
      && p.world.content.Keys <= q.world.content.Keys
      && if digest in p.world.content then reply == Err(AlreadyExists) else reply.Ok?
  {
    hide Calm;
    WriteStores(lib, p.world, digest, data, labels, lease);
    CalmCall(lib, schedule, p, Write(digest, data, labels, Some(lease)));
  }

  /** Changing an image record leaves content, leases and snapshots alone. */
  lemma RecordReplies(lib: Lib, schedule: nat -> Move, p: Past, call: Call, lease: LeaseId)
    requires Valid(lib, p) && lease in p.world.leases
    requires call.UpdateImage? || call.CreateImage?
    ensures var q := Called(lib, schedule, p, call);
      && q.world.snapshots == p.world.snapshots
      && q.world.leases == p.world.leases
      && (forall d | d in p.world.leases[lease] ::
           d in p.world.content && d in q.world.content && q.world.content[d] == p.world.content[d])
    ensures var q := Called(lib, schedule, p, call);
      && (q.world.images == p.world.images || q.world.images == p.world.images[call.name := call.target])
      && (q.log[|q.log| - 1].reply.Ok? ==> q.world.images == p.world.images[call.name := call.target])
      && q.log == p.log + [q.log[|q.log| - 1]] && q.log[|q.log| - 1].call == call
      && (q.world.images != p.world.images ==> q.log[|q.log| - 1].applied)
      && (Quiet(schedule) ==>
          var reply := q.log[|q.log| - 1].reply;
          && (reply.Ok? <==> (call.name in p.world.images <==> call.UpdateImage?))
          && (reply == Err(NotFound) || !call.UpdateImage? || reply.Ok?)
          && (reply.Err? ==> q.world.images == p.world.images))
  {
    HeldSurvives(lib, p.world, schedule(p.clock).picked, lease);
  }
}
