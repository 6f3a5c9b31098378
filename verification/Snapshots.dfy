/** Walking a container's snapshots and turning each into an image layer. */
module Snapshots {
  import opened Wrappers
  import opened Python
  import opened Digests
  import opened Containerd
  import opened Manifests
  import opened Images

  datatype Snapshot = Snapshot(key: string, isActive: bool)

  datatype SnapshotDiff = SnapshotDiff(id: string, descriptor: Descriptor, parentKey: Option<string>)

  type Catalogue = map<string, SnapshotInfo>

  function ViewKey(key: string): string {
    key + "-parent-view"
  }

  /** The view of `k` is there on top of what was there. */
  ghost predicate ViewLeft(before: Catalogue, after: Catalogue, k: string) {
    && k in before && ViewKey(k) !in before
    && after == before[ViewKey(k) := SnapshotInfo(k, ReadOnly, before[k].files)]
  }

  /** The snapshots are as before, or the view of one of `keys` is left over. */
  ghost predicate Leftover(before: Catalogue, after: Catalogue, keys: set<string>) {
    after == before || exists k | k in keys :: ViewLeft(before, after, k)
  }

  // ---------------------------------------------------------------- one snapshot

  method GetParent(server: Server, snapshot: Snapshot, lease: LeaseId) returns (r: Result<Option<Snapshot>, Code>)
    requires Valid(server.lib, server.State()) && lease in server.world.leases
    modifies server
    ensures Valid(server.lib, server.State()) && Working(old(server.State()), server.State(), lease)
    ensures server.world == old(server.world).(content := server.world.content)
    ensures Drawn(server.schedule, old(server.world.content), server.world.content, {})
    ensures r.Ok? ==> snapshot.key in server.world.snapshots
    ensures r.Ok? ==>
      var parent := server.world.snapshots[snapshot.key].parent;
      r.value == if parent == "" then None else Some(Snapshot(parent, false))
    ensures r.Err? ==> CallFailed(r, server.log)
    ensures Quiet(server.schedule) && snapshot.key in server.world.snapshots ==> r.Ok?
  {
    ghost var before := server.State();
    var reply := server.Rpc(Stat(snapshot.key));
    AskedUnder(server.lib, server.schedule, before, Stat(snapshot.key), lease);
    if reply.Err? {
      return Err(reply.error);
    }
    return Ok(if reply.value.parent == "" then None else Some(Snapshot(reply.value.parent, false)));
  }

  /** Blobs are what they were, or hold one of `datas`; when nothing goes wrong, none is gone. */
  ghost predicate Drawn(schedule: nat -> Move, before: Content, after: Content, datas: set<Bytes>) {
    && (forall d | d in after :: (d in before && after[d].data == before[d].data) || after[d].data in datas)
    && (Calm(schedule) ==> before.Keys <= after.Keys)
  }

  lemma DrawnTransitive(schedule: nat -> Move, a: Content, b: Content, c: Content, x: set<Bytes>, y: set<Bytes>)
    requires Drawn(schedule, a, b, x) && Drawn(schedule, b, c, y)
    ensures Drawn(schedule, a, c, x + y)
  {
  }

  lemma AskedUnder(lib: Lib, schedule: nat -> Move, p: Past, call: Call, lease: LeaseId)
    requires Valid(lib, p) && Asks(call) && lease in p.world.leases
    ensures var q := Called(lib, schedule, p, call);
      && Working(p, q, lease)
      && q.world == p.world.(content := q.world.content)
      && Drawn(schedule, p.world.content, q.world.content, {})
  {
    hide Working, Calm;
    Worked(lib, schedule, p, call, lease);
    CalmGrows(lib, schedule, p, call);
  }

  predicate IsCommitted(snapshots: Catalogue, key: string) {
    key in snapshots && snapshots[key].kind == Committed
  }

  lemma ViewServes(w: World, key: string, lease: LeaseId)
    requires lease in w.leases
    ensures var (v, reply) := ServeView(w, ViewKey(key), key, Some(lease));
      && v.images == w.images && v.content == w.content
      && (reply.Ok? <==> ViewKey(key) !in w.snapshots && IsCommitted(w.snapshots, key))
      && (if reply.Ok? then reply.value == Mounted(key) && ViewLeft(w.snapshots, v.snapshots, key) else v == w)
  {
  }

  lemma ViewReplies(lib: Lib, schedule: nat -> Move, p: Past, key: string, lease: LeaseId)
    requires Valid(lib, p) && lease in p.world.leases
    ensures var q := Called(lib, schedule, p, View(ViewKey(key), key, Some(lease)));
      var reply := q.log[|q.log| - 1].reply;
      && Drawn(schedule, p.world.content, q.world.content, {})
      && q.world.images == p.world.images
      && (q.world.snapshots == p.world.snapshots || ViewLeft(p.world.snapshots, q.world.snapshots, key))
      && (reply.Ok? ==>
          && reply.value == Mounted(key) && IsCommitted(p.world.snapshots, key)
          && ViewLeft(p.world.snapshots, q.world.snapshots, key))
      && (Quiet(schedule) && ViewKey(key) !in p.world.snapshots && IsCommitted(p.world.snapshots, key) ==> reply.Ok?)
  {
    hide ServeView, ViewLeft, Calm;
    ViewServes(Collect(p.world, schedule(p.clock).picked), key, lease);
    CalmGrows(lib, schedule, p, View(ViewKey(key), key, Some(lease)));
  }

  /** Removing a key leaves every other snapshot, whether it answers or not. */
  lemma RemoveReplies(lib: Lib, schedule: nat -> Move, p: Past, key: string)
    ensures var q := Called(lib, schedule, p, Remove(key));
      var reply := q.log[|q.log| - 1].reply;
      && Drawn(schedule, p.world.content, q.world.content, {})
      && q.world.images == p.world.images
      && (q.world.snapshots == p.world.snapshots || q.world.snapshots == p.world.snapshots - {key})
      && (reply.Ok? ==> q.world.snapshots == p.world.snapshots - {key})
      && (Quiet(schedule) && key in p.world.snapshots ==> reply.Ok?)
  {
    hide Calm;
    CalmGrows(lib, schedule, p, Remove(key));
  }

  /** Mounts showing a snapshot's files. A committed snapshot is shown through a view that is removed
      again; when all goes well the catalogue is as before. */
  method GetMounts(server: Server, snapshot: Snapshot, lease: LeaseId) returns (r: Result<string, Code>)
    requires Valid(server.lib, server.State()) && lease in server.world.leases
    modifies server
    ensures Valid(server.lib, server.State()) && Working(old(server.State()), server.State(), lease)
    ensures server.world.images == old(server.world.images)
    ensures Drawn(server.schedule, old(server.world.content), server.world.content, {})
    ensures Leftover(old(server.world.snapshots), server.world.snapshots, {snapshot.key})
    ensures r.Ok? ==> server.world.snapshots == old(server.world.snapshots)
    ensures r.Ok? ==> r.value == snapshot.key && snapshot.key in server.world.snapshots
    ensures r.Err? ==> CallFailed(r, server.log)
    ensures r.Ok? ==> Mountable(old(server.world.snapshots), snapshot)
    ensures Quiet(server.schedule) && Mountable(old(server.world.snapshots), snapshot) ==> r.Ok?
  {
    if snapshot.isActive {
      ghost var before := server.State();
      var reply := server.Rpc(Mounts(snapshot.key));
      AskedUnder(server.lib, server.schedule, before, Mounts(snapshot.key), lease);
      return if reply.Ok? then Ok(reply.value.key) else Err(reply.error);
    }
    r := GetCommittedSnapshotMounts(server, snapshot, lease);
  }

  /** Mounting can go ahead: the snapshot is there and its view's key is free. */
  ghost predicate Mountable(snapshots: Catalogue, s: Snapshot) {
    && s.key in snapshots
    && (!s.isActive ==> snapshots[s.key].kind == Committed && ViewKey(s.key) !in snapshots)
  }

  method GetCommittedSnapshotMounts(server: Server, snapshot: Snapshot,
                                    lease: LeaseId) returns (r: Result<string, Code>)
    requires Valid(server.lib, server.State()) && lease in server.world.leases
    requires !snapshot.isActive
    modifies server
    ensures Valid(server.lib, server.State()) && Working(old(server.State()), server.State(), lease)
    ensures server.world.images == old(server.world.images)
    ensures Drawn(server.schedule, old(server.world.content), server.world.content, {})
    ensures Leftover(old(server.world.snapshots), server.world.snapshots, {snapshot.key})
    ensures r.Ok? ==> server.world.snapshots == old(server.world.snapshots)
    ensures r.Ok? ==> r.value == snapshot.key && snapshot.key in server.world.snapshots
    ensures r.Err? ==> CallFailed(r, server.log)
    ensures r.Ok? ==> Mountable(old(server.world.snapshots), snapshot)
    ensures Quiet(server.schedule) && Mountable(old(server.world.snapshots), snapshot) ==> r.Ok?
  {
    hide Working, Valid, Called;
    var lib := server.lib;
    var viewKey := ViewKey(snapshot.key);
    ghost var start := server.State();
    var view := server.Rpc(View(viewKey, snapshot.key, Some(lease)));
    Worked(lib, server.schedule, start, View(viewKey, snapshot.key, Some(lease)), lease);
    ViewReplies(lib, server.schedule, start, snapshot.key, lease);
    WorkingKeepsHeld(start, server.State(), lease);
    if view.Err? {
      return Err(view.error);
    }
    ghost var mid := server.State();
    var removed := server.Rpc(Remove(viewKey));
    Worked(lib, server.schedule, mid, Remove(viewKey), lease);
    RemoveReplies(lib, server.schedule, mid, viewKey);
    ViewGoes(start.world.snapshots, mid.world.snapshots, snapshot.key);
    WorkingTransitive(start, mid, server.State(), lease);
    if removed.Err? {
      return Err(removed.error);
    }
    return Ok(view.value.key);
  }

  lemma ViewGoes(before: Catalogue, after: Catalogue, k: string)
    requires ViewLeft(before, after, k)
    ensures ViewKey(k) in after && after - {ViewKey(k)} == before
  {
  }

  // ---------------------------------------------------------------- one diff

  /** A snapshot and its parent, if that is there. */
  ghost function Near(snapshots: Catalogue, key: string): set<string> {
    {key} + if HasParent(snapshots, key) then {snapshots[key].parent} else {}
  }

  lemma LeftoverGrows(before: Catalogue, after: Catalogue, keys: set<string>, more: set<string>)
    requires Leftover(before, after, keys)
    requires forall k | k in keys && k in before :: k in more
    ensures Leftover(before, after, more)
  {
    if after != before {
      var k :| k in keys && ViewLeft(before, after, k);
      assert k in more;
    }
  }

  function FilesBefore(snapshots: Catalogue, parent: string): FileSystem {
    if parent != "" && parent in snapshots then snapshots[parent].files else map[]
  }

  /** The layer that leads from a snapshot's parent, or from nothing, to the snapshot. */
  function LayerOf(lib: Lib, snapshots: Catalogue, key: string): Bytes
    requires key in snapshots
  {
    lib.diff(FilesBefore(snapshots, snapshots[key].parent), snapshots[key].files)
  }

  /** What `Snapshot.get_diff` returns for a snapshot. */
  function DiffOf(lib: Lib, snapshots: Catalogue, key: string): SnapshotDiff
    requires key in snapshots
  {
    var parent := snapshots[key].parent;
    var layer := LayerOf(lib, snapshots, key);
    SnapshotDiff(lib.Digest(lib.uncompressed(layer)), Descriptor(DOCKER_IMAGE_LAYER_GZIP, lib.Digest(layer), |layer|),
                 if parent == "" then None else Some(parent))
  }

  /** A layer turns what is below a snapshot into its files. Its diff id is the digest of the layer before compression,
      its descriptor that of the compressed bytes. */
  lemma DiffOfIs(lib: Lib, snapshots: Catalogue, key: string)
    requires lib.Valid() && key in snapshots
    requires snapshots[key].parent == "" || snapshots[key].parent in snapshots
    ensures var (diff, parent, layer) := (DiffOf(lib, snapshots, key), snapshots[key].parent,
                                          LayerOf(lib, snapshots, key));
      && diff.id == "sha256:" + lib.sha256(lib.uncompressed(layer))
      && diff.descriptor.mediaType == "application/vnd.docker.image.rootfs.diff.tar.gzip"
      && diff.descriptor.digest == "sha256:" + lib.sha256(layer) && diff.descriptor.size == |layer|
      && lib.apply(if parent == "" then map[] else snapshots[parent].files, layer) == snapshots[key].files
      && (diff.parentKey.None? <==> parent == "") && (diff.parentKey.Some? ==> diff.parentKey.value == parent)
  {
  }

  /** A diff that answers has stored the layer, labelled it, and put it under the lease. */
  ghost predicate DiffStored(lib: Lib, before: Content, w: World, layer: Bytes, lease: LeaseId) {
    && (forall d | d in w.content :: (d in before && w.content[d].data == before[d].data) || w.content[d].data == layer)
    && lib.Digest(layer) in w.content
    && UNCOMPRESSED in w.content[lib.Digest(layer)].labels
    && w.content[lib.Digest(layer)].labels[UNCOMPRESSED] == lib.Digest(lib.uncompressed(layer))
    && lease in w.leases && lib.Digest(layer) in w.leases[lease]
  }

  function LayerBetween(lib: Lib, snapshots: Catalogue, left: Option<string>, right: string): Bytes
    requires right in snapshots && (left.Some? ==> left.value in snapshots)
  {
    lib.diff(if left.Some? then snapshots[left.value].files else map[], snapshots[right].files)
  }

  lemma DiffServes(lib: Lib, w: World, left: Option<string>, right: string, lease: LeaseId)
    requires lease in w.leases
    ensures var (v, reply) := ServeDiff(lib, w, left, right, Some(lease));
      && v.images == w.images && v.snapshots == w.snapshots
      && (reply.Ok? <==> right in w.snapshots && (left.Some? ==> left.value in w.snapshots))
      && (reply.Ok? ==>
          var layer := LayerBetween(lib, w.snapshots, left, right);
          reply.value == Diffed(lib.Digest(layer), |layer|) && DiffStored(lib, w.content, v, layer, lease))
  {
  }

  lemma DiffReplies(lib: Lib, schedule: nat -> Move, p: Past, left: Option<string>, right: string, lease: LeaseId)
    requires Valid(lib, p) && lease in p.world.leases
    ensures var q := Called(lib, schedule, p, Diff(left, right, Some(lease)));
      var reply := q.log[|q.log| - 1].reply;
      && q.world.images == p.world.images && q.world.snapshots == p.world.snapshots
      && (Quiet(schedule) && right in p.world.snapshots && (left.Some? ==> left.value in p.world.snapshots) ==>
            reply.Ok?)
    ensures var q := Called(lib, schedule, p, Diff(left, right, Some(lease)));
      var reply := q.log[|q.log| - 1].reply;
      reply.Ok? ==>
        && right in p.world.snapshots && (left.Some? ==> left.value in p.world.snapshots)
        && var layer := LayerBetween(lib, p.world.snapshots, left, right);
        && reply.value == Diffed(lib.Digest(layer), |layer|)
        && DiffStored(lib, p.world.content, q.world, layer, lease)
        && Drawn(schedule, p.world.content, q.world.content, {layer})
  {
    hide ServeDiff, Calm;
    DiffServes(lib, Collect(p.world, schedule(p.clock).picked), left, right, lease);
    CalmGrows(lib, schedule, p, Diff(left, right, Some(lease)));
  }

  lemma InfoReplies(lib: Lib, schedule: nat -> Move, p: Past, digest: string, lease: LeaseId)
    requires Valid(lib, p) && lease in p.world.leases && digest in p.world.leases[lease]
    ensures var q := Called(lib, schedule, p, Info(digest));
      var reply := q.log[|q.log| - 1].reply;
      && (reply.Ok? ==> digest in p.world.content && reply.value == Labels(p.world.content[digest].labels))
      && (Quiet(schedule) ==> reply.Ok?)
  {
    HeldSurvives(lib, p.world, schedule(p.clock).picked, lease);
  }

  /** Taking a snapshot's diff can go ahead. */
  ghost predicate Diffable(snapshots: Catalogue, s: Snapshot) {
    && Mountable(snapshots, s)
    && (snapshots[s.key].parent != "" ==> Mountable(snapshots, Snapshot(snapshots[s.key].parent, false)))
  }

  method GetDiff(server: Server, snapshot: Snapshot, lease: LeaseId) returns (r: Result<SnapshotDiff, Code>)
    requires Valid(server.lib, server.State()) && lease in server.world.leases
    modifies server
    ensures Valid(server.lib, server.State()) && Working(old(server.State()), server.State(), lease)
    ensures server.world.images == old(server.world.images)
    ensures Leftover(old(server.world.snapshots), server.world.snapshots,
                     Near(old(server.world.snapshots), snapshot.key))
    ensures r.Ok? ==> server.world.snapshots == old(server.world.snapshots) && snapshot.key in server.world.snapshots
    ensures r.Ok? ==> r.value == DiffOf(server.lib, server.world.snapshots, snapshot.key)
    ensures r.Ok? && r.value.parentKey.Some? ==> r.value.parentKey.value in server.world.snapshots
    ensures r.Ok? ==> Drawn(server.schedule, old(server.world.content), server.world.content,
                            {LayerOf(server.lib, server.world.snapshots, snapshot.key)})
    ensures r.Ok? ==> r.value.descriptor.digest in server.world.leases[lease]
    ensures r.Err? ==> CallFailed(r, server.log)
    ensures r.Ok? ==> Diffable(old(server.world.snapshots), snapshot)
    ensures Quiet(server.schedule) && Diffable(old(server.world.snapshots), snapshot) ==> r.Ok?
  {
    hide Working, Valid, Called, Leftover, Calm, Drawn;
    ghost var start := server.State();
    ghost var near := Near(start.world.snapshots, snapshot.key);
    NothingLeft(start.world.snapshots, near);
    var parent := GetParent(server, snapshot, lease);
    WorkingKeepsHeld(start, server.State(), lease);
    if parent.Err? {
      return Err(parent.error);
    }
    ghost var s1 := server.State();
    var left := LeftMounts(server, parent.value, lease);
    WorkingTransitive(start, s1, server.State(), lease);
    WorkingKeepsHeld(start, server.State(), lease);
    DrawnTransitive(server.schedule, start.world.content, s1.world.content, server.world.content, {}, {});
    LeftoverGrows(start.world.snapshots, server.world.snapshots, KeyOf(parent.value), near);
    if left.Err? {
      return Err(left.error);
    }
    ghost var s2 := server.State();
    var right := GetMounts(server, snapshot, lease);
    WorkingTransitive(start, s2, server.State(), lease);
    WorkingKeepsHeld(start, server.State(), lease);
    DrawnTransitive(server.schedule, start.world.content, s2.world.content, server.world.content, {}, {});
    LeftoverGrows(start.world.snapshots, server.world.snapshots, {snapshot.key}, near);
    if right.Err? {
      return Err(right.error);
    }
    ghost var s3 := server.State();
    r := DiffMounts(server, left.value, right.value, parent.value, lease);
    WorkingTransitive(start, s3, server.State(), lease);
    if r.Ok? {
      var layer := LayerOf(server.lib, server.world.snapshots, snapshot.key);
      DrawnTransitive(server.schedule, start.world.content, s3.world.content, server.world.content, {}, {layer});
      assert {} + {layer} == {layer};
    }
  }

  function KeyOf(snapshot: Option<Snapshot>): set<string> {
    if snapshot.Some? then {snapshot.value.key} else {}
  }

  /** The left side of a diff: mounts of the parent, if there is one. */
  method LeftMounts(server: Server, parent: Option<Snapshot>, lease: LeaseId) returns (r: Result<Option<string>, Code>)
    requires Valid(server.lib, server.State()) && lease in server.world.leases
    modifies server
    ensures Valid(server.lib, server.State()) && Working(old(server.State()), server.State(), lease)
    ensures Drawn(server.schedule, old(server.world.content), server.world.content, {})
    ensures Leftover(old(server.world.snapshots), server.world.snapshots, KeyOf(parent))
    ensures server.world.images == old(server.world.images)
    ensures r.Ok? ==> server.world.snapshots == old(server.world.snapshots)
    ensures r.Ok? ==> r.value == if parent.Some? then Some(parent.value.key) else None
    ensures r.Ok? && parent.Some? ==> parent.value.key in server.world.snapshots
    ensures r.Err? ==> CallFailed(r, server.log)
    ensures r.Ok? && parent.Some? ==> Mountable(old(server.world.snapshots), parent.value)
    ensures Quiet(server.schedule) && (parent.Some? ==> Mountable(old(server.world.snapshots), parent.value)) ==> r.Ok?
  {
    hide Working, Valid, Leftover, Calm, Drawn;
    if parent.None? {
      WorkingReflexive(server.lib, server.State(), lease);
      DrawnReflexive(server.schedule, server.world.content);
      NothingLeft(server.world.snapshots, {});
      return Ok(None);
    }
    var mounts := GetMounts(server, parent.value, lease);
    return if mounts.Ok? then Ok(Some(mounts.value)) else Err(mounts.error);
  }

  lemma NothingLeft(c: Catalogue, keys: set<string>)
    ensures Leftover(c, c, keys)
  {
  }

  /** The end of `get_diff`: from mounts to a labelled layer. */
  method DiffMounts(server: Server, left: Option<string>, right: string, parent: Option<Snapshot>, lease: LeaseId)
      returns (r: Result<SnapshotDiff, Code>)
    requires Valid(server.lib, server.State()) && lease in server.world.leases
    modifies server
    ensures Valid(server.lib, server.State()) && Working(old(server.State()), server.State(), lease)
    ensures server.world.images == old(server.world.images) && server.world.snapshots == old(server.world.snapshots)
    ensures r.Ok? ==>
      && right in server.world.snapshots && (left.Some? ==> left.value in server.world.snapshots)
      && var layer := LayerBetween(server.lib, server.world.snapshots, left, right);
      && r.value == SnapshotDiff(server.lib.Digest(server.lib.uncompressed(layer)),
                                 Descriptor(DOCKER_IMAGE_LAYER_GZIP, server.lib.Digest(layer), |layer|),
                                 if parent.Some? then Some(parent.value.key) else None)
      && Drawn(server.schedule, old(server.world.content), server.world.content, {layer})
      && r.value.descriptor.digest in server.world.leases[lease]
    ensures r.Err? ==> CallFailed(r, server.log)
    ensures Quiet(server.schedule) && right in server.world.snapshots ==>
      (left.Some? ==> left.value in server.world.snapshots) ==> r.Ok?
  {
    hide Working, Valid, Called;
    var lib := server.lib;
    ghost var start := server.State();
    var reply := server.Rpc(Diff(left, right, Some(lease)));
    Worked(lib, server.schedule, start, Diff(left, right, Some(lease)), lease);
    DiffReplies(lib, server.schedule, start, left, right, lease);
    WorkingKeepsHeld(start, server.State(), lease);
    if reply.Err? {
      return Err(reply.error);
    }
    var descriptor := Descriptor(DOCKER_IMAGE_LAYER_GZIP, reply.value.digest, reply.value.size);
    ghost var mid := server.State();
    var info := server.Rpc(Info(descriptor.digest));
    AskedUnder(lib, server.schedule, mid, Info(descriptor.digest), lease);
    InfoReplies(lib, server.schedule, mid, descriptor.digest, lease);
    WorkingTransitive(start, mid, server.State(), lease);
    if info.Err? {
      return Err(info.error);
    }
    ghost var layer := LayerBetween(lib, server.world.snapshots, left, right);
    DrawnTransitive(server.schedule, start.world.content, mid.world.content, server.world.content, {layer}, {});
    assert {layer} + {} == {layer};
    var labels := info.value.labels;
    // a label map answers a missing key with the empty string
    var id := if UNCOMPRESSED in labels then labels[UNCOMPRESSED] else "";
    return Ok(SnapshotDiff(id, descriptor, if parent.Some? then Some(parent.value.key) else None));
  }

  // ---------------------------------------------------------------- the walk

  /** The parent chain of every snapshot ends. */
  ghost predicate Founded(snapshots: Catalogue, rank: string -> nat) {
    forall k | HasParent(snapshots, k) :: rank(snapshots[k].parent) < rank(k)
  }

  predicate HasParent(snapshots: Catalogue, key: string) {
    key in snapshots && snapshots[key].parent != "" && snapshots[key].parent in snapshots
  }

  /** A snapshot and its ancestors, root first. */
  ghost function Lineage(snapshots: Catalogue, rank: string -> nat, key: string): (keys: seq<string>)
    requires Founded(snapshots, rank)
    ensures |keys| > 0 && keys[|keys| - 1] == key
    decreases rank(key)
  {
    if HasParent(snapshots, key) then Lineage(snapshots, rank, snapshots[key].parent) + [key] else [key]
  }

  /** The snapshots of a lineage. */
  ghost function LineageKeys(snapshots: Catalogue, rank: string -> nat, key: string): set<string>
    requires Founded(snapshots, rank)
  {
    set k | k in Lineage(snapshots, rank, key)
  }

  /** The snapshot at `i` is there, and its parent is its predecessor, or nothing for the first. */
  ghost predicate Linked(snapshots: Catalogue, keys: seq<string>, i: nat)
    requires i < |keys|
  {
    && keys[i] in snapshots
    && if i == 0 then snapshots[keys[i]].parent == ""
       else keys[i - 1] != "" && snapshots[keys[i]].parent == keys[i - 1]
  }

  ghost predicate Chain(snapshots: Catalogue, keys: seq<string>) {
    && (forall i | 0 <= i < |keys| :: keys[i] in snapshots)
    && (forall i | 0 <= i < |keys| :: Linked(snapshots, keys, i))
  }

  /** A lineage whose snapshots all exist, down to one without a parent, is a chain without repeats. */
  lemma {:induction false} LineageIsChain(snapshots: Catalogue, rank: string -> nat, key: string)
    requires Founded(snapshots, rank)
    requires forall i | 0 <= i < |Lineage(snapshots, rank, key)| :: Lineage(snapshots, rank, key)[i] in snapshots
    requires snapshots[Lineage(snapshots, rank, key)[0]].parent == ""
    ensures Chain(snapshots, Lineage(snapshots, rank, key))
    ensures NoRepeats(Lineage(snapshots, rank, key))
    ensures forall k | k in Lineage(snapshots, rank, key) :: rank(k) <= rank(key)
    decreases rank(key)
  {
    var keys := Lineage(snapshots, rank, key);
    if HasParent(snapshots, key) {
      var up := Lineage(snapshots, rank, snapshots[key].parent);
      assert forall i | 0 <= i < |up| :: up[i] == keys[i];
      LineageIsChain(snapshots, rank, snapshots[key].parent);
      forall i | 0 <= i < |keys|
        ensures Linked(snapshots, keys, i)
      {
        if i < |up| {
          assert Linked(snapshots, up, i);
        }
      }
    }
  }

  ghost predicate WalkReady(snapshots: Catalogue, keys: seq<string>, isActive: bool) {
    forall i | 0 <= i < |keys| :: Diffable(snapshots, Snapshot(keys[i], isActive && i == |keys| - 1))
  }

  /** The layers of the snapshots in `keys`. */
  ghost function LayerSet(lib: Lib, snapshots: Catalogue, keys: seq<string>): set<Bytes> {
    set k | k in keys && k in snapshots :: LayerOf(lib, snapshots, k)
  }

  /** `diffs` are the diffs of `keys`, in order. */
  ghost predicate AreDiffs(lib: Lib, snapshots: Catalogue, keys: seq<string>, diffs: seq<SnapshotDiff>) {
    && |diffs| == |keys|
    && forall i | 0 <= i < |keys| :: keys[i] in snapshots && diffs[i] == DiffOf(lib, snapshots, keys[i])
  }

  /** `keys` is the part of the walk that is done, root side first; `result` holds its diffs, leaf first,
      all of them held by the lease. */
  ghost predicate Walked(lib: Lib, w: World, lease: LeaseId, keys: seq<string>, result: seq<SnapshotDiff>) {
    && |result| == |keys|
    && lease in w.leases
    && forall i | 0 <= i < |keys| ::
      && keys[i] in w.snapshots
      && result[|keys| - 1 - i] == DiffOf(lib, w.snapshots, keys[i])
      && result[|keys| - 1 - i].descriptor.digest in w.leases[lease]
  }

  lemma WalkStep(lib: Lib, w: World, v: World, lease: LeaseId, keys: seq<string>, result: seq<SnapshotDiff>,
                 key: string, diff: SnapshotDiff)
    requires Walked(lib, w, lease, keys, result)
    requires v.snapshots == w.snapshots && lease in v.leases && w.leases[lease] <= v.leases[lease]
    requires key in v.snapshots && diff == DiffOf(lib, v.snapshots, key) && diff.descriptor.digest in v.leases[lease]
    ensures Walked(lib, v, lease, [key] + keys, result + [diff])
  {
    var more, found := [key] + keys, result + [diff];
    forall i | 0 <= i < |more|
      ensures more[i] in v.snapshots
      ensures found[|more| - 1 - i] == DiffOf(lib, v.snapshots, more[i])
      ensures found[|more| - 1 - i].descriptor.digest in v.leases[lease]
    {
      if i > 0 {
        assert more[i] == keys[i - 1];
        assert found[|more| - 1 - i] == result[|keys| - 1 - (i - 1)];
      }
    }
  }

  lemma LayerSetStep(lib: Lib, snapshots: Catalogue, key: string, keys: seq<string>)
    requires key in snapshots
    ensures LayerSet(lib, snapshots, keys) + {LayerOf(lib, snapshots, key)} == LayerSet(lib, snapshots, [key] + keys)
  {
    var more := [key] + keys;
    forall x | x in LayerSet(lib, snapshots, more)
      ensures x in LayerSet(lib, snapshots, keys) + {LayerOf(lib, snapshots, key)}
    {
      var k :| k in more && k in snapshots && x == LayerOf(lib, snapshots, k);
      assert k == key || k in keys;
    }
    forall x | x in LayerSet(lib, snapshots, keys)
      ensures x in LayerSet(lib, snapshots, more)
    {
      var k :| k in keys && k in snapshots && x == LayerOf(lib, snapshots, k);
      assert k in more;
    }
    assert key == more[0];
  }

  function Reversed(diffs: seq<SnapshotDiff>): (r: seq<SnapshotDiff>)
    ensures |r| == |diffs| && forall i | 0 <= i < |r| :: r[i] == diffs[|diffs| - 1 - i]
  {
    seq(|diffs|, i requires 0 <= i < |diffs| => diffs[|diffs| - 1 - i])
  }

  /** Where the walk stands: `rest` is still to do, from the root down to the current snapshot. */
  ghost predicate OnTheWay(snapshots: Catalogue, rank: string -> nat, leaf: Snapshot, current: Snapshot,
                           keys: seq<string>) {
    && Founded(snapshots, rank)
    && Lineage(snapshots, rank, leaf.key) == Lineage(snapshots, rank, current.key) + keys
    && current.isActive == (leaf.isActive && |keys| == 0)
  }

  lemma StepUp(snapshots: Catalogue, rank: string -> nat, leaf: Snapshot, current: Snapshot, keys: seq<string>)
    requires OnTheWay(snapshots, rank, leaf, current, keys)
    requires HasParent(snapshots, current.key)
    ensures var parent := snapshots[current.key].parent;
      rank(parent) < rank(current.key) && OnTheWay(snapshots, rank, leaf, Snapshot(parent, false), [current.key] + keys)
  {
    var parent := snapshots[current.key].parent;
    var up := Lineage(snapshots, rank, parent);
    assert (up + [current.key]) + keys == up + ([current.key] + keys);
  }

  lemma NearIsOnTheWay(snapshots: Catalogue, rank: string -> nat, leaf: Snapshot, current: Snapshot, keys: seq<string>)
    requires OnTheWay(snapshots, rank, leaf, current, keys)
    ensures Founded(snapshots, rank) && Near(snapshots, current.key) <= LineageKeys(snapshots, rank, leaf.key)
  {
    var rest := Lineage(snapshots, rank, current.key);
    assert rest[|rest| - 1] in rest + keys;
    if HasParent(snapshots, current.key) {
      var up := Lineage(snapshots, rank, snapshots[current.key].parent);
      assert rest[|up| - 1] == up[|up| - 1];
      assert rest[|up| - 1] in rest + keys;
    }
  }

  lemma CurrentIsReady(snapshots: Catalogue, rank: string -> nat, leaf: Snapshot, current: Snapshot, keys: seq<string>)
    requires OnTheWay(snapshots, rank, leaf, current, keys)
    requires WalkReady(snapshots, Lineage(snapshots, rank, leaf.key), leaf.isActive)
    ensures Diffable(snapshots, current)
  {
    var all, rest := Lineage(snapshots, rank, leaf.key), Lineage(snapshots, rank, current.key);
    var i := |rest| - 1;
    assert all[i] == rest[i] == current.key;
    assert (i == |all| - 1) == (|keys| == 0);
  }

  /** What a finished walk returns: the diffs of the whole lineage, root first. */
  ghost predicate Complete(lib: Lib, snapshots: Catalogue, rank: string -> nat, leaf: string,
                           diffs: seq<SnapshotDiff>) {
    && Founded(snapshots, rank)
    && var keys := Lineage(snapshots, rank, leaf);
    && Chain(snapshots, keys) && NoRepeats(keys) && AreDiffs(lib, snapshots, keys, diffs)
  }

  lemma WalkEnds(lib: Lib, w: World, lease: LeaseId, rank: string -> nat, leaf: Snapshot, current: Snapshot,
                 keys: seq<string>, result: seq<SnapshotDiff>)
    requires OnTheWay(w.snapshots, rank, leaf, current, keys)
    requires Walked(lib, w, lease, [current.key] + keys, result)
    requires current.key in w.snapshots && w.snapshots[current.key].parent == ""
    ensures Complete(lib, w.snapshots, rank, leaf.key, Reversed(result))
    ensures forall d | d in Reversed(result) :: d.descriptor.digest in w.leases[lease]
  {
    hide DiffOf, LayerOf;
    var all := Lineage(w.snapshots, rank, leaf.key);
    assert Lineage(w.snapshots, rank, current.key) == [current.key];
    assert all == [current.key] + keys;
    assert forall i | 0 <= i < |all| :: all[i] == ([current.key] + keys)[i];
    LineageIsChain(w.snapshots, rank, leaf.key);
  }

  /** `Container._get_snapshot_diffs`. */
  method GetSnapshotDiffs(server: Server, leaf: Snapshot, lease: LeaseId, ghost rank: string -> nat)
      returns (r: Result<seq<SnapshotDiff>, Code>)
    requires Valid(server.lib, server.State()) && lease in server.world.leases
    requires Founded(server.world.snapshots, rank)
    modifies server
    ensures Valid(server.lib, server.State()) && Working(old(server.State()), server.State(), lease)
    ensures server.world.images == old(server.world.images)
    ensures Leftover(old(server.world.snapshots), server.world.snapshots,
                     LineageKeys(old(server.world.snapshots), rank, leaf.key))
    ensures r.Ok? ==> server.world.snapshots == old(server.world.snapshots)
    ensures r.Ok? ==> Complete(server.lib, server.world.snapshots, rank, leaf.key, r.value)
    ensures r.Ok? ==> forall d | d in r.value :: d.descriptor.digest in server.world.leases[lease]
    ensures r.Ok? ==> Drawn(server.schedule, old(server.world.content), server.world.content,
                            LayerSet(server.lib, server.world.snapshots,
                                     Lineage(server.world.snapshots, rank, leaf.key)))
    ensures r.Err? ==> CallFailed(r, server.log)
    ensures r.Ok? ==>
      WalkReady(old(server.world.snapshots), Lineage(old(server.world.snapshots), rank, leaf.key), leaf.isActive)
    ensures Quiet(server.schedule) ==>
      WalkReady(old(server.world.snapshots), Lineage(old(server.world.snapshots), rank, leaf.key), leaf.isActive) ==>
        r.Ok?
  {
    hide Working, Valid, Leftover, Drawn, Walked, OnTheWay, DiffOf, LayerOf, Diffable, WalkReady, Founded, Complete,
      Lineage, LineageKeys, LayerSet, Calm;
    ghost var start := server.State();
    ghost var catalogue := server.world.snapshots;
    WorkingReflexive(server.lib, start, lease);
    NothingLeft(catalogue, LineageKeys(catalogue, rank, leaf.key));
    DrawnReflexive(server.schedule, start.world.content);
    var result: seq<SnapshotDiff> := [];
    var snapshot := leaf;
    ghost var keys: seq<string> := [];
    NothingWalked(server.lib, server.world, lease, rank, leaf);
    while true
      invariant Valid(server.lib, server.State()) && Working(start, server.State(), lease)
      invariant lease in server.world.leases
      invariant server.world.snapshots == catalogue && server.world.images == start.world.images
      invariant Walked(server.lib, server.world, lease, keys, result)
      invariant OnTheWay(catalogue, rank, leaf, snapshot, keys) && WalkReady(catalogue, keys, leaf.isActive)
      invariant Drawn(server.schedule, start.world.content, server.world.content, LayerSet(server.lib, catalogue, keys))
      decreases rank(snapshot.key)
    {
      ghost var before := server.State();
      ReadyIfReady(catalogue, rank, leaf, snapshot, keys);
      var diff := GetDiff(server, snapshot, lease);
      NearIsOnTheWay(catalogue, rank, leaf, snapshot, keys);
      LeftoverGrows(catalogue, server.world.snapshots, Near(catalogue, snapshot.key),
                    LineageKeys(catalogue, rank, leaf.key));
      WorkingTransitive(start, before, server.State(), lease);
      WorkingKeepsHeld(before, server.State(), lease);
      if diff.Err? {
        return Err(diff.error);
      }
      ReadyStep(catalogue, rank, leaf, snapshot, keys);
      WalkStep(server.lib, before.world, server.world, lease, keys, result, snapshot.key, diff.value);
      result := result + [diff.value];
      ghost var layer := LayerOf(server.lib, catalogue, snapshot.key);
      DrawnTransitive(server.schedule, start.world.content, before.world.content, server.world.content,
                      LayerSet(server.lib, catalogue, keys), {layer});
      LayerSetStep(server.lib, catalogue, snapshot.key, keys);
      DiffParent(server.lib, catalogue, snapshot.key, diff.value);
      if diff.value.parentKey.None? {
        WalkEnds(server.lib, server.world, lease, rank, leaf, snapshot, keys, result);
        LineageAtRoot(catalogue, rank, leaf, snapshot, keys);
        break;
      }
      StepUp(catalogue, rank, leaf, snapshot, keys);
      keys := [snapshot.key] + keys;
      snapshot := Snapshot(diff.value.parentKey.value, false);
    }
    return Ok(Reversed(result));
  }

  lemma DrawnReflexive(schedule: nat -> Move, content: Content)
    ensures Drawn(schedule, content, content, {})
  {
  }

  lemma NothingWalked(lib: Lib, w: World, lease: LeaseId, rank: string -> nat, leaf: Snapshot)
    requires Founded(w.snapshots, rank) && lease in w.leases
    ensures Walked(lib, w, lease, [], []) && OnTheWay(w.snapshots, rank, leaf, leaf, [])
    ensures LayerSet(lib, w.snapshots, []) == {} && WalkReady(w.snapshots, [], leaf.isActive)
  {
    assert Lineage(w.snapshots, rank, leaf.key) + [] == Lineage(w.snapshots, rank, leaf.key);
  }

  lemma ReadyIfReady(snapshots: Catalogue, rank: string -> nat, leaf: Snapshot, current: Snapshot, keys: seq<string>)
    requires OnTheWay(snapshots, rank, leaf, current, keys)
    ensures Founded(snapshots, rank)
    ensures WalkReady(snapshots, Lineage(snapshots, rank, leaf.key), leaf.isActive) ==> Diffable(snapshots, current)
  {
    if WalkReady(snapshots, Lineage(snapshots, rank, leaf.key), leaf.isActive) {
      CurrentIsReady(snapshots, rank, leaf, current, keys);
    }
  }

  lemma ReadyStep(snapshots: Catalogue, rank: string -> nat, leaf: Snapshot, current: Snapshot, keys: seq<string>)
    requires OnTheWay(snapshots, rank, leaf, current, keys)
    requires WalkReady(snapshots, keys, leaf.isActive) && Diffable(snapshots, current)
    ensures WalkReady(snapshots, [current.key] + keys, leaf.isActive)
  {
    var more := [current.key] + keys;
    forall i | 0 <= i < |more|
      ensures Diffable(snapshots, Snapshot(more[i], leaf.isActive && i == |more| - 1))
    {
      if i > 0 {
        assert more[i] == keys[i - 1];
        assert Diffable(snapshots, Snapshot(keys[i - 1], leaf.isActive && i - 1 == |keys| - 1));
      } else {
        assert Snapshot(more[0], leaf.isActive && 0 == |more| - 1) == current;
      }
    }
  }

  lemma DiffParent(lib: Lib, snapshots: Catalogue, key: string, diff: SnapshotDiff)
    requires key in snapshots && diff == DiffOf(lib, snapshots, key)
    requires diff.parentKey.Some? ==> diff.parentKey.value in snapshots
    ensures diff.parentKey.None? ==> snapshots[key].parent == ""
    ensures diff.parentKey.Some? ==> HasParent(snapshots, key) && snapshots[key].parent == diff.parentKey.value
  {
  }

  lemma LineageAtRoot(snapshots: Catalogue, rank: string -> nat, leaf: Snapshot, current: Snapshot, keys: seq<string>)
    requires OnTheWay(snapshots, rank, leaf, current,
                      keys) && current.key in snapshots && snapshots[current.key].parent == ""
    ensures Founded(snapshots, rank) && Lineage(snapshots, rank, leaf.key) == [current.key] + keys
  {
    assert Lineage(snapshots, rank, current.key) == [current.key];
  }

  /** A view that is left over is in the way of every walk that has to mount its snapshot through a view. */
  lemma LeftoverBlocks(before: Catalogue, after: Catalogue, k: string, keys: seq<string>, isActive: bool)
    requires ViewLeft(before, after, k) && k in keys && !(isActive && k == keys[|keys| - 1])
    ensures k + "-parent-view" in after && after[k + "-parent-view"].parent == k
    ensures !WalkReady(after, keys, isActive)
  {
    var i :| 0 <= i < |keys| && keys[i] == k;
    assert !Diffable(after, Snapshot(keys[i], isActive && i == |keys| - 1));
  }

  // ---------------------------------------------------------------- replaying layers

  /** Applying layers one after another, from an empty file system. */
  ghost function Replay(lib: Lib, layers: seq<Bytes>): FileSystem
    decreases |layers|
  {
    var n := |layers| - 1;
    if n < 0 then map[] else lib.apply(Replay(lib, layers[..n]), layers[n])
  }

  /** Replaying the layers of a chain gives the files of its last snapshot. */
  lemma {:induction false} ChainReplays(lib: Lib, snapshots: Catalogue, keys: seq<string>, layers: seq<Bytes>)
    requires lib.Valid() && Chain(snapshots, keys) && |keys| > 0
    requires |layers| == |keys| && forall i | 0 <= i < |keys| :: layers[i] == LayerOf(lib, snapshots, keys[i])
    ensures Replay(lib, layers) == snapshots[keys[|keys| - 1]].files
    decreases |keys|
  {
    var n := |keys| - 1;
    if n > 0 {
      forall i | 0 <= i < n
        ensures Linked(snapshots, keys[..n], i)
      {
        assert Linked(snapshots, keys, i);
      }
      ChainReplays(lib, snapshots, keys[..n], layers[..n]);
      assert Linked(snapshots, keys, n);
      assert FilesBefore(snapshots, snapshots[keys[n]].parent) == snapshots[keys[n - 1]].files;
    } else {
      assert Linked(snapshots, keys, 0);
      assert layers[..0] == [];
      assert FilesBefore(snapshots, snapshots[keys[0]].parent) == map[];
    }
  }
}
