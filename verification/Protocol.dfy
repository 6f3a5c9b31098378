/** `Container.commit` around its body: pausing the task, holding a lease, and putting both back
    whatever fails in between. */
module Protocol {
  import opened Wrappers
  import opened Python
  import opened Json
  import opened Digests
  import opened Containerd
  import opened Manifests
  import opened Images
  import opened Snapshots
  import opened Commit

  // ---------------------------------------------------------------- the calls that must come in pairs

  /** The calls of a stretch that control the task or a lease. */
  function Brackets(log: seq<Entry>): seq<Entry>
    decreases |log|
  {
    if |log| == 0 then []
    else
      var n := |log| - 1;
      Brackets(log[..n]) + if Plain(log[n].call) then [] else [log[n]]
  }

  lemma {:induction false} BracketsConcat(a: seq<Entry>, b: seq<Entry>)
    ensures Brackets(a + b) == Brackets(a) + Brackets(b)
    decreases |b|
  {
    if |b| == 0 {
      assert a + b == a;
    } else {
      var n := |b| - 1;
      assert (a + b)[..|a + b| - 1] == a + b[..n];
      BracketsConcat(a, b[..n]);
      var last := if Plain(b[n].call) then [] else [b[n]];
      Associative(Brackets(a), Brackets(b[..n]), last);
    }
  }

  lemma {:induction false} BracketsOfPlain(log: seq<Entry>)
    requires forall i | 0 <= i < |log| :: Plain(log[i].call)
    ensures Brackets(log) == []
    decreases |log|
  {
    if |log| > 0 {
      BracketsOfPlain(log[..|log| - 1]);
    }
  }

  /** The calls since `a`. */
  function Since(a: seq<Entry>, b: seq<Entry>): seq<Entry>
    requires a <= b
  {
    b[|a|..]
  }

  lemma SinceTwice(a: seq<Entry>, b: seq<Entry>, c: seq<Entry>)
    requires a <= b <= c
    ensures Brackets(Since(a, c)) == Brackets(Since(a, b)) + Brackets(Since(b, c))
  {
    assert Since(a, c) == Since(a, b) + Since(b, c);
    BracketsConcat(Since(a, b), Since(b, c));
  }

  lemma OneCall(a: seq<Entry>, e: Entry)
    ensures Since(a, a + [e]) == [e]
    ensures Brackets([e]) == if Plain(e.call) then [] else [e]
  {
    assert [e][..0] == [];
  }

  lemma TwoCalls(a: seq<Entry>, e: Entry, f: Entry)
    requires !Plain(e.call) && !Plain(f.call)
    ensures Since(a, (a + [e]) + [f]) == [e, f] && Brackets([e, f]) == [e, f]
  {
    OneCall(a, e);
    OneCall(a, f);
    BracketsConcat([e], [f]);
    assert [e] + [f] == [e, f];
  }

  /** A task in one of these states is left alone. */
  predicate Idle(status: Status) {
    status == Created || status == Paused || status == Stopped
  }

  /** A lease, once granted, is given back exactly once. */
  predicate LeaseTrace(b: seq<Entry>) {
    && |b| > 0
    && b[0].call == CreateLease
    && if b[0].reply.Ok? && b[0].reply.value.Leased?
       then |b| == 2 && b[1].call == DeleteLease(b[0].reply.value.lease)
       else |b| == 1 && b[0].reply.Err?
  }

  /** What a commit may do to the task and to leases: ask for the status; leave an idle task alone, or
      pause it; and, unless that fails, hold a lease in between and resume last. */
  predicate CommitTrace(id: string, b: seq<Entry>) {
    && |b| > 0
    && b[0].call == GetTask(id)
    && if b[0].reply.Ok? && b[0].reply.value.Task? then
         if Idle(b[0].reply.value.status) then LeaseTrace(b[1..])
         else
           && |b| > 1
           && b[1].call == PauseTask(id)
           && if b[1].reply.Err? then |b| == 2
              else |b| > 3 && b[|b| - 1].call == ResumeTask(id) && LeaseTrace(b[2..|b| - 1])
       else |b| == 1 && b[0].reply.Err?
  }

  predicate Took(b: seq<Entry>, call: Call) {
    exists i :: 0 <= i < |b| && b[i].call == call && b[i].applied
  }

  // ---------------------------------------------------------------- pausing and resuming

  /** Only tasks may have changed, and content may have been collected. */
  ghost predicate Untouched(w: World, v: World) {
    && v == w.(tasks := v.tasks, content := v.content)
    && forall d | d in v.content :: d in w.content && v.content[d] == w.content[d]
  }

  /** A stretch that leaves leases, records and snapshots alone. */
  ghost predicate Aside(a: Past, b: Past) {
    && a.log <= b.log && |a.history| > 0 && a.history <= b.history
    && Untouched(a.world, b.world)
    && forall i | |a.history| - 1 <= i < |b.history| :: Untouched(a.world, b.history[i])
  }

  lemma ControlReplies(lib: Lib, schedule: nat -> Move, p: Past, call: Call)
    requires Valid(lib, p)
    requires call.GetTask? || call.PauseTask? || call.ResumeTask?
    ensures var q := Called(lib, schedule, p, call);
      var entry := q.log[|q.log| - 1];
      && q.log == p.log + [entry] && entry.call == call
      && Aside(p, q)
      && (call.GetTask? && entry.reply.Ok? ==>
          call.id in p.world.tasks && entry.reply.value == Task(p.world.tasks[call.id]))
      && q.world.tasks == (
          if !entry.applied || call.GetTask? then p.world.tasks
          else p.world.tasks[call.id := if call.PauseTask? then Paused else Running])
      && (entry.reply.Ok? ==> entry.applied)
      && (entry.applied && !call.GetTask? ==>
          call.id in p.world.tasks && p.world.tasks[call.id] == if call.PauseTask? then Running else Paused)
  {
  }

  /** A task that a commit knows how to deal with. */
  predicate Controllable(tasks: map<string, Status>, id: string) {
    id in tasks && tasks[id] in {Created, Paused, Stopped, Running}
  }

  /** When no call fails on its way, asking for a status, pausing what runs and resuming what is paused succeed. */
  lemma QuietControl(lib: Lib, schedule: nat -> Move, p: Past, call: Call)
    requires Quiet(schedule)
    requires call.GetTask? || call.PauseTask? || call.ResumeTask?
    ensures var q := Called(lib, schedule, p, call);
      q.log[|q.log| - 1].reply.Ok? <==>
        && call.id in p.world.tasks
        && (call.PauseTask? ==> p.world.tasks[call.id] == Running)
        && (call.ResumeTask? ==> p.world.tasks[call.id] == Paused)
  {
  }

  lemma CalmControl(lib: Lib, schedule: nat -> Move, p: Past, call: Call)
    requires Calm(schedule)
    requires call.GetTask? || call.PauseTask? || call.ResumeTask?
    ensures var q := Called(lib, schedule, p, call);
      q.world == p.world.(tasks := q.world.tasks)
  {
    CalmCall(lib, schedule, p, call);
  }

  /** What the roots reach depends on roots and content only. */
  lemma {:induction false} SameReach(w: World, v: World, n: nat)
    requires Roots(v) == Roots(w) && v.content == w.content
    ensures Reach(v, n) == Reach(w, n)
  {
    if n > 0 {
      SameReach(w, v, n - 1);
    }
  }

  /** Nothing that stays goes when the task is controlled or a lease is taken. */
  lemma ControlOutlasts(lib: Lib, schedule: nat -> Move, p: Past, call: Call)
    requires Valid(lib, p) && (call.GetTask? || call.PauseTask? || call.ResumeTask? || call.CreateLease?)
    ensures var q := Called(lib, schedule, p, call);
      Outlasts(schedule, p.world, q.world) && q.world.images == p.world.images && q.world.snapshots == p.world.snapshots
  {
    hide Refs;
    var q := Called(lib, schedule, p, call);
    var picked := schedule(p.clock).picked;
    var swept := Collect(p.world, picked);
    NextLeaseIsFree(lib, p);
    CollectKeepsLive(p.world, picked);
    assert Roots(q.world) == Roots(swept) by {
      SameRoots(lib, schedule, p, call);
    }
    forall d | Stays(schedule, p.world, d)
      ensures Stays(schedule, q.world, d) && (d in p.world.content ==> d in q.world.content)
    {
      if Calm(schedule) {
        CalmGrows(lib, schedule, p, call);
      } else {
        var n: nat :| d in Reach(p.world, n);
        assert Reach(swept, n) == Reach(p.world, n);
        SameReach(swept, q.world, n);
        assert d in Reach(q.world, n);
      }
    }
  }

  lemma SameRoots(lib: Lib, schedule: nat -> Move, p: Past, call: Call)
    requires p.world.leaseCount !in p.world.leases
    requires call.GetTask? || call.PauseTask? || call.ResumeTask? || call.CreateLease?
    ensures Roots(Called(lib, schedule, p, call).world) == Roots(Collect(p.world, schedule(p.clock).picked))
  {
    var q, swept := Called(lib, schedule, p, call), Collect(p.world, schedule(p.clock).picked);
    forall d | d in Roots(swept)
      ensures d in Roots(q.world)
    {
      if l :| l in swept.leases && d in swept.leases[l] {
        assert l in q.world.leases && d in q.world.leases[l];
      }
    }
  }

  lemma AsideTransitive(a: Past, b: Past, c: Past)
    requires Aside(a, b) && Aside(b, c)
    ensures Aside(a, c)
  {
    forall i | |a.history| - 1 <= i < |c.history|
      ensures Untouched(a.world, c.history[i])
    {
      if i < |b.history| - 1 {
        assert c.history[i] == b.history[i];
      }
    }
  }

  /** The first part of a commit's trace. */
  predicate PauseTrace(id: string, b: seq<Entry>, r: Result<bool, Code>) {
    && |b| > 0
    && b[0].call == GetTask(id)
    && if b[0].reply.Ok? && b[0].reply.value.Task? then
         if Idle(b[0].reply.value.status) then |b| == 1 && r == Ok(false)
         else
           && |b| == 2 && b[1].call == PauseTask(id)
           && if b[1].reply.Err? then r == Err(b[1].reply.error) else r == Ok(true)
       else |b| == 1 && b[0].reply.Err? && r == Err(b[0].reply.error)
  }

  /** The status was the task's, and the task is paused exactly when the pause took effect. */
  ghost predicate PauseEffect(id: string, before: map<string, Status>, after: map<string, Status>, b: seq<Entry>,
                              r: Result<bool, Code>)
    requires |b| > 0
  {
    && (b[0].reply.Ok? ==> id in before && b[0].reply.value == Task(before[id]))
    && after == (if Took(b, PauseTask(id)) then before[id := Paused] else before)
    && (r == Ok(true) ==> Took(b, PauseTask(id)))
    && (Took(b, PauseTask(id)) ==> id in before && before[id] == Running)
  }

  /** `Container.pause`. */
  method Pause(server: Server, id: string) returns (r: Result<bool, Code>)
    requires Valid(server.lib, server.State())
    modifies server
    ensures Valid(server.lib, server.State()) && Aside(old(server.State()), server.State())
    ensures PauseTrace(id, Since(old(server.log), server.log), r)
    ensures Brackets(Since(old(server.log), server.log)) == Since(old(server.log), server.log)
    ensures PauseEffect(id, old(server.world.tasks), server.world.tasks, Since(old(server.log), server.log), r)
    ensures Calm(server.schedule) ==> server.world == old(server.world).(tasks := server.world.tasks)
    ensures Quiet(server.schedule) ==>
      if Controllable(old(server.world.tasks), id) then r == Ok(old(server.world.tasks)[id] == Running) else r.Err?
    ensures Outlasts(server.schedule, old(server.world), server.world)
  {
    hide Called, Aside, Valid, Brackets, Since, Calm, Quiet, Outlasts, PauseTrace, PauseEffect;
    ghost var start := server.State();
    if Calm(server.schedule) {
      CalmControl(server.lib, server.schedule, start, GetTask(id));
    }
    if Quiet(server.schedule) {
      QuietControl(server.lib, server.schedule, start, GetTask(id));
    }
    var status := server.Rpc(GetTask(id));
    ControlReplies(server.lib, server.schedule, start, GetTask(id));
    ControlOutlasts(server.lib, server.schedule, start, GetTask(id));
    ghost var s1 := server.State();
    ghost var asked := s1.log[|start.log|];
    OneCall(start.log, asked);
    AskedOnly(id, start.world.tasks, asked);
    if status.Err? {
      return Err(status.error);
    }
    if Idle(status.value.status) {
      return Ok(false);
    }
    if Calm(server.schedule) {
      CalmControl(server.lib, server.schedule, s1, PauseTask(id));
    }
    if Quiet(server.schedule) {
      QuietControl(server.lib, server.schedule, s1, PauseTask(id));
    }
    var paused := server.Rpc(PauseTask(id));
    ControlReplies(server.lib, server.schedule, s1, PauseTask(id));
    ControlOutlasts(server.lib, server.schedule, s1, PauseTask(id));
    OutlastsTransitive(server.schedule, start.world, s1.world, server.world);
    ghost var told := server.log[|s1.log|];
    TwoCalls(start.log, asked, told);
    AsideTransitive(start, s1, server.State());
    AskedAndTold(id, start.world.tasks, server.world.tasks, asked, told);
    if paused.Err? {
      return Err(paused.error);
    }
    return Ok(true);
  }

  /** The parts of `pause`, as traces. */
  lemma AskedOnly(id: string, tasks: map<string, Status>, asked: Entry)
    requires asked.call == GetTask(id)
    requires asked.reply.Ok? ==> id in tasks && asked.reply.value == Task(tasks[id])
    ensures asked.reply.Err? ==> PauseTrace(id, [asked], Err(asked.reply.error))
    ensures asked.reply.Ok? && Idle(tasks[id]) ==> PauseTrace(id, [asked], Ok(false))
    ensures forall r :: r != Ok(true) ==> PauseEffect(id, tasks, tasks, [asked], r)
  {
  }

  lemma AskedAndTold(id: string, before: map<string, Status>, after: map<string, Status>, asked: Entry, told: Entry)
    requires asked.call == GetTask(id) && asked.reply.Ok? && id in before
    requires asked.reply.value == Task(before[id]) && !Idle(before[id])
    requires told.call == PauseTask(id) && (told.reply.Ok? ==> told.applied)
    requires after == (if told.applied then before[id := Paused] else before)
    requires told.applied ==> before[id] == Running
    ensures var r := if told.reply.Ok? then Ok(true) else Err(told.reply.error);
      PauseTrace(id, [asked, told], r) && PauseEffect(id, before, after, [asked, told], r)
  {
    var b := [asked, told];
    assert b[1] == told;
    assert told.applied ==> Took(b, PauseTask(id));
  }

  /** `Container.resume`. */
  method Resume(server: Server, id: string) returns (r: Result<(), Code>)
    requires Valid(server.lib, server.State())
    modifies server
    ensures Valid(server.lib, server.State()) && Aside(old(server.State()), server.State())
    ensures server.State() == Called(server.lib, server.schedule, old(server.State()), ResumeTask(id))
    ensures |server.log| == |old(server.log)| + 1
    ensures var entry := server.log[|server.log| - 1];
      && server.log == old(server.log) + [entry] && entry.call == ResumeTask(id)
      && server.world.tasks
         == (if entry.applied then old(server.world.tasks)[id := Running] else old(server.world.tasks))
      && (if entry.reply.Ok? then r == Ok(()) && entry.applied else r == Err(entry.reply.error))
    ensures Quiet(server.schedule) && id in old(server.world.tasks) && old(server.world.tasks)[id] == Paused ==> r.Ok?
  {
    ghost var start := server.State();
    if Quiet(server.schedule) {
      QuietControl(server.lib, server.schedule, start, ResumeTask(id));
    }
    var reply := server.Rpc(ResumeTask(id));
    ControlReplies(server.lib, server.schedule, start, ResumeTask(id));
    return if reply.Ok? then Ok(()) else Err(reply.error);
  }

  // ---------------------------------------------------------------- the lease

  lemma LeaseReplies(lib: Lib, schedule: nat -> Move, p: Past, call: Call)
    requires Valid(lib, p)
    requires call.CreateLease? || call.DeleteLease?
    ensures var q := Called(lib, schedule, p, call);
      var entry := q.log[|q.log| - 1];
      && q.log == p.log + [entry] && entry.call == call && (entry.reply.Ok? ==> entry.applied)
      && |q.history| == |p.history| + 2 && p.history <= q.history
      && Untouched(p.world, q.history[|p.history|]) && q.history[|p.history|].tasks == p.world.tasks
      && q.history[|p.history| + 1] == q.world
      && q.world.tasks == p.world.tasks && q.world.images == p.world.images && q.world.snapshots == p.world.snapshots
      && (forall d | d in q.world.content :: d in p.world.content && q.world.content[d] == p.world.content[d])
    ensures p.world.leaseCount !in p.world.leases
    ensures call.CreateLease? ==>
      var q := Called(lib, schedule, p, call);
      var entry := q.log[|q.log| - 1];
      && (entry.reply.Ok? ==> entry.reply.value == Leased(p.world.leaseCount))
      && q.world.leases == if entry.applied then p.world.leases[p.world.leaseCount := {}] else p.world.leases
    ensures call.DeleteLease? && call.lease in p.world.leases ==>
      var q := Called(lib, schedule, p, call);
      q.world.leases == if q.log[|q.log| - 1].applied then p.world.leases - {call.lease} else p.world.leases
  {
    SoundNow(lib, p);
  }

  /** Whether a commit can go ahead depends on content, images and snapshots only. */
  lemma ReadyElsewhere(lib: Lib, w: World, v: World, c: Container, created: string, contentRank: string -> nat,
                       rank: string -> nat)
    requires Acyclic(lib, w.content, c.architecture, c.os, contentRank) && Founded(w.snapshots, rank)
    requires v.content == w.content && v.images == w.images && v.snapshots == w.snapshots
    ensures Ready(lib, v, c, created, contentRank, rank) <==> Ready(lib, w, c, created, contentRank, rank)
  {
    hide Acyclic, Founded, ParentConfig, Storable, WalkReady;
  }

  /** A commit can go ahead, and what it reads of the container's image stays until it has been read. */
  ghost predicate Poised(lib: Lib, schedule: nat -> Move, w: World, c: Container, created: string,
                         contentRank: string -> nat, rank: string -> nat) {
    && Acyclic(lib, w.content, c.architecture, c.os, contentRank) && Founded(w.snapshots, rank)
    && ParentStays(lib, schedule, w, c, contentRank)
    && Ready(lib, w, c, created, contentRank, rank)
  }

  lemma PoisedIsQuiet(lib: Lib, schedule: nat -> Move, w: World, c: Container, created: string,
                      contentRank: string -> nat, rank: string -> nat)
    ensures Poised(lib, schedule, w, c, created, contentRank, rank) ==> Quiet(schedule)
  {
    hide Acyclic, Founded, ParentStays, Ready, Quiet;
    if Poised(lib, schedule, w, c, created, contentRank, rank) {
      ParentStaysQuiet(lib, schedule, w, c, contentRank);
    }
  }

  lemma PoisedMeans(lib: Lib, schedule: nat -> Move, w: World, c: Container, created: string,
                    contentRank: string -> nat, rank: string -> nat)
    requires Acyclic(lib, w.content, c.architecture, c.os, contentRank) && Founded(w.snapshots, rank)
    ensures Poised(lib, schedule, w, c, created, contentRank, rank) ==>
      && ParentStays(lib, schedule, w, c, contentRank)
      && Ready(lib, w, c, created, contentRank, rank)
    ensures Calm(schedule) ==> Quiet(schedule)
  {
    hide Acyclic, Founded, ParentStays, Ready, Quiet;
    if Calm(schedule) {
      CalmIsQuiet(schedule);
    }
  }

  /** It still can when part of the content is gone. */
  lemma PoisedOutlasts(lib: Lib, schedule: nat -> Move, w: World, v: World, c: Container, created: string,
                       contentRank: string -> nat, rank: string -> nat)
    requires Outlasts(schedule, w, v) && v.images == w.images && v.snapshots == w.snapshots
    ensures Poised(lib, schedule, w, c, created, contentRank, rank) ==>
      Poised(lib, schedule, v, c, created, contentRank, rank)
  {
    hide Founded, ImageStays, ReadImage, WalkReady, DocumentsOf, ManifestLayers, CommitManifest, Stays;
    if Poised(lib, schedule, w, c, created, contentRank, rank) {
      AcyclicShrinks(lib, w.content, v.content, c.architecture, c.os, contentRank);
      hide Acyclic;
      ImageOutlasts(lib, schedule, w, v, c.architecture, c.os, contentRank, w.images[c.image].digest);
    }
  }

  lemma OutlastsTransitive(schedule: nat -> Move, a: World, b: World, c: World)
    requires Outlasts(schedule, a, b) && Outlasts(schedule, b, c)
    ensures Outlasts(schedule, a, c)
  {
    hide Stays;
  }

  /** When a commit is poised, it gets a lease, and is poised still. */
  lemma PoisedEnter(lib: Lib, schedule: nat -> Move, p: Past, c: Container, created: string, contentRank: string -> nat,
                    rank: string -> nat)
    requires Valid(lib, p)
    ensures Poised(lib, schedule, p.world, c, created, contentRank, rank) ==>
      var q := Called(lib, schedule, p, CreateLease);
      q.log[|q.log| - 1].reply.Ok? && Poised(lib, schedule, q.world, c, created, contentRank, rank)
  {
    hide Poised, Valid, Outlasts;
    PoisedIsQuiet(lib, schedule, p.world, c, created, contentRank, rank);
    ControlOutlasts(lib, schedule, p, CreateLease);
    PoisedOutlasts(lib, schedule, p.world, Called(lib, schedule, p, CreateLease).world, c, created, contentRank, rank);
  }

  /** When nothing goes wrong, a lease is granted, and a commit can go ahead if it could before. */
  lemma CalmEnter(lib: Lib, schedule: nat -> Move, p: Past, c: Container, created: string, contentRank: string -> nat,
                  rank: string -> nat)
    requires Acyclic(lib, p.world.content, c.architecture, c.os, contentRank) && Founded(p.world.snapshots, rank)
    ensures Calm(schedule) ==>
      var q := Called(lib, schedule, p, CreateLease);
      && q.log[|q.log| - 1].reply.Ok?
      && q.world.content == p.world.content && q.world.snapshots == p.world.snapshots
      && (Ready(lib, q.world, c, created, contentRank, rank) <==> Ready(lib, p.world, c, created, contentRank, rank))
  {
    hide Acyclic, Founded, Ready, Calm;
    if Calm(schedule) {
      CalmCall(lib, schedule, p, CreateLease);
      ReadyElsewhere(lib, p.world, Called(lib, schedule, p, CreateLease).world, c, created, contentRank, rank);
    }
  }

  /** When no call fails on its way, a lease that is there is given back. */
  lemma QuietExit(lib: Lib, schedule: nat -> Move, p: Past, lease: LeaseId)
    requires lease in p.world.leases && Quiet(schedule)
    ensures var q := Called(lib, schedule, p, DeleteLease(lease));
      q.log[|q.log| - 1].reply.Ok?
  {
  }

  lemma CalmPause(lib: Lib, schedule: nat -> Move, w: World, v: World, c: Container, created: string,
                  contentRank: string -> nat, rank: string -> nat)
    requires Acyclic(lib, w.content, c.architecture, c.os, contentRank) && Founded(w.snapshots, rank)
    requires Calm(schedule) ==> v == w.(tasks := v.tasks)
    ensures Calm(schedule) ==>
      && v.content == w.content && v.snapshots == w.snapshots
      && (Ready(lib, v, c, created, contentRank, rank) <==> Ready(lib, w, c, created, contentRank, rank))
  {
    hide Acyclic, Founded, Ready, Calm;
    if Calm(schedule) {
      ReadyElsewhere(lib, w, v, c, created, contentRank, rank);
    }
  }

  /** Nothing is in the way of a commit of a task that can be paused or left alone. */
  ghost predicate Unhindered(lib: Lib, w: World, c: Container, created: string, contentRank: string -> nat,
                             rank: string -> nat)
    requires Acyclic(lib, w.content, c.architecture, c.os, contentRank) && Founded(w.snapshots, rank)
  {
    Controllable(w.tasks, c.id) && Ready(lib, w, c, created, contentRank, rank)
  }

  /** The leases after a stretch with the lease calls of `b`: as before, but for one that was created and
      not deleted. A lease that is granted has the next free id. */
  ghost predicate LeasesLeft(before: World, after: World, b: seq<Entry>) {
    var l := before.leaseCount;
    && l !in before.leases
    && (forall i | 0 <= i < |b| && b[i].call == CreateLease && b[i].reply.Ok? ::
          b[i].applied && b[i].reply.value == Leased(l))
    && if Took(b, CreateLease) && !Took(b, DeleteLease(l))
       then l in after.leases && after.leases == before.leases[l := after.leases[l]]
       else after.leases == before.leases
  }

  class Lease {
    const server: Server
    var leaseId: LeaseId

    constructor (server: Server)
      ensures this.server == server
    {
      this.server := server;
      leaseId := 0;
    }

    /** `__aenter__`. */
    method Enter() returns (r: Result<LeaseId, Code>)
      requires Valid(server.lib, server.State())
      modifies this, server
      ensures Valid(server.lib, server.State())
      ensures server.State() == Called(server.lib, server.schedule, old(server.State()), CreateLease)
      ensures |server.log| == |old(server.log)| + 1
      ensures var reply := server.log[|server.log| - 1].reply;
        if r.Ok? then reply == Ok(Leased(r.value)) && leaseId == r.value else reply == Err(r.error)
    {
      LeaseReplies(server.lib, server.schedule, server.State(), CreateLease);
      var reply := server.Rpc(CreateLease);
      if reply.Err? {
        return Err(reply.error);
      }
      leaseId := reply.value.lease;
      return Ok(leaseId);
    }

    /** `__aexit__`. */
    method Exit() returns (r: Result<(), Code>)
      requires Valid(server.lib, server.State())
      modifies server
      ensures Valid(server.lib, server.State())
      ensures server.State() == Called(server.lib, server.schedule, old(server.State()), DeleteLease(leaseId))
      ensures |server.log| == |old(server.log)| + 1
      ensures var reply := server.log[|server.log| - 1].reply;
        if r.Ok? then reply.Ok? else reply == Err(r.error)
    {
      var reply := server.Rpc(DeleteLease(leaseId));
      return if reply.Ok? then Ok(()) else Err(reply.error);
    }
  }

  // ---------------------------------------------------------------- what a commit achieves

  /** What a commit made: the lease it held, the configuration it took over, and the layers. */
  datatype Made = Made(lease: LeaseId, config: Json, diffs: seq<SnapshotDiff>)

  function DocsOf(lib: Lib, c: Container, created: string, made: Made): Documents {
    CommitDocuments(lib, c, made.config, created, made.diffs)
  }

  function PartsOf(lib: Lib, c: Container, created: string, made: Made): set<string> {
    Parts(lib, DocsOf(lib, c, created, made), LayerNames(made.diffs))
  }

  /** The image of the container is stored and recorded, and nothing else about images and snapshots changed. */
  ghost predicate Committed(lib: Lib, before: World, after: World, c: Container, name: string, created: string,
                            rank: string -> nat, made: Made) {
    && Snapshots.Complete(lib, before.snapshots, rank, c.snapshot.key, made.diffs)
    && after.snapshots == before.snapshots
    && after.images == before.images[name := DocsOf(lib, c, created, made).ManifestDescriptor(lib)]
    && Recorded(lib, after, name, DocsOf(lib, c, created, made), LayerNames(made.diffs))
    && ChainLabelled(lib, after, c, DocsOf(lib, c, created, made), made.diffs)
    && LayersStored(before.content, after.content, LayerNames(made.diffs),
                    LayerSet(lib, before.snapshots, Lineage(before.snapshots, rank, c.snapshot.key)))
  }

  ghost predicate SomeCallFailed(log: seq<Entry>, code: Code) {
    exists i :: 0 <= i < |log| && log[i].reply == Err(code)
  }

  lemma ParentConfigShrinks(lib: Lib, big: World, small: World, c: Container, rank: string -> nat,
                            r: Result<Json, Error>)
    requires Acyclic(lib, big.content, c.architecture, c.os, rank) && Acyclic(lib, small.content, c.architecture, c.os,
                                                                              rank)
    requires small.images == big.images
    requires forall d | d in small.content :: d in big.content && small.content[d] == big.content[d]
    requires FromParent(lib, small, c, rank, r) && (r.Err? ==> !r.error.RpcFailed?)
    ensures FromParent(lib, big, c, rank, r)
  {
    hide ReadImage, Acyclic;
    ReadImageShrinks(lib, big.content, small.content, c.architecture, c.os, rank, small.images[c.image].digest);
  }

  /** From the body's own view of what it built to the view from before the lease, after giving it back. */
  lemma BuiltIsCommitted(lib: Lib, w0: World, w1: World, w2: World, w3: World, c: Container, name: string,
                         created: string, rank: string -> nat, made: Made)
    requires Built(lib, w1, w2, c, name, created, made.lease, rank, made.config, made.diffs)
    requires w1.images == w0.images && w1.snapshots == w0.snapshots
    requires forall d | d in w1.content :: d in w0.content && w1.content[d] == w0.content[d]
    requires Guarded(w2, w3, PartsOf(lib, c, created, made))
    ensures Committed(lib, w0, w3, c, name, created, rank, made)
  {
    hide CommitDocuments, LayerSet, Lineage, Complete, ChainLabelled;
    BuiltIsRecorded(lib, w1, w2, c, name, created, made.lease, rank, made.config, made.diffs);
    GuardedStaysRecorded(lib, w2, w3, name, DocsOf(lib, c, created, made), LayerNames(made.diffs));
    GuardedStaysLabelled(lib, w2, w3, c, DocsOf(lib, c, created, made), LayerNames(made.diffs), made.diffs);
    forall i | 0 <= i < |made.diffs|
      ensures LayerNames(made.diffs)[i] in PartsOf(lib, c, created, made)
    {
    }
  }

  /** A built image's parts are all under the lease. */
  lemma BuiltHoldsAll(lib: Lib, before: World, after: World, c: Container, name: string, created: string,
                      rank: string -> nat, made: Made)
    requires Built(lib, before, after, c, name, created, made.lease, rank, made.config, made.diffs)
    ensures HoldsAll(after, made.lease, PartsOf(lib, c, created, made))
  {
    hide CommitDocuments, LayerSet, Lineage, Complete, ChainLabelled;
  }

  /** The states from the end of `a` on. */
  function Span(a: seq<World>, b: seq<World>): seq<World>
    requires 0 < |a| && a <= b
  {
    b[|a| - 1..]
  }

  /** The stretch from taking the lease to giving it back loses nothing. */
  lemma LeaseLosesNothing(lib: Lib, p0: Past, p1: Past, p2: Past, p3: Past, lease: LeaseId, parts: set<string>,
                          name: string, docs: Documents, layers: seq<string>)
    requires Valid(lib, p0) && Valid(lib, p2)
    requires p0.history <= p1.history <= p2.history <= p3.history
    requires |p1.history| == |p0.history| + 2 && |p3.history| == |p2.history| + 2
    requires lease !in p0.world.leases && lease !in p1.history[|p0.history|].leases
    requires Guarding(lib, p1, p2, lease, name, docs, layers) && HoldsAll(p2.world, lease, parts)
    requires Guarded(p2.world, p3.history[|p2.history|], parts) && Guarded(p2.world, p3.history[|p2.history| + 1],
                                                                           parts)
    ensures NeverLost(Span(p0.history, p3.history), lease, parts)
  {
    hide RecordSafe;
    var h := Span(p0.history, p3.history);
    var s := |p0.history| - 1;
    var mid, end := 2, |p2.history| - s;
    assert h[0] == p0.history[s] == p0.world && h[1] == p1.history[|p0.history|];
    forall i, j | mid <= i <= j < end
      ensures Kept(h[i], h[j], lease)
    {
      assert h[i] == p2.history[s + i] && h[j] == p2.history[s + j];
      assert Kept(p2.history[s + i], p2.history[s + j], lease);
    }
    forall i | mid <= i < end
      ensures Sound(lib, h[i])
    {
      assert h[i] == p2.history[s + i];
    }
    assert h[end - 1] == p2.history[|p2.history| - 1];
    assert h[end] == p3.history[|p2.history|] && h[end + 1] == p3.history[|p2.history| + 1] && |h| == end + 2;
    NeverLostBy(lib, h, lease, parts, mid, end);
  }

  /** How a stretch of a commit that fails explains itself. */
  ghost predicate Explained(lib: Lib, before: World, c: Container, rank: string -> nat, error: Error, log: seq<Entry>)
    requires Acyclic(lib, before.content, c.architecture, c.os, rank)
  {
    if error.RpcFailed? then SomeCallFailed(log, error.code) else FromParent(lib, before, c, rank, Err(error))
  }

  lemma LastCallFailed(a: seq<Entry>, b: seq<Entry>, c: seq<Entry>, code: Code)
    requires a <= b <= c && |a| < |b| && b[|b| - 1].reply == Err(code)
    ensures SomeCallFailed(Since(a, c), code)
  {
    assert Since(a, c)[|b| - 1 - |a|] == b[|b| - 1];
  }

  lemma LeaseTraceOf(a: seq<Entry>, create: Entry, b: seq<Entry>, delete: Entry)
    requires create.call == CreateLease && create.reply.Ok? && create.reply.value.Leased?
    requires delete.call == DeleteLease(create.reply.value.lease)
    requires a + [create] <= b && Brackets(Since(a + [create], b)) == []
    ensures a <= b + [delete] && Brackets(Since(a, b + [delete])) == [create, delete]
    ensures LeaseTrace([create, delete])
  {
    OneCall(a, create);
    OneCall(b, delete);
    SinceTwice(a, a + [create], b);
    SinceTwice(a, b, b + [delete]);
  }

  /** A commit got through: the image of the container is stored and recorded, its configuration is that of the
      container's own image, and no part of it was lost on the way. */
  ghost predicate Achieved(lib: Lib, a: Past, b: Past, c: Container, name: string, created: string,
                           contentRank: string -> nat, rank: string -> nat, made: Made)
    requires Acyclic(lib, a.world.content, c.architecture, c.os, contentRank)
    requires |a.history| > 0 && a.history <= b.history
  {
    && made.lease == a.world.leaseCount
    && Committed(lib, a.world, b.world, c, name, created, rank, made)
    && FromParent(lib, a.world, c, contentRank, Ok(made.config))
    && NeverLost(Span(a.history, b.history), made.lease, PartsOf(lib, c, created, made))
  }

  /** An entry that lets a commit that got through report an error: its record was put and the answer lost, or the
      lease or the task was not put back. */
  predicate IsHitch(e: Entry) {
    LostRecord(e) || (e.reply.Err? && (e.call.DeleteLease? || e.call.ResumeTask?))
  }

  ghost predicate Hitch(a: seq<Entry>, b: seq<Entry>) {
    exists i :: |a| <= i < |b| && IsHitch(b[i])
  }

  lemma HitchWider(a: seq<Entry>, b: seq<Entry>, c: seq<Entry>, d: seq<Entry>)
    requires a <= b && c <= d && Hitch(b, c)
    ensures Hitch(a, d)
  {
    var i :| |b| <= i < |c| && IsHitch(c[i]);
    assert d[i] == c[i];
  }

  lemma LostIsHitch(a: seq<Entry>, b: seq<Entry>)
    requires RecordLost(a, b)
    ensures Hitch(a, b)
  {
    var i :| |a| <= i < |b| && LostRecord(b[i]);
    assert IsHitch(b[i]);
  }

  /** What a commit promises between two pasts, whatever its result: every state was safe; the records are as
      before, or the commit got through. It got through if it says so; an error has an explanation, and so has an
      error of a commit that changed the records. */
  ghost predicate Promised(lib: Lib, a: Past, b: Past, c: Container, name: string, created: string,
                           contentRank: string -> nat, rank: string -> nat, r: Result<(), Error>, made: Made)
    requires Acyclic(lib, a.world.content, c.architecture, c.os, contentRank)
  {
    && a.log <= b.log && |a.history| > 0 && a.history <= b.history
    && Safe(lib, Span(a.history, b.history), a.world.leaseCount, name, DocsOf(lib, c, created, made),
            LayerNames(made.diffs))
    && (b.world.images == a.world.images || Achieved(lib, a, b, c, name, created, contentRank, rank, made))
    && (r.Ok? ==> Achieved(lib, a, b, c, name, created, contentRank, rank, made))
    && (r.Err? ==> Explained(lib, a.world, c, contentRank, r.error, Since(a.log, b.log)))
    && (r.Err? && b.world.images != a.world.images ==> Hitch(a.log, b.log))
  }

  /** A failed call replaces the result, and takes nothing back. */
  lemma PromisedInstead(lib: Lib, a: Past, b: Past, c: Container, name: string, created: string,
                        contentRank: string -> nat, rank: string -> nat, r: Result<(), Error>, code: Code, made: Made)
    requires Acyclic(lib, a.world.content, c.architecture, c.os, contentRank)
    requires Promised(lib, a, b, c, name, created, contentRank, rank, r, made)
    requires a.log <= b.log && |a.log| < |b.log| && IsHitch(b.log[|b.log| - 1])
    requires b.log[|b.log| - 1].reply == Err(code)
    ensures Promised(lib, a, b, c, name, created, contentRank, rank, Err(RpcFailed(code)), made)
  {
    LastCallFailed(a.log, b.log, b.log, code);
    hide Acyclic, Safe, Achieved, SomeCallFailed, Since, Span, FromParent;
  }

  lemma PromisedOrder(lib: Lib, a: Past, b: Past, c: Container, name: string, created: string,
                      contentRank: string -> nat, rank: string -> nat, r: Result<(), Error>, made: Made)
    requires Acyclic(lib, a.world.content, c.architecture, c.os, contentRank)
    requires Promised(lib, a, b, c, name, created, contentRank, rank, r, made)
    ensures a.log <= b.log && |a.history| > 0 && a.history <= b.history
  {
    hide Acyclic, Safe, Achieved, Span, Explained, Since;
  }

  lemma GuardingIsPlain(lib: Lib, a: Past, b: Past, lease: LeaseId, name: string, docs: Documents, layers: seq<string>)
    requires Guarding(lib, a, b, lease, name, docs, layers)
    ensures a.log <= b.log && a.history <= b.history && |a.history| > 0 && Brackets(Since(a.log, b.log)) == []
    ensures b.world.tasks == a.world.tasks && lease in b.world.leases
    ensures b.world.leases == a.world.leases[lease := b.world.leases[lease]]
  {
    hide RecordSafe;
    BracketsOfPlain(Since(a.log, b.log));
  }

  /** The `async with Lease(..)` of `commit`. */
  method CommitUnderLease(server: Server, c: Container, name: string, created: string, ghost contentRank: string -> nat,
                          ghost rank: string -> nat)
      returns (r: Result<(), Error>, ghost made: Made)
    requires Valid(server.lib, server.State())
    requires Acyclic(server.lib, server.world.content, c.architecture, c.os, contentRank)
    requires Founded(server.world.snapshots, rank)
    modifies server
    ensures Valid(server.lib, server.State())
    ensures old(server.log) <= server.log && LeaseTrace(Brackets(Since(old(server.log), server.log)))
    ensures LeasesLeft(old(server.world), server.world, Brackets(Since(old(server.log), server.log)))
    ensures server.world.tasks == old(server.world.tasks)
    ensures Leftover(old(server.world.snapshots), server.world.snapshots,
                     LineageKeys(old(server.world.snapshots), rank, c.snapshot.key))
    ensures Promised(server.lib, old(server.State()), server.State(), c, name, created, contentRank, rank, r, made)
    ensures Calm(server.schedule) ==> (r.Ok? <==> Ready(server.lib, old(server.world), c, created, contentRank, rank))
    ensures Poised(server.lib, server.schedule, old(server.world), c, created, contentRank, rank) ==> r.Ok?
  {
    hide Valid, Called, Acyclic, Founded, Promised, LeaseTrace, LeasesLeft, Leftover, Lineage, LineageKeys, Brackets,
      Since, Leasing, Ready, Calm, Quiet, Poised;
    made := Made(0, Null, []);
    var lease := new Lease(server);
    ghost var p0 := server.State();
    CalmEnter(server.lib, server.schedule, p0, c, created, contentRank, rank);
    PoisedEnter(server.lib, server.schedule, p0, c, created, contentRank, rank);
    LeasingNow(server.lib, server.schedule, p0);
    var entered := lease.Enter();
    LeasingMeans(p0, server.State(), p0.world.leaseCount);
    if entered.Err? {
      NothingLeft(p0.world.snapshots, LineageKeys(p0.world.snapshots, rank, c.snapshot.key));
      NeverEntered(server.lib, server.schedule, p0, c, name, created, contentRank, rank, entered.error, made);
      r := Err(RpcFailed(entered.error));
      return;
    }
    r, made := CommitHolding(server, lease, c, name, created, contentRank, rank, p0);
  }

  /** The same from the moment the lease is held; `p0` is the past before that. */
  method CommitHolding(server: Server, lease: Lease, c: Container, name: string, created: string,
                       ghost contentRank: string -> nat, ghost rank: string -> nat, ghost p0: Past)
      returns (r: Result<(), Error>, ghost made: Made)
    requires lease.server == server && Valid(server.lib, server.State()) && Valid(server.lib, p0)
    requires server.State() == Called(server.lib, server.schedule, p0, CreateLease)
    requires |server.log| > 0 && server.log[|server.log| - 1].reply == Ok(Leased(lease.leaseId))
    requires lease.leaseId == p0.world.leaseCount
    requires Acyclic(server.lib, p0.world.content, c.architecture, c.os, contentRank)
    requires Founded(p0.world.snapshots, rank)
    modifies server
    ensures Valid(server.lib, server.State())
    ensures p0.log <= server.log && LeaseTrace(Brackets(Since(p0.log, server.log)))
    ensures LeasesLeft(p0.world, server.world, Brackets(Since(p0.log, server.log)))
    ensures server.world.tasks == p0.world.tasks
    ensures Leftover(p0.world.snapshots, server.world.snapshots, LineageKeys(p0.world.snapshots, rank, c.snapshot.key))
    ensures Promised(server.lib, p0, server.State(), c, name, created, contentRank, rank, r, made)
    ensures Calm(server.schedule) ==> (r.Ok? <==> Ready(server.lib, old(server.world), c, created, contentRank, rank))
    ensures Poised(server.lib, server.schedule, old(server.world), c, created, contentRank, rank) ==> r.Ok?
  {
    hide Valid, Guarding, Called, Acyclic, Founded, BuiltFrom, Promised, Brackets, LeaseTrace, LeasesLeft, Leftover,
      Lineage, LineageKeys, FromParent, CallFailed, Since, Leasing, RecordLost, Ready, Calm, Quiet, Poised,
      ParentStays;
    var lib := server.lib;
    ghost var p1 := server.State();
    LeasingNow(lib, server.schedule, p0);
    LeasingMeans(p0, p1, lease.leaseId);
    AcyclicShrinks(lib, p0.world.content, p1.world.content, c.architecture, c.os, contentRank);
    PoisedMeans(lib, server.schedule, p1.world, c, created, contentRank, rank);
    PoisedIsQuiet(lib, server.schedule, p1.world, c, created, contentRank, rank);
    ghost var config, diffs;
    r, config, diffs := BuildImage(server, c, name, created, lease.leaseId, contentRank, rank);
    made := Made(lease.leaseId, config, diffs);
    ghost var p2 := server.State();
    GuardingIsPlain(lib, p1, p2, made.lease, name, DocsOf(lib, c, created, made), LayerNames(made.diffs));
    if Quiet(server.schedule) {
      QuietExit(lib, server.schedule, p2, made.lease);
    }
    GivingBack(lib, server.schedule, p0, p2, c, name, created, contentRank, rank, r, made);
    var exited := lease.Exit();
    if exited.Err? {
      r := Err(RpcFailed(exited.error));
    }
  }

  lemma LeasingMeans(p0: Past, p1: Past, lease: LeaseId)
    requires Leasing(p0, p1, lease)
    ensures p1.world.images == p0.world.images && p1.world.snapshots == p0.world.snapshots
    ensures forall d | d in p1.world.content :: d in p0.world.content && p1.world.content[d] == p0.world.content[d]
  {
  }

  /** What is known once the lease has been given back, or could not be. */
  lemma GivingBack(lib: Lib, schedule: nat -> Move, p0: Past, p2: Past, c: Container, name: string, created: string,
                   contentRank: string -> nat, rank: string -> nat, r: Result<(), Error>, made: Made)
    requires Acyclic(lib, p0.world.content, c.architecture, c.os, contentRank)
    requires Valid(lib, p0) && Valid(lib, Called(lib, schedule, p0, CreateLease)) && Valid(lib, p2)
    requires var p1 := Called(lib, schedule, p0, CreateLease);
      && made.lease == p0.world.leaseCount && p1.log[|p1.log| - 1].reply == Ok(Leased(made.lease))
      && Acyclic(lib, p1.world.content, c.architecture, c.os, contentRank)
      && Guarding(lib, p1, p2, made.lease, name, DocsOf(lib, c, created, made), LayerNames(made.diffs))
      && var built := BuiltFrom(lib, p1.world, p2.world, c, name, created, made.lease, contentRank, rank, made.config,
                                made.diffs);
      && (p2.world.images == p1.world.images || built)
      && (r.Ok? ==> built)
      && (r.Err? && r.error.RpcFailed? ==> CallFailed<()>(Err(r.error.code), p2.log))
      && (r.Err? && !r.error.RpcFailed? ==> FromParent(lib, p1.world, c, contentRank, Err(r.error)))
      && (r.Err? && p2.world.images != p1.world.images ==> RecordLost(p1.log, p2.log))
    ensures var p3 := Called(lib, schedule, p2, DeleteLease(made.lease));
      var reply := p3.log[|p3.log| - 1].reply;
      && p3.world.tasks == p0.world.tasks && p3.world.snapshots == p2.world.snapshots
      && p0.log <= p3.log
      && var b := Brackets(Since(p0.log, p3.log));
      && LeaseTrace(b) && LeasesLeft(p0.world, p3.world, b)
      && var result := if reply.Err? then Err(RpcFailed(reply.error)) else r;
      Promised(lib, p0, p3, c, name, created, contentRank, rank, result, made)
  {
    hide Valid, Acyclic, Called, Guarding, BuiltFrom, Explained, Promised, LeasesLeft, LeaseTrace, Brackets,
      FromParent, CallFailed, SomeCallFailed, Since;
    var p1, p3 := Called(lib, schedule, p0, CreateLease), Called(lib, schedule, p2, DeleteLease(made.lease));
    LeasingNow(lib, schedule, p0);
    GuardingIsPlain(lib, p1, p2, made.lease, name, DocsOf(lib, c, created, made), LayerNames(made.diffs));
    LeaseReplies(lib, schedule, p0, CreateLease);
    LeaseReplies(lib, schedule, p2, DeleteLease(made.lease));
    var create, delete := p1.log[|p0.log|], p3.log[|p2.log|];
    LeaseTraceOf(p0.log, create, p2.log, delete);
    LeaseLedger(p0.world, p1.world, p2.world, p3.world, create, delete);
    if r.Err? {
      BodyFailed(lib, p0, p1, p2, p3, c, contentRank, r.error);
      if p2.world.images != p1.world.images {
        LostIsHitch(p1.log, p2.log);
        HitchWider(p0.log, p1.log, p2.log, p3.log);
      }
    }
    LeasePromises(lib, schedule, p0, p2, c, name, created, contentRank, rank, r, made);
    if delete.reply.Err? {
      PromisedInstead(lib, p0, p3, c, name, created, contentRank, rank, r, delete.reply.error, made);
    }
  }

  lemma LeasingNow(lib: Lib, schedule: nat -> Move, p0: Past)
    requires Valid(lib, p0)
    ensures Leasing(p0, Called(lib, schedule, p0, CreateLease), p0.world.leaseCount)
    ensures var p1 := Called(lib, schedule, p0, CreateLease);
      && p1.world.tasks == p0.world.tasks
      && var reply := p1.log[|p1.log| - 1].reply;
      (reply.Ok? ==> reply.value == Leased(p0.world.leaseCount) && p0.world.leaseCount in p1.world.leases)
  {
    hide Valid, Called;
    LeaseReplies(lib, schedule, p0, CreateLease);
    ValidIsSome(lib, p0);
  }

  lemma LeaseLedger(w0: World, w1: World, w2: World, w3: World, create: Entry, delete: Entry)
    requires w0.leaseCount !in w0.leases && create.call == CreateLease && create.applied
    requires create.reply == Ok(Leased(w0.leaseCount)) && delete.call == DeleteLease(w0.leaseCount)
    requires w1.leases == w0.leases[w0.leaseCount := {}]
    requires w0.leaseCount in w2.leases && w2.leases == w1.leases[w0.leaseCount := w2.leases[w0.leaseCount]]
    requires w3.leases == if delete.applied then w2.leases - {w0.leaseCount} else w2.leases
    ensures LeasesLeft(w0, w3, [create, delete])
  {
    var b := [create, delete];
    assert b[0].call == CreateLease && b[0].applied;
    assert delete.applied ==> b[1].call == DeleteLease(w0.leaseCount) && b[1].applied;
  }

  /** The states from before taking a lease to right after it. */
  lemma EnteringIsUntried(lib: Lib, schedule: nat -> Move, p: Past)
    requires Valid(lib, p)
    ensures var q := Called(lib, schedule, p, CreateLease);
      && p.history <= q.history && |p.history| > 0
      && var h := Span(p.history, q.history);
      && |h| == 3 && h[0] == p.world && h[2] == q.world
      && forall i | 0 <= i < 3 :: Untried(h[0], h[i], p.world.leaseCount)
  {
    hide Valid, Called;
    ValidIsSome(lib, p);
    LeaseReplies(lib, schedule, p, CreateLease);
    var q := Called(lib, schedule, p, CreateLease);
    var h := Span(p.history, q.history);
    assert h[0] == p.world && h[1] == q.history[|p.history|] && h[2] == q.world;
  }

  /** A lease that was not granted is all there is to a commit: nothing was held or recorded. */
  lemma NeverEntered(lib: Lib, schedule: nat -> Move, p0: Past, c: Container, name: string, created: string,
                     contentRank: string -> nat, rank: string -> nat, code: Code, made: Made)
    requires Valid(lib, p0) && Acyclic(lib, p0.world.content, c.architecture, c.os, contentRank)
    requires var p1 := Called(lib, schedule, p0, CreateLease);
      p1.log[|p1.log| - 1].reply == Err(code)
    ensures var p1 := Called(lib, schedule, p0, CreateLease);
      && p0.log <= p1.log
      && var b := Brackets(Since(p0.log, p1.log));
      && LeaseTrace(b) && LeasesLeft(p0.world, p1.world, b)
      && Promised(lib, p0, p1, c, name, created, contentRank, rank, Err(RpcFailed(code)), made)
  {
    hide Valid, Called, Acyclic, Safe, SomeCallFailed, FromParent, Span, Since, Brackets;
    var p1 := Called(lib, schedule, p0, CreateLease);
    LeaseReplies(lib, schedule, p0, CreateLease);
    EnteringIsUntried(lib, schedule, p0);
    SafeStart(lib, Span(p0.history, p1.history), p0.world.leaseCount, name, DocsOf(lib, c, created, made),
              LayerNames(made.diffs));
    var create := p1.log[|p0.log|];
    OneCall(p0.log, create);
    FailedLeaseTrace(create);
    LastCallFailed(p0.log, p1.log, p1.log, code);
    assert create.applied ==> Took([create], CreateLease) by {
      assert [create][0] == create;
    }
  }

  /** The state right after taking a lease, seen from before. */
  ghost predicate Leasing(p0: Past, p1: Past, lease: LeaseId) {
    && |p0.history| > 0 && p0.log <= p1.log && |p0.log| < |p1.log|
    && p0.history <= p1.history && |p1.history| == |p0.history| + 2
    && p1.world.images == p0.world.images && p1.world.snapshots == p0.world.snapshots
    && (forall d | d in p1.world.content :: d in p0.world.content && p1.world.content[d] == p0.world.content[d])
    && lease !in p0.world.leases && lease !in p1.history[|p0.history|].leases
  }

  /** What comes of the body is safe at every moment, the return of the lease included. */
  lemma LeaseIsSafe(lib: Lib, schedule: nat -> Move, p0: Past, p2: Past, name: string, docs: Documents,
                    layers: seq<string>)
    requires Valid(lib, p0) && Valid(lib, Called(lib, schedule, p0, CreateLease)) && Valid(lib, p2)
    requires Guarding(lib, Called(lib, schedule, p0, CreateLease), p2, p0.world.leaseCount, name, docs, layers)
    ensures var p3 := Called(lib, schedule, p2, DeleteLease(p0.world.leaseCount));
      && p0.history <= p3.history && |p0.history| > 0
      && Safe(lib, Span(p0.history, p3.history), p0.world.leaseCount, name, docs, layers)
  {
    hide Valid, Safe, Follows, Called, Untried;
    var lease := p0.world.leaseCount;
    var p1 := Called(lib, schedule, p0, CreateLease);
    EnteringIsUntried(lib, schedule, p0);
    GuardingIsPlain(lib, p1, p2, lease, name, docs, layers);
    var h := Span(p0.history, p1.history);
    SafeBody(lib, h, p1, p2, lease, name, docs, layers);
    assert Span(p0.history, p2.history) == h + p2.history[|p1.history|..];
    SafeCall(lib, schedule, p0, p2, DeleteLease(lease), lease, name, docs, layers);
  }

  /** One call more to put something back. */
  lemma SafeCall(lib: Lib, schedule: nat -> Move, p0: Past, p: Past, call: Call, lease: LeaseId, name: string,
                 docs: Documents, layers: seq<string>)
    requires Valid(lib, p) && |p0.history| > 0 && p0.history <= p.history && (call.DeleteLease? || call.ResumeTask?)
    requires Safe(lib, Span(p0.history, p.history), lease, name, docs, layers)
    ensures var q := Called(lib, schedule, p, call);
      p0.history <= q.history && Safe(lib, Span(p0.history, q.history), lease, name, docs, layers)
  {
    hide Safe, Follows;
    var q := Called(lib, schedule, p, call);
    var h := Span(p0.history, p.history);
    var swept := Collect(p.world, schedule(p.clock).picked);
    PuttingBackFollows(lib, schedule, p, call, lease, name, docs, layers);
    assert h[|h| - 1] == p.world;
    SafeNext(lib, h, swept, lease, name, docs, layers);
    SafeNext(lib, h + [swept], q.world, lease, name, docs, layers);
    assert Span(p0.history, q.history) == h + [swept] + [q.world];
  }

  /** What a commit under a lease promises, once the lease has been given back or not. */
  lemma LeasePromises(lib: Lib, schedule: nat -> Move, p0: Past, p2: Past, c: Container, name: string, created: string,
                      contentRank: string -> nat, rank: string -> nat, r: Result<(), Error>, made: Made)
    requires Acyclic(lib, p0.world.content, c.architecture, c.os, contentRank)
    requires Valid(lib, p0) && Valid(lib, Called(lib, schedule, p0, CreateLease)) && Valid(lib, p2)
    requires var p1 := Called(lib, schedule, p0, CreateLease);
      && made.lease == p0.world.leaseCount
      && Acyclic(lib, p1.world.content, c.architecture, c.os, contentRank)
      && Guarding(lib, p1, p2, made.lease, name, DocsOf(lib, c, created, made), LayerNames(made.diffs))
      && var built := BuiltFrom(lib, p1.world, p2.world, c, name, created, made.lease, contentRank, rank, made.config,
                                made.diffs);
      && (p2.world.images == p1.world.images || built)
      && (r.Ok? ==> built)
    requires var p3 := Called(lib, schedule, p2, DeleteLease(made.lease));
      && p0.log <= p3.log
      && (r.Err? ==> Explained(lib, p0.world, c, contentRank, r.error, Since(p0.log, p3.log)))
      && (r.Err? && p2.world.images != p0.world.images ==> Hitch(p0.log, p3.log))
    ensures var p3 := Called(lib, schedule, p2, DeleteLease(made.lease));
      Promised(lib, p0, p3, c, name, created, contentRank, rank, r, made)
  {
    hide Valid, Acyclic, Called, Guarding, Safe, BuiltFrom, Explained, Since, Span, Achieved, PartsOf;
    var p1 := Called(lib, schedule, p0, CreateLease);
    LeasingNow(lib, schedule, p0);
    LeaseIsSafe(lib, schedule, p0, p2, name, DocsOf(lib, c, created, made), LayerNames(made.diffs));
    LeaseReplies(lib, schedule, p2, DeleteLease(made.lease));
    if BuiltFrom(lib, p1.world, p2.world, c, name, created, made.lease, contentRank, rank, made.config, made.diffs) {
      BodySucceeded(lib, schedule, p0, p1, p2, c, name, created, contentRank, rank, made);
    }
  }

  lemma BodySucceeded(lib: Lib, schedule: nat -> Move, p0: Past, p1: Past, p2: Past, c: Container, name: string,
                      created: string, contentRank: string -> nat, rank: string -> nat, made: Made)
    requires Valid(lib, p0) && Valid(lib, p2) && Leasing(p0, p1, made.lease) && made.lease == p0.world.leaseCount
    requires Guarding(lib, p1, p2, made.lease, name, DocsOf(lib, c, created, made), LayerNames(made.diffs))
    requires Acyclic(lib, p0.world.content, c.architecture, c.os, contentRank)
    requires Acyclic(lib, p1.world.content, c.architecture, c.os, contentRank)
    requires BuiltFrom(lib, p1.world, p2.world, c, name, created, made.lease, contentRank, rank, made.config,
                       made.diffs)
    ensures var p3 := Called(lib, schedule, p2, DeleteLease(made.lease));
      && p0.history <= p3.history
      && Achieved(lib, p0, p3, c, name, created, contentRank, rank, made)
  {
    hide Valid, Built, Committed, PartsOf, NeverLost, Guarded, ParentConfig, Recorded, HoldsAll, Acyclic, Guarding;
    var p3 := Called(lib, schedule, p2, DeleteLease(made.lease));
    GuardingIsPlain(lib, p1, p2, made.lease, name, DocsOf(lib, c, created, made), LayerNames(made.diffs));
    BuiltIsRecorded(lib, p1.world, p2.world, c, name, created, made.lease, rank, made.config, made.diffs);
    BuiltHoldsAll(lib, p1.world, p2.world, c, name, created, rank, made);
    PuttingBack(lib, schedule, p2, DeleteLease(made.lease), c, name, created, made);
    BuiltIsCommitted(lib, p0.world, p1.world, p2.world, p3.world, c, name, created, rank, made);
    LeaseLosesNothing(lib, p0, p1, p2, p3, made.lease, PartsOf(lib, c, created, made),
                      name, DocsOf(lib, c, created, made), LayerNames(made.diffs));
    FromParentOf(lib, p0.world, p1.world, c, contentRank, Ok(made.config));
  }

  lemma BodyFailed(lib: Lib, p0: Past, p1: Past, p2: Past, p3: Past, c: Container, rank: string -> nat, error: Error)
    requires p0.log <= p1.log <= p2.log <= p3.log && |p0.log| < |p1.log|
    requires Acyclic(lib, p0.world.content, c.architecture, c.os, rank)
    requires Acyclic(lib, p1.world.content, c.architecture, c.os, rank)
    requires p1.world.images == p0.world.images
    requires forall d | d in p1.world.content :: d in p0.world.content && p1.world.content[d] == p0.world.content[d]
    requires error.RpcFailed? ==> CallFailed<()>(Err(error.code), p2.log)
    requires !error.RpcFailed? ==> FromParent(lib, p1.world, c, rank, Err(error))
    ensures Explained(lib, p0.world, c, rank, error, Since(p0.log, p3.log))
  {
    hide ParentConfig, Acyclic, CallFailed, SomeCallFailed;
    if error.RpcFailed? {
      BodyCallFailed(p0.log, p1.log, p2.log, p3.log, error.code);
    } else {
      FromParentOf(lib, p0.world, p1.world, c, rank, Err(error));
    }
  }

  lemma ValidIsSome(lib: Lib, p: Past)
    requires Valid(lib, p)
    ensures |p.history| > 0 && p.history[|p.history| - 1] == p.world
  {
  }

  lemma FailedLeaseTrace(create: Entry)
    requires create.call == CreateLease && create.reply.Err?
    ensures LeaseTrace([create])
  {
  }

  lemma PuttingBack(lib: Lib, schedule: nat -> Move, p: Past, call: Call, c: Container, name: string, created: string,
                    made: Made)
    requires call.DeleteLease? || call.ResumeTask?
    requires Recorded(lib, p.world, name, DocsOf(lib, c, created, made), LayerNames(made.diffs))
    ensures var q := Called(lib, schedule, p, call);
      && |q.history| == |p.history| + 2
      && Guarded(p.world, q.world, PartsOf(lib, c, created, made))
      && Guarded(p.world, q.history[|p.history|], PartsOf(lib, c, created, made))
      && q.history[|p.history| + 1] == q.world
  {
    hide CommitDocuments;
    PuttingBackGuards(lib, schedule, p, call, name, DocsOf(lib, c, created, made), LayerNames(made.diffs));
  }

  lemma FromParentOf(lib: Lib, big: World, small: World, c: Container, rank: string -> nat, r: Result<Json, Error>)
    requires Acyclic(lib, big.content, c.architecture, c.os, rank) && Acyclic(lib, small.content, c.architecture, c.os,
                                                                              rank)
    requires small.images == big.images
    requires forall d | d in small.content :: d in big.content && small.content[d] == big.content[d]
    requires c.image in small.images && ParentConfig(lib, small.content, c, small.images[c.image].digest, rank) == r
    requires r.Err? ==> !r.error.RpcFailed?
    ensures FromParent(lib, big, c, rank, r)
  {
    hide ReadImage, Acyclic;
    ParentConfigShrinks(lib, big, small, c, rank, r);
  }

  lemma BodyCallFailed(a: seq<Entry>, b: seq<Entry>, c: seq<Entry>, d: seq<Entry>, code: Code)
    requires a <= b <= c <= d && |a| < |b| && CallFailed<()>(Err(code), c)
    ensures SomeCallFailed(Since(a, d), code)
  {
    LastCallFailed(a, c, d, code);
  }

  // ---------------------------------------------------------------- the whole commit

  lemma CommittedWider(lib: Lib, w0: World, w1: World, w2: World, w3: World, c: Container, name: string,
                       created: string, rank: string -> nat, made: Made)
    requires Committed(lib, w1, w2, c, name, created, rank, made)
    requires w1.images == w0.images && w1.snapshots == w0.snapshots
    requires forall d | d in w1.content :: d in w0.content && w1.content[d] == w0.content[d]
    requires Guarded(w2, w3, PartsOf(lib, c, created, made))
    ensures Committed(lib, w0, w3, c, name, created, rank, made)
  {
    hide CommitDocuments, LayerSet, Lineage, Complete, ChainLabelled;
    GuardedStaysRecorded(lib, w2, w3, name, DocsOf(lib, c, created, made), LayerNames(made.diffs));
    GuardedStaysLabelled(lib, w2, w3, c, DocsOf(lib, c, created, made), LayerNames(made.diffs), made.diffs);
    forall i | 0 <= i < |made.diffs|
      ensures LayerNames(made.diffs)[i] in PartsOf(lib, c, created, made)
    {
    }
  }

  lemma NeverLostWider(pre: seq<World>, h: seq<World>, post: seq<World>, lease: LeaseId, parts: set<string>)
    requires NeverLost(h, lease, parts)
    requires forall i | 0 <= i < |pre| :: lease !in pre[i].leases
    requires forall i, d | 0 <= i < |post| && d in parts :: d in post[i].content
    ensures NeverLost(pre + h + post, lease, parts)
  {
    var all := pre + h + post;
    var k :| 0 <= k < |h| && HoldsAll(h[k], lease, parts);
    assert all[|pre| + k] == h[k];
    forall i, j, d | 0 <= i <= j < |all| && d in parts && HoldsOne(all[i], lease, d)
      ensures d in all[j].content
    {
      if |pre| + |h| <= j {
        assert all[j] == post[j - |pre| - |h|];
      } else {
        assert i >= |pre| && all[i] == h[i - |pre|] && all[j] == h[j - |pre|];
      }
    }
  }

  /** Widening what was lost by what happened aside before, and by states that guard the parts after. */
  lemma SpanWider(p0: Past, p1: Past, p2: Past, p3: Past, lease: LeaseId, parts: set<string>)
    requires Aside(p0, p1) && |p1.history| > 0 && p1.history <= p2.history <= p3.history
    requires NeverLost(Span(p1.history, p2.history), lease, parts) && lease !in p1.world.leases
    requires forall i, d | |p2.history| <= i < |p3.history| && d in parts :: d in p3.history[i].content
    ensures NeverLost(Span(p0.history, p3.history), lease, parts)
  {
    var pre := p1.history[|p0.history| - 1..|p1.history| - 1];
    var h := Span(p1.history, p2.history);
    var post := p3.history[|p2.history|..];
    assert Span(p0.history, p3.history) == pre + h + post;
    forall i | 0 <= i < |pre|
      ensures lease !in pre[i].leases
    {
      assert pre[i] == p1.history[|p0.history| - 1 + i];
    }
    NeverLostWider(pre, h, post, lease, parts);
  }

  lemma IdleTrace(id: string, pause: seq<Entry>, lease: seq<Entry>, r: Result<bool, Code>)
    requires PauseTrace(id, pause, r) && LeaseTrace(lease) && r == Ok(false)
    ensures CommitTrace(id, pause + lease)
    ensures !Took(pause + lease, ResumeTask(id)) && !Took(pause + lease, PauseTask(id))
  {
    assert (pause + lease)[1..] == lease;
  }

  lemma PausedTrace(id: string, pause: seq<Entry>, lease: seq<Entry>, resume: Entry, r: Result<bool, Code>)
    requires PauseTrace(id, pause, r) && LeaseTrace(lease) && r == Ok(true) && Took(pause, PauseTask(id))
    requires resume.call == ResumeTask(id)
    ensures var b := pause + lease + [resume];
      && CommitTrace(id, b) && Took(b, PauseTask(id)) && (Took(b, ResumeTask(id)) <==> resume.applied)
  {
    var b := pause + lease + [resume];
    assert b[2..|b| - 1] == lease;
    var i :| 0 <= i < |pause| && pause[i].call == PauseTask(id) && pause[i].applied;
    assert b[i] == pause[i];
    assert b[|b| - 1] == resume;
    assert forall k | 0 <= k < |b| - 1 :: b[k].call != ResumeTask(id);
  }

  lemma ExplainedWider(lib: Lib, big: World, small: World, c: Container, rank: string -> nat, error: Error,
                       a: seq<Entry>, b: seq<Entry>, d: seq<Entry>, e: seq<Entry>)
    requires Acyclic(lib, big.content, c.architecture, c.os, rank) && Acyclic(lib, small.content, c.architecture, c.os,
                                                                              rank)
    requires small.images == big.images
    requires forall k | k in small.content :: k in big.content && small.content[k] == big.content[k]
    requires a <= b <= d <= e && Explained(lib, small, c, rank, error, Since(b, d))
    ensures Explained(lib, big, c, rank, error, Since(a, e))
  {
    hide Acyclic, ParentConfig;
    if error.RpcFailed? {
      var i :| 0 <= i < |Since(b, d)| && Since(b, d)[i].reply == Err(error.code);
      assert Since(a, e)[|b| - |a| + i] == Since(b, d)[i];
    } else {
      ParentConfigShrinks(lib, big, small, c, rank, Err(error));
    }
  }

  /** What every commit does to the task and to leases, and what it leaves of the task: whatever calls
      fail, the container's task is as before unless it was paused and not resumed. */
  ghost predicate Restored(id: string, before: World, after: World, b: seq<Entry>) {
    && CommitTrace(id, b)
    && (b[0].reply.Ok? ==> id in before.tasks && b[0].reply.value == Task(before.tasks[id]))
    && after.tasks
       == (if Took(b, PauseTask(id)) && !Took(b, ResumeTask(id)) then before.tasks[id := Paused] else before.tasks)
    && (Took(b, PauseTask(id)) ==> id in before.tasks && before.tasks[id] == Running)
  }

  /** What is known after `pause`. */
  ghost predicate PauseDone(id: string, before: World, after: World, pause: seq<Entry>, r: Result<bool, Code>) {
    PauseTrace(id, pause, r) && PauseEffect(id, before.tasks, after.tasks, pause, r)
  }

  lemma RestoredAfterFailedPause(id: string, before: World, after: World, pause: seq<Entry>, code: Code)
    requires PauseDone(id, before, after, pause, Err(code))
    ensures Restored(id, before, after, pause) && SomeCallFailed(pause, code)
  {
    assert pause[|pause| - 1].reply == Err(code);
  }

  lemma RestoredIdle(id: string, before: World, mid: World, after: World, pause: seq<Entry>, lease: seq<Entry>)
    requires PauseDone(id, before, mid, pause, Ok(false)) && LeaseTrace(lease) && after.tasks == mid.tasks
    ensures Restored(id, before, after, pause + lease)
  {
    IdleTrace(id, pause, lease, Ok(false));
    assert (pause + lease)[0] == pause[0];
    NotPaused(id, pause, Ok(false));
  }

  lemma RestoredPaused(id: string, before: World, mid: World, after: World, pause: seq<Entry>, lease: seq<Entry>,
                       resume: Entry)
    requires PauseDone(id, before, mid, pause, Ok(true)) && LeaseTrace(lease) && resume.call == ResumeTask(id)
    requires after.tasks == if resume.applied then mid.tasks[id := Running] else mid.tasks
    ensures Restored(id, before, after, pause + lease + [resume])
  {
    PausedTrace(id, pause, lease, resume, Ok(true));
    assert (pause + lease + [resume])[0] == pause[0];
    assert before.tasks[id := Paused][id := Running] == before.tasks;
  }

  // ---------------------------------------------------------------- leases across a whole commit

  predicate LeaseCall(call: Call) {
    call.CreateLease? || call.DeleteLease?
  }

  predicate NoLeaseCalls(b: seq<Entry>) {
    forall i | 0 <= i < |b| :: !LeaseCall(b[i].call)
  }

  /** Calls for the task around a stretch do not matter for leases. */
  lemma LeasesAround(w0: World, w1: World, w2: World, w3: World, pre: seq<Entry>, b: seq<Entry>, post: seq<Entry>)
    requires NoLeaseCalls(pre) && NoLeaseCalls(post) && LeasesLeft(w1, w2, b)
    requires w1.leases == w0.leases && w1.leaseCount == w0.leaseCount && w3.leases == w2.leases
    ensures LeasesLeft(w0, w3, pre + b + post)
  {
    var all, n := pre + b + post, |pre|;
    forall call | LeaseCall(call)
      ensures Took(all, call) <==> Took(b, call)
    {
      if i :| 0 <= i < |b| && b[i].call == call && b[i].applied {
        assert all[n + i] == b[i];
      }
      if i :| 0 <= i < |all| && all[i].call == call && all[i].applied {
        LeaseCallsInside(pre, b, post, i);
      }
    }
    forall i | 0 <= i < |all| && all[i].call == CreateLease && all[i].reply.Ok?
      ensures all[i].applied && all[i].reply.value == Leased(w0.leaseCount)
    {
      LeaseCallsInside(pre, b, post, i);
    }
  }

  lemma LeaseCallsInside(pre: seq<Entry>, b: seq<Entry>, post: seq<Entry>, i: nat)
    requires NoLeaseCalls(pre) && NoLeaseCalls(post)
    requires i < |pre + b + post| && LeaseCall((pre + b + post)[i].call)
    ensures |pre| <= i < |pre| + |b| && (pre + b + post)[i] == b[i - |pre|]
  {
  }

  lemma LeasesUntouched(w: World, v: World, b: seq<Entry>)
    requires NoLeaseCalls(b) && v.leases == w.leases && w.leaseCount !in w.leases
    ensures LeasesLeft(w, v, b)
  {
  }

  lemma PauseHasNoLeaseCalls(id: string, b: seq<Entry>, r: Result<bool, Code>)
    requires PauseTrace(id, b, r)
    ensures NoLeaseCalls(b)
  {
  }

  /** The next lease id is free. */
  lemma NextLeaseIsFree(lib: Lib, p: Past)
    requires Valid(lib, p)
    ensures p.world.leaseCount !in p.world.leases
  {
    SoundNow(lib, p);
  }

  // ---------------------------------------------------------------- the commit itself

  /** `Container.commit`. */
  method CommitContainer(server: Server, c: Container, name: string, created: string, ghost contentRank: string -> nat,
                         ghost rank: string -> nat)
      returns (r: Result<(), Error>, ghost made: Made)
    requires Valid(server.lib, server.State())
    requires Acyclic(server.lib, server.world.content, c.architecture, c.os, contentRank)
    requires Founded(server.world.snapshots, rank)
    modifies server
    ensures Valid(server.lib, server.State())
    ensures old(server.log) <= server.log
    ensures Restored(c.id, old(server.world), server.world, Brackets(Since(old(server.log), server.log)))
    ensures LeasesLeft(old(server.world), server.world, Brackets(Since(old(server.log), server.log)))
    ensures Leftover(old(server.world.snapshots), server.world.snapshots,
                     LineageKeys(old(server.world.snapshots), rank, c.snapshot.key))
    ensures Promised(server.lib, old(server.State()), server.State(), c, name, created, contentRank, rank, r, made)
    ensures Calm(server.schedule) ==>
      (r.Ok? <==> Unhindered(server.lib, old(server.world), c, created, contentRank, rank))
    ensures Controllable(old(server.world.tasks), c.id)
      ==> Poised(server.lib, server.schedule, old(server.world), c, created, contentRank, rank) ==> r.Ok?
  {
    hide Valid, Called, Aside, Acyclic, Founded, Brackets, LeaseTrace, LeasesLeft, PauseTrace, PauseEffect,
      CommitTrace, Restored, Leftover, Lineage, LineageKeys, Promised, SomeCallFailed, Ready, Calm, Quiet, Poised,
      Outlasts, Controllable, NoLeaseCalls;
    made := Made(0, Null, []);
    var lib := server.lib;
    ghost var p0 := server.State();
    NothingLeft(p0.world.snapshots, LineageKeys(p0.world.snapshots, rank, c.snapshot.key));
    NextLeaseIsFree(lib, p0);
    var paused := Pause(server, c.id);
    ghost var p1 := server.State();
    AsideFacts(p0, p1);
    ghost var pause := Since(p0.log, p1.log);
    PauseHasNoLeaseCalls(c.id, pause, paused);
    CalmPause(lib, server.schedule, p0.world, p1.world, c, created, contentRank, rank);
    PoisedIsQuiet(lib, server.schedule, p0.world, c, created, contentRank, rank);
    PoisedOutlasts(lib, server.schedule, p0.world, p1.world, c, created, contentRank, rank);
    PoisedMeans(lib, server.schedule, p0.world, c, created, contentRank, rank);
    if paused.Err? {
      RestoredAfterFailedPause(c.id, p0.world, p1.world, pause, paused.error);
      LeasesUntouched(p0.world, p1.world, pause);
      PauseFailed(lib, p0, p1, c, name, created, contentRank, rank, paused.error, made);
      r := Err(RpcFailed(paused.error));
      return;
    }
    AcyclicShrinks(lib, p0.world.content, p1.world.content, c.architecture, c.os, contentRank);
    r, made := CommitUnderLease(server, c, name, created, contentRank, rank);
    ghost var p2 := server.State();
    SinceTwice(p0.log, p1.log, p2.log);
    ghost var lease := Brackets(Since(p1.log, p2.log));
    AfterPause(lib, p0, p1, p2, c, name, created, contentRank, rank, r, made);
    LeasesAround(p0.world, p1.world, p2.world, p2.world, pause, lease, []);
    assert pause + lease + [] == pause + lease;
    if !paused.value {
      RestoredIdle(c.id, p0.world, p1.world, p2.world, pause, lease);
      return;
    }
    r := ResumeAtLast(server, c, name, created, r, contentRank, rank, p0, p1, pause, lease, made);
  }

  /** The `finally` of `commit`, when the task was paused. `p0` and `p1` are before and after the pause. */
  method ResumeAtLast(server: Server, c: Container, name: string, created: string, result: Result<(), Error>,
                      ghost contentRank: string -> nat, ghost rank: string -> nat, ghost p0: Past, ghost p1: Past,
                      ghost pause: seq<Entry>, ghost lease: seq<Entry>, ghost made: Made)
      returns (r: Result<(), Error>)
    requires Valid(server.lib, server.State())
    requires Acyclic(server.lib, p0.world.content, c.architecture, c.os, contentRank) && Founded(p0.world.snapshots,
                                                                                                 rank)
    requires p0.log <= server.log && Brackets(Since(p0.log, server.log)) == pause + lease
    requires PauseDone(c.id, p0.world, p1.world, pause, Ok(true)) && LeaseTrace(lease)
    requires LeasesLeft(p0.world, server.world, pause + lease) && server.world.tasks == p1.world.tasks
    requires Leftover(p0.world.snapshots, server.world.snapshots, LineageKeys(p0.world.snapshots, rank, c.snapshot.key))
    requires Promised(server.lib, p0, server.State(), c, name, created, contentRank, rank, result, made)
    modifies server
    ensures Valid(server.lib, server.State())
    ensures p0.log <= server.log
    ensures Restored(c.id, p0.world, server.world, Brackets(Since(p0.log, server.log)))
    ensures LeasesLeft(p0.world, server.world, Brackets(Since(p0.log, server.log)))
    ensures Leftover(p0.world.snapshots, server.world.snapshots, LineageKeys(p0.world.snapshots, rank, c.snapshot.key))
    ensures Promised(server.lib, p0, server.State(), c, name, created, contentRank, rank, r, made)
    ensures result.Err? ==> r.Err?
    ensures Quiet(server.schedule) && result.Ok? ==> r.Ok?
  {
    hide Valid, Called, Aside, Acyclic, Founded, Brackets, LeaseTrace, LeasesLeft, PauseTrace, PauseEffect, PauseDone,
      Restored, Leftover, Lineage, LineageKeys, Promised, SomeCallFailed, Quiet, NoLeaseCalls;
    r := result;
    var lib := server.lib;
    ghost var p2 := server.State();
    PausedNow(c.id, p0.world, p1.world, pause);
    var resumed := Resume(server, c.id);
    ghost var p3 := server.State();
    ghost var resume := p3.log[|p2.log|];
    SinceTwice(p0.log, p2.log, p3.log);
    OneCall(p2.log, resume);
    RestoredPaused(c.id, p0.world, p1.world, p3.world, pause, lease, resume);
    AsideFacts(p2, p3);
    ResumeIsNoLeaseCall(resume);
    LeasesAround(p0.world, p0.world, p2.world, p3.world, [], pause + lease, [resume]);
    assert [] + (pause + lease) + [resume] == pause + lease + [resume];
    AfterResume(lib, server.schedule, p0, p2, c, name, created, contentRank, rank, r, made);
    PromisedOrder(lib, p0, p3, c, name, created, contentRank, rank, r, made);
    if resumed.Err? {
      PromisedInstead(lib, p0, p3, c, name, created, contentRank, rank, r, resumed.error, made);
      r := Err(RpcFailed(resumed.error));
    }
  }

  lemma ResumeIsNoLeaseCall(resume: Entry)
    requires resume.call.ResumeTask?
    ensures NoLeaseCalls([resume]) && NoLeaseCalls([])
  {
  }

  lemma PausedNow(id: string, before: World, after: World, pause: seq<Entry>)
    requires PauseDone(id, before, after, pause, Ok(true))
    ensures id in after.tasks && after.tasks[id] == Paused
  {
  }

  /** The states of a stretch aside, seen as the beginning of a commit. */
  lemma AsideIsUntried(lib: Lib, p0: Past, p1: Past)
    requires Valid(lib, p0) && Aside(p0, p1)
    ensures forall i | |p0.history| - 1 <= i < |p1.history| ::
      p0.world.leaseCount !in p1.history[i].leases && p1.history[i].images == p0.world.images
  {
    NextLeaseIsFree(lib, p0);
  }

  lemma PauseFailed(lib: Lib, p0: Past, p1: Past, c: Container, name: string, created: string,
                    contentRank: string -> nat, rank: string -> nat, code: Code, made: Made)
    requires Valid(lib, p0) && Valid(lib, p1) && Acyclic(lib, p0.world.content, c.architecture, c.os, contentRank)
    requires Aside(p0, p1) && p0.log <= p1.log && SomeCallFailed(Since(p0.log, p1.log), code)
    ensures Promised(lib, p0, p1, c, name, created, contentRank, rank, Err(RpcFailed(code)), made)
  {
    hide Valid, Acyclic, Safe, SomeCallFailed, Since;
    AsideFacts(p0, p1);
    AsideIsUntried(lib, p0, p1);
    ValidIsSome(lib, p0);
    ValidIsSome(lib, p1);
    var h := Span(p0.history, p1.history);
    assert h[0] == p0.history[|p0.history| - 1];
    SafeStart(lib, h, p0.world.leaseCount, name, DocsOf(lib, c, created, made), LayerNames(made.diffs));
  }

  /** From the past after the pause to the one before it. */
  lemma AfterPause(lib: Lib, p0: Past, p1: Past, p2: Past, c: Container, name: string, created: string,
                   contentRank: string -> nat, rank: string -> nat, r: Result<(), Error>, made: Made)
    requires Valid(lib, p0) && Valid(lib, p1) && Aside(p0, p1)
    requires Acyclic(lib, p0.world.content, c.architecture, c.os, contentRank)
    requires Acyclic(lib, p1.world.content, c.architecture, c.os, contentRank)
    requires Promised(lib, p1, p2, c, name, created, contentRank, rank, r, made)
    ensures Promised(lib, p0, p2, c, name, created, contentRank, rank, r, made)
  {
    hide Valid, Aside, Acyclic, Safe, Achieved, Explained;
    AsideFacts(p0, p1);
    SafeFromPause(lib, p0, p1, p2, name, DocsOf(lib, c, created, made), LayerNames(made.diffs));
    if Achieved(lib, p1, p2, c, name, created, contentRank, rank, made) {
      AchievedFromPause(lib, p0, p1, p2, c, name, created, contentRank, rank, made);
    }
    if r.Err? {
      ExplainedWider(lib, p0.world, p1.world, c, contentRank, r.error, p0.log, p1.log, p2.log, p2.log);
      if p2.world.images != p1.world.images {
        HitchWider(p0.log, p1.log, p2.log, p2.log);
      }
    }
  }

  lemma SafeFromPause(lib: Lib, p0: Past, p1: Past, p2: Past, name: string, docs: Documents, layers: seq<string>)
    requires Valid(lib, p0) && Valid(lib, p1) && Aside(p0, p1)
    requires |p0.history| > 0 && |p1.history| > 0 && p0.history <= p1.history <= p2.history
    requires Safe(lib, Span(p1.history, p2.history), p1.world.leaseCount, name, docs, layers)
    ensures Safe(lib, Span(p0.history, p2.history), p0.world.leaseCount, name, docs, layers)
  {
    hide Valid, Safe, Aside;
    AsideIsUntried(lib, p0, p1);
    AsideFacts(p0, p1);
    ValidIsSome(lib, p1);
    var pre := p1.history[|p0.history| - 1..|p1.history| - 1];
    var h := Span(p1.history, p2.history);
    assert h[0] == p1.history[|p1.history| - 1] == p1.world;
    forall i | 0 <= i < |pre|
      ensures p0.world.leaseCount !in pre[i].leases && pre[i].images == h[0].images
    {
      assert pre[i] == p1.history[|p0.history| - 1 + i];
    }
    SafeAfter(lib, pre, h, p0.world.leaseCount, name, docs, layers);
    assert p1.history == p2.history[..|p1.history|];
    assert Span(p0.history, p2.history) == pre + h;
  }

  lemma AchievedFromPause(lib: Lib, p0: Past, p1: Past, p2: Past, c: Container, name: string, created: string,
                          contentRank: string -> nat, rank: string -> nat, made: Made)
    requires Valid(lib, p0) && Aside(p0, p1) && |p1.history| > 0 && p0.history <= p1.history <= p2.history
    requires Acyclic(lib, p0.world.content, c.architecture, c.os, contentRank)
    requires Acyclic(lib, p1.world.content, c.architecture, c.os, contentRank)
    requires Achieved(lib, p1, p2, c, name, created, contentRank, rank, made)
    ensures |p0.history| > 0 && Achieved(lib, p0, p2, c, name, created, contentRank, rank, made)
  {
    hide Valid, Aside, Acyclic, Committed, PartsOf, NeverLost, Guarded, FromParent;
    AsideFacts(p0, p1);
    NextLeaseIsFree(lib, p0);
    FromParentWider(lib, p0.world, p1.world, c, contentRank, made.config);
    CommittedSelf(lib, p1.world, p2.world, c, name, created, rank, made);
    CommittedWider(lib, p0.world, p1.world, p2.world, p2.world, c, name, created, rank, made);
    SpanWider(p0, p1, p2, p2, made.lease, PartsOf(lib, c, created, made));
  }

  /** Resuming the task changes nothing about the rest. */
  lemma AfterResume(lib: Lib, schedule: nat -> Move, p0: Past, p2: Past, c: Container, name: string, created: string,
                    contentRank: string -> nat, rank: string -> nat, r: Result<(), Error>, made: Made)
    requires Valid(lib, p2) && Acyclic(lib, p0.world.content, c.architecture, c.os, contentRank)
    requires Promised(lib, p0, p2, c, name, created, contentRank, rank, r, made)
    ensures Promised(lib, p0, Called(lib, schedule, p2, ResumeTask(c.id)), c, name, created, contentRank, rank, r, made)
  {
    hide Valid, Acyclic, Safe, Achieved, Explained, Called;
    var p3 := Called(lib, schedule, p2, ResumeTask(c.id));
    ControlReplies(lib, schedule, p2, ResumeTask(c.id));
    AsideFacts(p2, p3);
    SafeCall(lib, schedule, p0, p2, ResumeTask(c.id), p0.world.leaseCount, name, DocsOf(lib, c, created, made),
             LayerNames(made.diffs));
    if Achieved(lib, p0, p2, c, name, created, contentRank, rank, made) {
      AchievedAndResumed(lib, schedule, p0, p2, c, name, created, contentRank, rank, made);
    }
    if r.Err? {
      ExplainedWider(lib, p0.world, p0.world, c, contentRank, r.error, p0.log, p0.log, p2.log, p3.log);
      if p2.world.images != p0.world.images {
        HitchWider(p0.log, p0.log, p2.log, p3.log);
      }
    }
  }

  lemma AchievedAndResumed(lib: Lib, schedule: nat -> Move, p0: Past, p2: Past, c: Container, name: string,
                           created: string, contentRank: string -> nat, rank: string -> nat, made: Made)
    requires Acyclic(lib, p0.world.content, c.architecture, c.os, contentRank)
    requires |p0.history| > 0 && p0.history <= p2.history
    requires Achieved(lib, p0, p2, c, name, created, contentRank, rank, made)
    ensures var p3 := Called(lib, schedule, p2, ResumeTask(c.id));
      p0.history <= p3.history && Achieved(lib, p0, p3, c, name, created, contentRank, rank, made)
  {
    hide Acyclic, Committed, PartsOf, NeverLost, Guarded, FromParent;
    var p3 := Called(lib, schedule, p2, ResumeTask(c.id));
    RecordedOf(lib, p0.world, p2.world, c, name, created, rank, made);
    PuttingBack(lib, schedule, p2, ResumeTask(c.id), c, name, created, made);
    CommittedWider(lib, p0.world, p0.world, p2.world, p3.world, c, name, created, rank, made);
    GuardedContent(p2, p3, PartsOf(lib, c, created, made));
    SpanAfter(p0, p2, p3, made.lease, PartsOf(lib, c, created, made));
  }

  lemma SpanAfter(p0: Past, p2: Past, p3: Past, lease: LeaseId, parts: set<string>)
    requires |p0.history| > 0 && p0.history <= p2.history <= p3.history
    requires NeverLost(Span(p0.history, p2.history), lease, parts)
    requires forall i, d | |p2.history| <= i < |p3.history| && d in parts :: d in p3.history[i].content
    ensures NeverLost(Span(p0.history, p3.history), lease, parts)
  {
    var h, post := Span(p0.history, p2.history), p3.history[|p2.history|..];
    assert Span(p0.history, p3.history) == [] + h + post;
    NeverLostWider([], h, post, lease, parts);
  }

  lemma AsideFacts(a: Past, b: Past)
    requires Aside(a, b)
    ensures a.log <= b.log && |a.history| > 0 && a.history <= b.history
    ensures b.world == a.world.(tasks := b.world.tasks, content := b.world.content)
    ensures forall d | d in b.world.content :: d in a.world.content && b.world.content[d] == a.world.content[d]
  {
  }

  lemma FromParentWider(lib: Lib, big: World, small: World, c: Container, rank: string -> nat, config: Json)
    requires Acyclic(lib, big.content, c.architecture, c.os, rank) && Acyclic(lib, small.content, c.architecture, c.os,
                                                                              rank)
    requires small.images == big.images
    requires forall d | d in small.content :: d in big.content && small.content[d] == big.content[d]
    requires FromParent(lib, small, c, rank, Ok(config))
    ensures FromParent(lib, big, c, rank, Ok(config))
  {
    hide ReadImage, Acyclic;
    ParentConfigShrinks(lib, big, small, c, rank, Ok(config));
  }

  lemma RecordedOf(lib: Lib, w: World, v: World, c: Container, name: string, created: string, rank: string -> nat,
                   made: Made)
    requires Committed(lib, w, v, c, name, created, rank, made)
    ensures Recorded(lib, v, name, DocsOf(lib, c, created, made), LayerNames(made.diffs))
  {
    hide CommitDocuments;
  }

  lemma CommittedSelf(lib: Lib, w: World, v: World, c: Container, name: string, created: string, rank: string -> nat,
                      made: Made)
    requires Committed(lib, w, v, c, name, created, rank, made)
    ensures Guarded(v, v, PartsOf(lib, c, created, made))
  {
    hide CommitDocuments;
    forall d | d in PartsOf(lib, c, created, made)
      ensures d in v.content
    {
      RecordedParts(lib, v, name, DocsOf(lib, c, created, made), LayerNames(made.diffs), d);
    }
  }

  lemma NotPaused(id: string, pause: seq<Entry>, r: Result<bool, Code>)
    requires PauseTrace(id, pause, r) && r == Ok(false)
    ensures !Took(pause, PauseTask(id))
  {
  }

  lemma GuardedContent(p: Past, q: Past, parts: set<string>)
    requires |q.history| == |p.history| + 2 && q.history[|p.history| + 1] == q.world
    requires Guarded(p.world, q.world, parts) && Guarded(p.world, q.history[|p.history|], parts)
    ensures forall i, d | |p.history| <= i < |q.history| && d in parts :: d in q.history[i].content
  {
  }

  // ---------------------------------------------------------------- consequences

  /** A task that was running ends running except in two cases: its pause took effect but the answer was
      lost, or it was paused and the resume did not take effect. */
  lemma RunningAgainUnless(id: string, before: World, after: World, b: seq<Entry>)
    requires Restored(id, before, after, b) && id in before.tasks && before.tasks[id] == Running
    ensures id in after.tasks
    ensures after.tasks[id] == Running <==>
      !(|b| > 1 && b[1].call == PauseTask(id) && b[1].applied && (b[1].reply.Err? || !b[|b| - 1].applied))
  {
    TraceCalls(id, b);
    if Took(b, PauseTask(id)) {
      var i :| 0 <= i < |b| && b[i].call == PauseTask(id) && b[i].applied;
      assert i == 1;
    }
    if |b| > 1 && b[1].applied && b[1].call == PauseTask(id) {
      assert Took(b, PauseTask(id));
    }
  }

  /** The one call that creates the lease of a commit, if it comes to that, and the one after it. */
  lemma LeaseCalls(id: string, b: seq<Entry>, i: nat)
    requires CommitTrace(id, b) && i < |b| && b[i].call == CreateLease
    ensures b[i].reply.Ok? && b[i].reply.value.Leased? ==>
      i + 1 < |b| && b[i + 1].call == DeleteLease(b[i].reply.value.lease)
    ensures b[i].reply.Err? ==> forall j | 0 <= j < |b| :: !b[j].call.DeleteLease?
    ensures forall j | 0 <= j < |b| && LeaseCall(b[j].call) :: j == i || (j == i + 1 && b[j].call.DeleteLease?)
  {
    var idle := b[0].reply.Ok? && b[0].reply.value.Task? && Idle(b[0].reply.value.status);
    var first := if idle then 1 else 2;
    var lease := if idle then b[1..] else b[2..|b| - 1];
    assert lease[0] == b[first] && (|lease| == 2 ==> lease[1] == b[first + 1]);
    assert i == first;
  }

  /** A commit leaves the leases as they were except in two cases: its lease was created but the answer was
      lost, so that nobody knows to delete it, or the deletion of its lease did not take effect. */
  lemma LeaseIsGivenBackUnless(id: string, before: World, after: World, b: seq<Entry>)
    requires CommitTrace(id, b) && LeasesLeft(before, after, b)
    ensures after.leases == before.leases <==>
      !exists i | 0 <= i < |b| && b[i].call == CreateLease ::
        b[i].applied && (b[i].reply.Err? || (i + 1 < |b| && !b[i + 1].applied))
  {
    var l := before.leaseCount;
    if Took(b, CreateLease) {
      var i :| 0 <= i < |b| && b[i].call == CreateLease && b[i].applied;
      LeaseCalls(id, b, i);
      if Took(b, DeleteLease(l)) {
        var j :| 0 <= j < |b| && b[j].call == DeleteLease(l) && b[j].applied;
        assert LeaseCall(b[j].call) && j == i + 1;
        forall k | 0 <= k < |b| && b[k].call == CreateLease
          ensures k == i
        {
          assert LeaseCall(b[k].call);
        }
      } else if b[i].reply.Ok? {
        assert b[i + 1].call == DeleteLease(l);
      }
    }
  }

  /** Between asking for the status, pausing and resuming there are only lease calls. */
  lemma TraceCalls(id: string, b: seq<Entry>)
    requires CommitTrace(id, b)
    ensures |b| > 1 && b[1].call == PauseTask(id) ==> forall i | 2 <= i < |b| - 1 :: LeaseCall(b[i].call)
    ensures |b| > 1 && b[1].call != PauseTask(id) ==> forall i | 1 <= i < |b| :: LeaseCall(b[i].call)
    ensures |b| > 2 && b[1].call == PauseTask(id) ==> b[1].reply.Ok? && b[|b| - 1].call == ResumeTask(id)
  {
    if |b| > 1 && b[1].call == PauseTask(id) {
      forall i | 2 <= i < |b| - 1
        ensures LeaseCall(b[i].call)
      {
        assert b[2..|b| - 1][i - 2] == b[i];
      }
    } else {
      forall i | 1 <= i < |b|
        ensures LeaseCall(b[i].call)
      {
        assert b[1..][i - 1] == b[i];
      }
    }
  }

  /** A task found created, paused or stopped is neither paused nor resumed, and keeps its state. One found in any
      other state is paused next, and resumed last once it was. */
  lemma IdleIsLeftAlone(id: string, before: World, after: World, b: seq<Entry>)
    requires Restored(id, before, after, b) && id in before.tasks
    ensures before.tasks[id] in {Created, Paused, Stopped} ==>
      after.tasks == before.tasks && forall i | 0 <= i < |b| :: !b[i].call.PauseTask? && !b[i].call.ResumeTask?
    ensures before.tasks[id] !in {Created, Paused, Stopped} && b[0].reply.Ok? ==>
      |b| > 1 && b[1].call == PauseTask(id) && (b[1].reply.Ok? ==> b[|b| - 1].call == ResumeTask(id))
  {
    TraceCalls(id, b);
  }

  /** No layer's digest is that of other bytes in play. */
  ghost predicate NoClash(lib: Lib, stored: Content, layers: set<Bytes>) {
    && (forall x, y | x in layers && y in layers && lib.Digest(x) == lib.Digest(y) :: x == y)
    && (forall x, d | x in layers && d in stored && lib.Digest(x) == lib.Digest(stored[d].data) :: x == stored[d].data)
  }

  /** The stored bytes of the layers `names`. */
  ghost function LayerBytes(content: Content, names: seq<string>): seq<Bytes>
    requires forall i | 0 <= i < |names| :: names[i] in content
  {
    seq(|names|, i requires 0 <= i < |names| => content[names[i]].data)
  }

  lemma StoredLayerIs(lib: Lib, before: Content, after: World, snapshots: Catalogue, keys: seq<string>,
                      names: seq<string>, i: nat)
    requires Sound(lib, after) && NoClash(lib, before, LayerSet(lib, snapshots, keys))
    requires LayersStored(before, after.content, names, LayerSet(lib, snapshots, keys))
    requires |names| == |keys| && i < |keys| && keys[i] in snapshots && names[i] == lib.Digest(LayerOf(lib, snapshots,
                                                                                                       keys[i]))
    ensures after.content[names[i]].data == LayerOf(lib, snapshots, keys[i])
  {
    assert keys[i] in keys;
    assert LayerOf(lib, snapshots, keys[i]) in LayerSet(lib, snapshots, keys);
    assert lib.Digest(after.content[names[i]].data) == names[i];
  }

  /** Replaying the committed image's layers in manifest order, from nothing, gives exactly the
      container's file system. */
  lemma CommitReplays(lib: Lib, before: World, after: World, c: Container, name: string, created: string,
                      rank: string -> nat, made: Made)
    requires lib.Valid() && Sound(lib, after)
    requires Committed(lib, before, after, c, name, created, rank, made)
    requires NoClash(lib, before.content,
                     LayerSet(lib, before.snapshots, Lineage(before.snapshots, rank, c.snapshot.key)))
    ensures c.snapshot.key in before.snapshots
    ensures forall i | 0 <= i < |made.diffs| :: LayerNames(made.diffs)[i] in after.content
    ensures Replay(lib, LayerBytes(after.content, LayerNames(made.diffs))) == before.snapshots[c.snapshot.key].files
  {
    hide CommitDocuments, LayerSet, Recorded, NoClash;
    var keys := Lineage(before.snapshots, rank, c.snapshot.key);
    var names := LayerNames(made.diffs);
    var datas := LayerBytes(after.content, names);
    forall i | 0 <= i < |keys|
      ensures datas[i] == LayerOf(lib, before.snapshots, keys[i])
    {
      assert made.diffs[i] == DiffOf(lib, before.snapshots, keys[i]);
      StoredLayerIs(lib, before.content, after, before.snapshots, keys, names, i);
    }
    ChainReplays(lib, before.snapshots, keys, datas);
  }
}
