/** `ImageProgess`, and the hand-over between the generator that reports a layer's progress
    (`Image._push_layer`) and the task that uploads it (`Image._push_layer_monolithic`). */
module Handoff {
  import opened Wrappers
  import opened Python
  import opened Rechunker

  /** The fields of an `ImageProgess`; `signalled` is whether its event is set. */
  datatype Progress = Progress(total: int, current: nat, stopped: bool, signalled: bool)

  /** Where the generator returned by `ImageProgess.__aiter__` is suspended. */
  datatype Position = Fresh | Yielded | Waiting | Exhausted

  function Stepped(p: Progress, amount: nat): Progress {
    p.(current := p.current + amount, signalled := p.signalled || amount != 0)
  }

  function Stopped(p: Progress): Progress {
    if p.stopped then p else p.(stopped := true, signalled := true)
  }

  function LoopTop(p: Progress): (Progress, Position, Option<nat>) {
    if p.stopped then (p, Exhausted, None) else (p, Yielded, Some(p.current))
  }

  /** One resumption of the iteration, up to its next suspension: the new fields, where it is
      suspended now, and the value it yielded, if any. */
  function Resumed(p: Progress, at: Position): (Progress, Position, Option<nat>) {
    match at
    case Fresh => LoopTop(p)
    case Yielded =>
      if p.current >= p.total then (p, Exhausted, None)
      else if p.signalled then LoopTop(p.(signalled := false))
      else (p, Waiting, None)
    case Waiting =>
      if p.signalled then LoopTop(p.(signalled := false)) else (p, Waiting, None)
    case Exhausted => (p, Exhausted, None)
  }

  /** When the iteration leaves its loop, when it waits, and what it reports: after a value it leaves if the total is
      reached; without a signal it waits; woken, it takes the signal away and leaves if it was stopped, and otherwise
      reports the counter, whatever that is by then. */
  lemma ResumedIs(p: Progress, at: Position)
    ensures var (q, next, value) := Resumed(p, at);
      && q == p.(signalled := q.signalled)
      && (value.Some? ==> value.value == p.current && next == Yielded)
      && (at == Fresh || at == Yielded ==> (value.Some? <==> next == Yielded))
    ensures var (q, next, value) := Resumed(p, at);
      var woken := p.signalled && (at == Waiting || (at == Yielded && p.current < p.total));
      && q.signalled == (p.signalled && !woken)
      && (at != Exhausted && next == Exhausted <==>
          (at == Yielded && p.current >= p.total) || (p.stopped && (woken || at == Fresh)))
      && (next == Waiting <==> !p.signalled && (at == Waiting || (at == Yielded && p.current < p.total)))
      && (value.Some? <==> !p.stopped && (woken || at == Fresh))
  {
  }

  /** The event is set by what is worth reporting: bytes, or the first stop. Stopping again changes nothing. */
  lemma SignalIs(p: Progress, amount: nat)
    ensures var q := Stepped(p, amount);
      && q.current == p.current + amount && q.total == p.total && q.stopped == p.stopped
      && (q.signalled <==> p.signalled || amount > 0)
    ensures var q := Stopped(p);
      && q.stopped && q.current == p.current && q.total == p.total
      && (q.signalled <==> p.signalled || !p.stopped)
      && Stopped(q) == q
  {
  }

  class ImageProgess {
    const total: int
    var current: nat
    var stopped: bool
    var signalled: bool

    ghost function State(): Progress
      reads this
    {
      Progress(total, current, stopped, signalled)
    }

    constructor (total: int)
      ensures State() == Progress(total, 0, false, false)
    {
      this.total := total;
      current := 0;
      stopped := false;
      signalled := false;
    }

    method Step(progress: nat)
      modifies this
      ensures State() == Stepped(old(State()), progress)
    {
      current := current + progress;
      if progress != 0 {
        signalled := true;
      }
    }

    method Stop()
      modifies this
      ensures State() == Stopped(old(State()))
    {
      if stopped {
        return;
      }
      stopped := true;
      signalled := true;
    }

    /** Runs `__aiter__` from where it is suspended to where it suspends next. */
    method Resume(at: Position) returns (next: Position, value: Option<nat>)
      modifies this
      ensures (State(), next, value) == Resumed(old(State()), at)
    {
      if at == Exhausted {
        return Exhausted, None;
      }
      if at == Yielded && current >= total {
        return Exhausted, None;
      }
      if at == Yielded || at == Waiting {
        if !signalled {
          return Waiting, None;
        }
        signalled := false;
      }
      if stopped {
        return Exhausted, None;
      }
      return Yielded, Some(current);
    }
  }

  // ---------------------------------------------------------------- the two tasks

  /** The upload task: created but not run yet, part way through its chunk source, or over. */
  datatype Uploader = Scheduled(all: seq<Event>) | Running(rest: seq<Event>) | Ended(ok: bool)

  /** The `_push_layer` generator: in its `async for`, awaiting the task, after "Pushed",
      ended by the task's exception, or closed by its own consumer. */
  datatype Consumer = Iterating(at: Position) | Draining | Done | Raised | Abandoned

  datatype Push = Push(
    progress: Progress,
    uploader: Uploader,
    consumer: Consumer,
    pushing: seq<nat>,   // the values of the "Pushing" messages
    pushed: bool,        // whether "Pushed" was emitted
    done: seq<Event>,    // what the chunk source has done
    cancelled: bool,     // whether the task was asked to stop
    accepts: Bytes -> bool)   // the bodies the registry answers well

  /** One scheduler decision. The upload may end at any of its suspension points: by the registry's answer to
      the body it was handed, or by breaking off. */
  datatype Move = Upload | EndUpload(answered: bool) | Consume | Abandon

  function NextUpload(s: Push): Push {
    match s.uploader
    case Scheduled(all) => s.(uploader := Running(all))
    case Running(rest) =>
      if |rest| == 0 then s
      else s.(
        uploader := Running(rest[1..]),
        done := s.done + [rest[0]],
        progress := if rest[0].Step? then Stepped(s.progress, rest[0].amount) else s.progress)
    case Ended(_) => s
  }

  function NextEnd(s: Push, answered: bool): Push {
    match s.uploader
    // a task cancelled before its first step never reaches its `finally`
    case Scheduled(_) => if s.cancelled then s.(uploader := Ended(false)) else s
    case Running(_) =>
      s.(uploader := Ended(answered && s.accepts(Handed(s.done))), progress := Stopped(s.progress))
    case Ended(_) => s
  }

  function NextConsume(s: Push): Push {
    match s.consumer
    case Iterating(at) =>
      var (progress, next, value) := Resumed(s.progress, at);
      s.(progress := progress,
         consumer := if next == Exhausted then Draining else Iterating(next),
         pushing := s.pushing + if value.Some? then [value.value] else [])
    case Draining =>
      if !s.uploader.Ended? then s
      else if s.uploader.ok then s.(consumer := Done, pushed := true)
      else s.(consumer := Raised)
    case _ => s
  }

  function NextAbandon(s: Push): Push {
    if s.consumer.Iterating? || s.consumer.Draining?
    then s.(consumer := Abandoned, cancelled := !s.uploader.Ended?)
    else s
  }

  function Next(s: Push, move: Move): Push {
    match move
    case Upload => NextUpload(s)
    case EndUpload(answered) => NextEnd(s, answered)
    case Consume => NextConsume(s)
    case Abandon => NextAbandon(s)
  }

  function Run(s: Push, moves: seq<Move>): Push
    decreases |moves|
  {
    if |moves| == 0 then s else Run(Next(s, moves[0]), moves[1..])
  }

  /** The task is created and, before anything else can run, the iteration takes its first step. */
  function Start(total: int, events: seq<Event>, accepts: Bytes -> bool): Push {
    NextConsume(
      Push(Progress(total, 0, false, false), Scheduled(events), Iterating(Fresh), [], false, [], false, accepts))
  }

  lemma {:induction false} RunThen(s: Push, moves: seq<Move>, more: seq<Move>)
    ensures Run(s, moves + more) == Run(Run(s, moves), more)
    decreases |moves|
  {
    if |moves| == 0 {
      assert moves + more == more;
    } else {
      assert (moves + more)[1..] == moves[1..] + more;
      RunThen(Next(s, moves[0]), moves[1..], more);
    }
  }

  /** A layer being pushed: the generator of `Image._push_layer` and its upload task, around one progress object. */
  class LayerPush {
    const progress: ImageProgess
    const accepts: Bytes -> bool
    var uploader: Uploader
    var consumer: Consumer
    var pushing: seq<nat>
    var pushed: bool
    var done: seq<Event>
    var cancelled: bool

    ghost function State(): Push
      reads this, progress
    {
      Push(progress.State(), uploader, consumer, pushing, pushed, done, cancelled, accepts)
    }

    constructor (total: int, events: seq<Event>, accepts: Bytes -> bool)
      ensures State() == Start(total, events, accepts) && fresh(progress)
    {
      progress := new ImageProgess(total);
      this.accepts := accepts;
      uploader := Scheduled(events);
      consumer := Iterating(Fresh);
      pushing := [];
      pushed := false;
      done := [];
      cancelled := false;
      new;
      Consume();
    }

    /** The upload task, up to its next suspension. */
    method Upload()
      modifies this, progress
      ensures State() == NextUpload(old(State()))
    {
      match uploader {
        case Scheduled(all) => uploader := Running(all);
        case Running(rest) =>
          if |rest| > 0 {
            if rest[0].Step? {
              progress.Step(rest[0].amount);
            }
            done := done + [rest[0]];
            uploader := Running(rest[1..]);
          }
        case Ended(_) =>
      }
    }

    /** The end of the upload task, its `finally` included. */
    method EndUpload(answered: bool)
      modifies this, progress
      ensures State() == NextEnd(old(State()), answered)
    {
      match uploader {
        case Scheduled(_) =>
          if cancelled {
            uploader := Ended(false);
          }
        case Running(_) =>
          uploader := Ended(answered && accepts(Handed(done)));
          progress.Stop();
        case Ended(_) =>
      }
    }

    /** The generator, up to its next suspension. */
    method Consume()
      modifies this, progress
      ensures State() == NextConsume(old(State()))
    {
      match consumer {
        case Iterating(at) =>
          var next, value := progress.Resume(at);
          consumer := if next == Exhausted then Draining else Iterating(next);
          pushing := pushing + if value.Some? then [value.value] else [];
        case Draining =>
          if uploader.Ended? {
            if uploader.ok {
              pushed := true;
            }
            consumer := if uploader.ok then Done else Raised;
          }
        case _ =>
      }
    }

    /** The generator is closed. */
    method Abandon()
      modifies this
      ensures State() == NextAbandon(old(State()))
    {
      if consumer.Iterating? || consumer.Draining? {
        consumer := Abandoned;
        cancelled := !uploader.Ended?;
      }
    }

    /** A whole interleaving. */
    method Play(moves: seq<Move>)
      modifies this, progress
      ensures State() == Run(old(State()), moves)
    {
      for i := 0 to |moves|
        invariant State() == Run(old(State()), moves[..i])
      {
        ghost var before := State();
        match moves[i] {
          case Upload => Upload();
          case EndUpload(answered) => EndUpload(answered);
          case Consume => Consume();
          case Abandon => Abandon();
        }
        assert moves[..i + 1] == moves[..i] + [moves[i]];
        RunThen(old(State()), moves[..i], [moves[i]]);
        RunOne(before, moves[i]);
      }
      assert moves[..|moves|] == moves;
    }
  }

  lemma RunOne(s: Push, move: Move)
    ensures Run(s, [move]) == Next(s, move)
  {
    assert [move][1..] == [];
  }

  // ---------------------------------------------------------------- what every interleaving keeps

  ghost predicate Ascending(values: seq<nat>) {
    && |values| > 0
    && values[0] == 0
    && forall i, j :: 0 <= i < j < |values| ==> values[i] < values[j]
  }

  ghost predicate UploadInv(s: Push, events: seq<Event>) {
    && s.done <= events
    && s.progress.current == Counter(s.done)
    && (match s.uploader
        case Scheduled(all) => s.done == [] && all == events && !s.progress.stopped
        case Running(rest) => s.done + rest == events && !s.progress.stopped
        case Ended(ok) => (s.progress.stopped || s.consumer == Abandoned) && (ok ==> s.accepts(Handed(s.done))))
  }

  ghost predicate ConsumerInv(s: Push) {
    && Ascending(s.pushing)
    && var last := s.pushing[|s.pushing| - 1];
    && last <= s.progress.current
    && (s.pushed <==> s.consumer == Done)
    && (s.cancelled ==> s.consumer == Abandoned)
    && (match s.consumer
        case Iterating(at) =>
          && (at == Yielded || at == Waiting)
          && if s.progress.signalled then s.progress.stopped || s.progress.current > last
             else !s.progress.stopped && s.progress.current == last
        case Draining => s.progress.stopped || s.progress.current >= s.progress.total
        case Done => s.uploader == Ended(true)
        case Raised => s.uploader == Ended(false)
        case Abandoned => s.cancelled || s.uploader.Ended?)
  }

  ghost predicate Inv(s: Push, total: int, events: seq<Event>, accepts: Bytes -> bool) {
    s.progress.total == total && s.accepts == accepts && UploadInv(s, events) && ConsumerInv(s)
  }

  lemma UploadKeepsInv(s: Push, total: int, events: seq<Event>, accepts: Bytes -> bool)
    requires Inv(s, total, events, accepts)
    ensures Inv(NextUpload(s), total, events, accepts)
  {
    if s.uploader.Running? && |s.uploader.rest| > 0 {
      var rest := s.uploader.rest;
      assert s.done + rest == (s.done + [rest[0]]) + rest[1..];
      EventsConcat(s.done, [rest[0]]);
      assert [rest[0]][1..] == [];
    }
  }

  lemma ConsumeKeepsInv(s: Push, total: int, events: seq<Event>, accepts: Bytes -> bool)
    requires Inv(s, total, events, accepts)
    ensures Inv(NextConsume(s), total, events, accepts)
  {
    hide Counter, Handed;
    match s.consumer
    case Iterating(at) => IterationKeepsInv(s, at, total, events, accepts);
    case _ =>
  }

  lemma IterationKeepsInv(s: Push, at: Position, total: int, events: seq<Event>, accepts: Bytes -> bool)
    requires Inv(s, total, events, accepts) && s.consumer == Iterating(at)
    ensures Inv(NextConsume(s), total, events, accepts)
  {
    hide Counter, Handed;
    var (progress, next, value) := Resumed(s.progress, at);
    var values := s.pushing + if value.Some? then [value.value] else [];
    assert value.Some? ==> value.value > s.pushing[|s.pushing| - 1];
    assert Ascending(values);
  }

  lemma NextKeepsInv(s: Push, move: Move, total: int, events: seq<Event>, accepts: Bytes -> bool)
    requires Inv(s, total, events, accepts)
    ensures Inv(Next(s, move), total, events, accepts)
  {
    match move
    case Upload => UploadKeepsInv(s, total, events, accepts);
    case EndUpload(_) =>
    case Consume => ConsumeKeepsInv(s, total, events, accepts);
    case Abandon =>
  }

  lemma {:induction false} RunKeepsInv(s: Push, moves: seq<Move>, total: int, events: seq<Event>,
                                       accepts: Bytes -> bool)
    requires Inv(s, total, events, accepts)
    ensures Inv(Run(s, moves), total, events, accepts)
    decreases |moves|
  {
    if |moves| > 0 {
      NextKeepsInv(s, moves[0], total, events, accepts);
      RunKeepsInv(Next(s, moves[0]), moves[1..], total, events, accepts);
    }
  }

  /** Every interleaving keeps the invariant. */
  lemma Reachable(total: int, events: seq<Event>, accepts: Bytes -> bool, moves: seq<Move>)
    ensures Inv(Run(Start(total, events, accepts), moves), total, events, accepts)
  {
    assert Inv(Start(total, events, accepts), total, events, accepts);
    RunKeepsInv(Start(total, events, accepts), moves, total, events, accepts);
  }

  /** No lost wakeup: a consumer blocked on a clear event waits for an upload that has not ended,
      and has reported everything the counter says. */
  lemma NoLostWakeup(total: int, events: seq<Event>, accepts: Bytes -> bool, moves: seq<Move>)
    ensures var s := Run(Start(total, events, accepts), moves);
      s.consumer == Iterating(Waiting) && !s.progress.signalled ==>
        !s.uploader.Ended? && |s.pushing| > 0 && s.progress.current == s.pushing[|s.pushing| - 1]
  {
    Reachable(total, events, accepts, moves);
  }

  /** Once the upload has ended, two resumptions of the generator finish it: with "Pushed" exactly
      when the upload succeeded, and with the upload's exception otherwise. */
  lemma EndsOnceUploadEnds(total: int, events: seq<Event>, accepts: Bytes -> bool, moves: seq<Move>)
    ensures var s := Run(Start(total, events, accepts), moves);
      s.uploader.Ended? && s.consumer != Abandoned ==>
        var t := Next(Next(s, Consume), Consume);
        && t.consumer == (if s.uploader.ok then Done else Raised) && (t.pushed <==> s.uploader.ok)
        && t.pushing == s.pushing && t.done == s.done
  {
    Reachable(total, events, accepts, moves);
  }

  /** The messages of any layer push: "Pushing" values start at 0 and strictly increase, and
      "Pushed" appears only after an upload that succeeded. A generator that stopped early has
      cancelled its task. */
  lemma Messages(total: int, events: seq<Event>, accepts: Bytes -> bool, moves: seq<Move>)
    ensures var s := Run(Start(total, events, accepts), moves);
      && Ascending(s.pushing)
      && (s.pushed ==> s.uploader == Ended(true))
      && (s.consumer == Abandoned ==> s.cancelled || s.uploader.Ended?)
  {
    Reachable(total, events, accepts, moves);
  }

  /** Fed by the rechunker, for responses of any sizes and an announced size that need not be right: the
      values never exceed the bytes handed to the uploader; a consumer that leaves the loop before the upload
      has ended has seen the announced size handed over; and so, unless more is announced than there is to
      read, the values stay within the content, and, unless less is, all of it was handed over by then. */
  lemma ProgressIsHonest(total: int, chunkSize: nat, rs: seq<Bytes>, accepts: Bytes -> bool, moves: seq<Move>)
    requires chunkSize > 0
    ensures var s := Run(Start(total, Rechunk(chunkSize, [], false, rs), accepts), moves);
      && Handed(s.done) <= Join(rs)
      && (forall v :: v in s.pushing ==> v <= |Handed(s.done)| <= |Join(rs)|)
      && (s.consumer == Draining && !s.uploader.Ended? ==> total <= |Handed(s.done)|)
      && (s.consumer == Draining && !s.uploader.Ended? && total >= |Join(rs)| ==> Handed(s.done) == Join(rs))
  {
    var events := Rechunk(chunkSize, [], false, rs);
    Reachable(total, events, accepts, moves);
    var s := Run(Start(total, events, accepts), moves);
    assert s.done == events[..|s.done|];
    NeverOverstates(chunkSize, [], false, rs, |s.done|);
    HandedIsPrefix(chunkSize, rs, |s.done|);
    forall v | v in s.pushing
      ensures v <= |Handed(s.done)|
    {
      var i :| 0 <= i < |s.pushing| && s.pushing[i] == v;
      assert i < |s.pushing| - 1 ==> s.pushing[i] < s.pushing[|s.pushing| - 1];
    }
  }

  /** "Pushed" means delivered: the registry accepted what it was handed, which is the beginning of the
      content; all of it, if the registry insists on its size. */
  lemma PushedIsDelivered(total: int, chunkSize: nat, rs: seq<Bytes>, accepts: Bytes -> bool, moves: seq<Move>)
    requires chunkSize > 0
    ensures var s := Run(Start(total, Rechunk(chunkSize, [], false, rs), accepts), moves);
      s.pushed ==>
        && accepts(Handed(s.done)) && Handed(s.done) <= Join(rs)
        && ((forall b :: accepts(b) ==> |b| == |Join(rs)|) ==> Handed(s.done) == Join(rs))
  {
    Reachable(total, Rechunk(chunkSize, [], false, rs), accepts, moves);
    ProgressIsHonest(total, chunkSize, rs, accepts, moves);
  }

  // ---------------------------------------------------------------- playing a push to its end

  /** Moves of a push that neither ends nor is abandoned. */
  predicate Ongoing(moves: seq<Move>) {
    forall i | 0 <= i < |moves| :: moves[i] == Upload || moves[i] == Consume
  }

  function Uploads(n: nat): seq<Move> {
    seq(n, _ => Upload)
  }

  lemma {:induction false} StaysOngoing(s: Push, moves: seq<Move>)
    requires !s.uploader.Ended? && s.consumer != Abandoned && Ongoing(moves)
    ensures !Run(s, moves).uploader.Ended? && Run(s, moves).consumer != Abandoned
    decreases |moves|
  {
    if |moves| > 0 {
      assert moves[0] == Upload || moves[0] == Consume;
      StaysOngoing(Next(s, moves[0]), moves[1..]);
    }
  }

  /** Enough steps of the task exhaust the chunk source. */
  lemma {:induction false} UploadsExhaust(s: Push, n: nat)
    requires s.uploader.Running? && |s.uploader.rest| <= n
    ensures var t := Run(s, Uploads(n));
      t.uploader == Running([]) && t.done == s.done + s.uploader.rest && t.consumer == s.consumer
    decreases n
  {
    if n > 0 {
      assert Uploads(n)[0] == Upload && Uploads(n)[1..] == Uploads(n - 1);
      var next := NextUpload(s);
      if |s.uploader.rest| > 0 {
        assert s.done + s.uploader.rest == (s.done + [s.uploader.rest[0]]) + s.uploader.rest[1..];
      } else {
        assert s.done + s.uploader.rest == s.done;
      }
      UploadsExhaust(next, n - 1);
    } else {
      assert s.done + s.uploader.rest == s.done;
    }
  }

  /** However the beginning of a push is interleaved, running its task on hands over all there is. */
  lemma AllHandedOver(total: int, events: seq<Event>, accepts: Bytes -> bool, moves: seq<Move>)
    requires Ongoing(moves)
    ensures var t := Run(Start(total, events, accepts), moves + Uploads(|events| + 1));
      t.uploader == Running([]) && t.done == events && t.consumer != Abandoned
  {
    var start := Start(total, events, accepts);
    var s := Run(start, moves);
    StaysOngoing(start, moves);
    Reachable(total, events, accepts, moves);
    RunThen(start, moves, Uploads(|events| + 1));
    var n := |events| + 1;
    if s.uploader.Scheduled? {
      assert Uploads(n)[0] == Upload && Uploads(n)[1..] == Uploads(n - 1);
      UploadsExhaust(NextUpload(s), n - 1);
      assert [] + events == events;
    } else {
      UploadsExhaust(s, n);
    }
  }

  /** The values that a layer's generator has reported after `moves`, whatever the registry makes of the body. */
  ghost function Reports(total: int, chunkSize: nat, rs: seq<Bytes>, moves: seq<Move>): seq<nat> {
    Run(Start(total, Rechunk(chunkSize, [], false, rs), body => false), moves).pushing
  }

  lemma {:induction false} Indifferent(s: Push, accepts: Bytes -> bool, moves: seq<Move>)
    requires Ongoing(moves)
    ensures Run(s.(accepts := accepts), moves) == Run(s, moves).(accepts := accepts)
    decreases |moves|
  {
    if |moves| > 0 {
      assert moves[0] == Upload || moves[0] == Consume;
      Indifferent(Next(s, moves[0]), accepts, moves[1..]);
    }
  }

  lemma {:induction false} UploadsSayNothing(s: Push, n: nat)
    ensures Run(s, Uploads(n)).pushing == s.pushing
    decreases n
  {
    if n > 0 {
      assert Uploads(n)[0] == Upload && Uploads(n)[1..] == Uploads(n - 1);
      UploadsSayNothing(NextUpload(s), n - 1);
    }
  }

  lemma ReportsAre(total: int, chunkSize: nat, rs: seq<Bytes>, accepts: Bytes -> bool, moves: seq<Move>)
    requires Ongoing(moves)
    ensures Run(Start(total, Rechunk(chunkSize, [], false, rs), accepts), moves).pushing
         == Reports(total, chunkSize, rs, moves)
  {
    hide Run;
    Indifferent(Start(total, Rechunk(chunkSize, [], false, rs), body => false), accepts, moves);
  }

  /** The values a push reports, within the bytes it handed over. */
  ghost predicate Honest(s: Push) {
    Ascending(s.pushing) && forall v :: v in s.pushing ==> v <= |Handed(s.done)|
  }

  lemma HonestRun(total: int, chunkSize: nat, rs: seq<Bytes>, accepts: Bytes -> bool, moves: seq<Move>)
    requires chunkSize > 0
    ensures Honest(Run(Start(total, Rechunk(chunkSize, [], false, rs), accepts), moves))
  {
    ProgressIsHonest(total, chunkSize, rs, accepts, moves);
    Messages(total, Rechunk(chunkSize, [], false, rs), accepts, moves);
  }

  /** An upload that breaks off ends the push with its exception. */
  lemma BrokenOff(total: int, chunkSize: nat, rs: seq<Bytes>, accepts: Bytes -> bool, moves: seq<Move>)
    requires chunkSize > 0 && Ongoing(moves)
    ensures var s := Run(Start(total, Rechunk(chunkSize, [], false, rs), accepts), moves);
      var t := NextConsume(NextConsume(NextEnd(NextUpload(s), false)));
      t.consumer == Raised && !t.pushed && Honest(t) && t.pushing == s.pushing
  {
    var events := Rechunk(chunkSize, [], false, rs);
    var start := Start(total, events, accepts);
    var s := Run(start, moves);
    StaysOngoing(start, moves);
    RunThen(start, moves, [Upload]);
    RunOne(s, Upload);
    var more := moves + [Upload];
    RunThen(start, more, [EndUpload(false)]);
    RunOne(NextUpload(s), EndUpload(false));
    var all := more + [EndUpload(false)];
    EndsOnceUploadEnds(total, events, accepts, all);
    HonestRun(total, chunkSize, rs, accepts, all);
  }

  /** An upload that runs to its end hands over everything; the push succeeds if and only if the registry
      answers and accepts that. */
  lemma Completed(total: int, chunkSize: nat, rs: seq<Bytes>, accepts: Bytes -> bool, moves: seq<Move>, answered: bool)
    requires chunkSize > 0 && Ongoing(moves)
    ensures var events := Rechunk(chunkSize, [], false, rs);
      var s := Run(Run(Start(total, events, accepts), moves), Uploads(|events| + 1));
      var t := NextConsume(NextConsume(NextEnd(s, answered)));
      && s.done == events && t.done == events && Honest(t)
      && (t.pushed <==> answered && accepts(Handed(events)))
      && t.consumer == (if t.pushed then Done else Raised)
      && t.pushing == Run(Start(total, events, accepts), moves).pushing
  {
    var events := Rechunk(chunkSize, [], false, rs);
    var start := Start(total, events, accepts);
    var played := moves + Uploads(|events| + 1);
    RunThen(start, moves, Uploads(|events| + 1));
    AllHandedOver(total, events, accepts, moves);
    UploadsSayNothing(Run(start, moves), |events| + 1);
    Reachable(total, events, accepts, played);
    var s := Run(start, played);
    RunThen(start, played, [EndUpload(answered)]);
    RunOne(s, EndUpload(answered));
    var all := played + [EndUpload(answered)];
    EndsOnceUploadEnds(total, events, accepts, all);
    HonestRun(total, chunkSize, rs, accepts, all);
  }

  /** A push whose upload breaks off after `moves`; the values it reported. */
  method BreakOff(total: int, chunkSize: nat, rs: seq<Bytes>, moves: seq<Move>) returns (values: seq<nat>)
    requires chunkSize > 0 && Ongoing(moves)
    ensures Ascending(values) && values == Reports(total, chunkSize, rs, moves)
  {
    hide Run, Start, NextConsume, NextEnd, NextUpload, Ascending;
    var accepts := body => false;
    var events := ReadLayerChunked(rs, chunkSize);
    var push := new LayerPush(total, events, accepts);
    push.Play(moves);
    push.Upload();
    push.EndUpload(false);
    push.Consume();
    push.Consume();
    BrokenOff(total, chunkSize, rs, accepts, moves);
    ReportsAre(total, chunkSize, rs, accepts, moves);
    return push.pushing;
  }

  /** A push that is closed after `moves`, and its upload task cancelled with it; the values it reported, and the
      body, if all of that was handed over by then. */
  method CloseDown(total: int, chunkSize: nat, rs: seq<Bytes>, moves: seq<Move>)
      returns (values: seq<nat>, body: Option<Bytes>)
    requires chunkSize > 0 && Ongoing(moves)
    ensures Ascending(values) && values == Reports(total, chunkSize, rs, moves)
    ensures body.Some? ==> body.value == Join(rs)
  {
    hide Run, Start, NextConsume, NextEnd, NextAbandon, Ascending, Inv;
    var accepts := body => false;
    var events := ReadLayerChunked(rs, chunkSize);
    var push := new LayerPush(total, events, accepts);
    push.Play(moves);
    Reachable(total, events, accepts, moves);
    AllDone(push.State(), total, events, accepts);
    Messages(total, events, accepts, moves);
    ReportsAre(total, chunkSize, rs, accepts, moves);
    body := if push.uploader == Running([]) then Some(Handed(push.done)) else None;
    values := push.pushing;
    push.Abandon();
    push.EndUpload(false);
  }

  lemma AllDone(s: Push, total: int, events: seq<Event>, accepts: Bytes -> bool)
    requires Inv(s, total, events, accepts)
    ensures s.uploader == Running([]) ==> s.done == events
  {
    assert s.uploader == Running([]) ==> s.done + [] == events;
  }

  /** The state of a push that has handed over all there is. */
  ghost predicate OutOfChunks(s: Push, total: int, chunkSize: nat, rs: seq<Bytes>, accepts: Bytes -> bool,
                              moves: seq<Move>) {
    var events := Rechunk(chunkSize, [], false, rs);
    s == Run(Run(Start(total, events, accepts), moves), Uploads(|events| + 1))
  }

  /** A push whose upload runs on after `moves` until it has handed over all there is. */
  method HandOver(total: int, chunkSize: nat, rs: seq<Bytes>, accepts: Bytes -> bool, moves: seq<Move>)
      returns (push: LayerPush)
    requires chunkSize > 0 && Ongoing(moves)
    ensures fresh(push) && fresh(push.progress)
    ensures OutOfChunks(push.State(), total, chunkSize, rs, accepts, moves)
    ensures Handed(push.done) == Join(rs)
  {
    hide Run, Start;
    var events := ReadLayerChunked(rs, chunkSize);
    push := new LayerPush(total, events, accepts);
    push.Play(moves);
    push.Play(Uploads(|events| + 1));
    Completed(total, chunkSize, rs, accepts, moves, true);
  }

  /** The end of such a push: the registry's answer, and what the generator makes of it. */
  method Conclude(push: LayerPush, answered: bool, ghost total: int, ghost chunkSize: nat, ghost rs: seq<Bytes>,
                  ghost accepts: Bytes -> bool, ghost moves: seq<Move>)
      returns (pushed: bool, values: seq<nat>)
    requires chunkSize > 0 && Ongoing(moves)
    requires OutOfChunks(push.State(), total, chunkSize, rs, accepts, moves)
    modifies push, push.progress
    ensures pushed <==> answered && accepts(Join(rs))
    ensures Ascending(values) && forall v | v in values :: v <= |Join(rs)|
    ensures values == Reports(total, chunkSize, rs, moves)
  {
    hide Run, Start, NextConsume, NextEnd, Ascending;
    Completed(total, chunkSize, rs, accepts, moves, answered);
    ReportsAre(total, chunkSize, rs, accepts, moves);
    push.EndUpload(answered);
    push.Consume();
    push.Consume();
    WholeRun(chunkSize, rs);
    return push.pushed, push.pushing;
  }
}
