/** The commit endpoint's response: the chunk generators of `RuntimeClient`, and the handler that
    writes them out and routes exceptions. */
module ResponseStream {
  import opened Wrappers

  /** What code outside these generators raises; none of it raises a container-not-found error. */
  datatype Failure = Cancelled | BadValue | Broken

  datatype Exn = ContainerNotFound | ImageNotFound | CommitFailedAssertion | Raised(failure: Failure)

  /** A line of the response. `Progress` comes from the push; docker may send one with an "error" key. */
  datatype Chunk =
    | CommitStarted(container: string, image: string)
    | CommitFinished
    | Progress(message: string, hasError: bool)
    | UnexpectedError
  {
    predicate IsError() {
      UnexpectedError? || (Progress? && hasError)
    }
  }

  datatype End = Finished | Raises(exn: Exn)

  /** What a generator yields, and how it ends. */
  datatype Script = Script(chunks: seq<Chunk>, end: End)

  // ---------------------------------------------------------------- the generators

  datatype Lookup = There | Missing | Fails(failure: Failure)

  /** A progress stream from outside: its items, and what it raises after them, if anything. */
  datatype Feed = Feed(items: seq<Chunk>, failure: Option<Failure>)

  /** One request, and how everything it calls behaves. */
  datatype Request = Request(
    container: string,
    image: string,
    imageParses: bool,
    hasDocker: bool,
    hasContainerd: bool,
    lookup: Lookup,                    // getting the container
    commit: Option<Failure>,           // committing it
    imageLookup: Lookup,               // getting the image to push, from containerd
    feed: Feed)                        // the push's progress
  {
    /** Progress consists of progress messages, and containerd's never carry an error. */
    predicate Valid() {
      && (forall i | 0 <= i < |feed.items| :: feed.items[i].Progress?)
      && (!hasDocker ==> forall i | 0 <= i < |feed.items| :: !feed.items[i].hasError)
    }
  }

  /** `RuntimeClient.commit`. */
  method RuntimeCommit(q: Request) returns (s: Script)
    ensures CommitGrammar(s)
    ensures !q.imageParses || (!q.hasDocker && !q.hasContainerd) ==> s == Script([], Raises(Raised(BadValue)))
    ensures q.imageParses && (q.hasDocker || q.hasContainerd) ==>
      && (q.lookup.Missing? ==> s == Script([], Raises(ContainerNotFound)))
      && (q.lookup.Fails? ==> s == Script([], Raises(Raised(q.lookup.failure))))
      && (q.lookup.There? ==>
          && |s.chunks| > 0 && s.chunks[0] == CommitStarted(q.container, q.image)
          && (s.end == Finished <==> q.commit.None?)
          && (q.commit.Some? ==> s.end == Raises(Raised(q.commit.value))))
  {
    var chunks: seq<Chunk> := [];
    if !q.imageParses {
      return Script(chunks, Raises(Raised(BadValue)));
    }
    if q.hasDocker || q.hasContainerd {
      match q.lookup {
        case Missing => return Script(chunks, Raises(ContainerNotFound));
        case Fails(f) => return Script(chunks, Raises(Raised(f)));
        case There =>
      }
      chunks := chunks + [CommitStarted(q.container, q.image)];
      if q.commit.Some? {
        return Script(chunks, Raises(Raised(q.commit.value)));
      }
      chunks := chunks + [CommitFinished];
      return Script(chunks, Finished);
    }
    return Script(chunks, Raises(Raised(BadValue)));
  }

  /** A commit stream starts before it finishes, and is silent only when it raises; once it has said
      anything, the container was found. */
  predicate CommitGrammar(s: Script) {
    || (s.chunks == [] && s.end.Raises?)
    || (|s.chunks| == 1 && s.chunks[0].CommitStarted? && s.end.Raises? && s.end.exn.Raised?)
    || (|s.chunks| == 2 && s.chunks[0].CommitStarted? && s.chunks[1] == CommitFinished && s.end == Finished)
  }

  /** `RuntimeClient.push`: all of the feed and its failure, or the feed up to its first error and no failure. */
  method RuntimePush(q: Request) returns (s: Script)
    requires q.Valid()
    ensures PushGrammar(s)
    ensures !q.imageParses || (!q.hasDocker && !q.hasContainerd) ==> s == Script([], Raises(Raised(BadValue)))
    ensures q.imageParses && !q.hasDocker && q.hasContainerd ==>
      && (q.imageLookup.Missing? ==> s == Script([], Raises(ImageNotFound)))
      && (q.imageLookup.Fails? ==> s == Script([], Raises(Raised(q.imageLookup.failure))))
    ensures q.imageParses && (q.hasDocker || (q.hasContainerd && q.imageLookup.There?)) ==>
      && (NoErrors(q.feed.items) ==>
          && s.chunks == q.feed.items
          && (q.feed.failure.None? ==> s.end == Finished)
          && (q.feed.failure.Some? ==> s.end == Raises(Raised(q.feed.failure.value))))
      && (forall i | FirstError(q.feed.items, i) :: s == Script(q.feed.items[..i + 1], Finished))
  {
    if !q.imageParses {
      return Script([], Raises(Raised(BadValue)));
    }
    if !q.hasDocker && !q.hasContainerd {
      return Script([], Raises(Raised(BadValue)));
    }
    if !q.hasDocker {
      match q.imageLookup {
        case Missing => return Script([], Raises(ImageNotFound));
        case Fails(f) => return Script([], Raises(Raised(f)));
        case There =>
      }
    }
    var chunks: seq<Chunk> := [];
    for i := 0 to |q.feed.items|
      invariant chunks == q.feed.items[..i]
      invariant forall j | 0 <= j < i :: !q.feed.items[j].IsError()
    {
      chunks := chunks + [q.feed.items[i]];
      if q.feed.items[i].hasError {
        return Script(chunks, Finished);
      }
    }
    return Script(chunks, if q.feed.failure.Some? then Raises(Raised(q.feed.failure.value)) else Finished);
  }

  ghost predicate NoErrors(items: seq<Chunk>) {
    forall i | 0 <= i < |items| :: !items[i].IsError()
  }

  /** Item `i` is the first with an error. */
  ghost predicate FirstError(items: seq<Chunk>, i: int) {
    0 <= i < |items| && items[i].IsError() && forall j | 0 <= j < i :: !items[j].IsError()
  }

  /** There is a first error if there is any. */
  lemma {:induction false} SomeFirstError(items: seq<Chunk>)
    ensures NoErrors(items) || exists i :: FirstError(items, i)
    decreases |items|
  {
    if |items| > 0 {
      var n := |items| - 1;
      SomeFirstError(items[..n]);
      if i :| FirstError(items[..n], i) {
        assert FirstError(items, i);
      } else if items[n].IsError() {
        assert forall j | 0 <= j < n :: !items[..n][j].IsError();
        assert FirstError(items, n);
      }
    }
  }

  predicate PushGrammar(s: Script) {
    && (forall i | 0 <= i < |s.chunks| :: s.chunks[i].Progress?)
    && (forall i | 0 <= i < |s.chunks| :: s.chunks[i].hasError ==> i == |s.chunks| - 1 && s.end == Finished)
    && s.end != Raises(ContainerNotFound) && s.end != Raises(CommitFailedAssertion)
  }

  // ---------------------------------------------------------------- the response

  /** The response as the client receives it. Preparing it and each write may fail. */
  class Response {
    const preparing: Option<Failure>
    const writing: nat -> Option<Failure>
    var prepared: bool
    var attempted: seq<Chunk>
    var delivered: seq<Chunk>

    constructor (preparing: Option<Failure>, writing: nat -> Option<Failure>)
      ensures this.preparing == preparing && this.writing == writing
      ensures !prepared && attempted == [] && delivered == []
    {
      this.preparing := preparing;
      this.writing := writing;
      prepared := false;
      attempted := [];
      delivered := [];
    }

    method Prepare() returns (failure: Option<Failure>)
      modifies this
      ensures failure == preparing && prepared == (old(prepared) || preparing.None?)
      ensures attempted == old(attempted) && delivered == old(delivered)
    {
      failure := preparing;
      if failure.None? {
        prepared := true;
      }
    }

    method Write(chunk: Chunk) returns (failure: Option<Failure>)
      modifies this
      ensures failure == writing(|old(attempted)|) && attempted == old(attempted) + [chunk]
      ensures prepared == old(prepared)
      ensures delivered == if failure.None? then old(delivered) + [chunk] else old(delivered)
    {
      failure := writing(|attempted|);
      attempted := attempted + [chunk];
      if failure.None? {
        delivered := delivered + [chunk];
      }
    }
  }

  /** Writes go through. */
  ghost predicate Reliable(r: Response) {
    r.preparing.None? && forall n: nat :: r.writing(n).None?
  }

  /** Writes out what a generator yields, preparing the response first if `lazily` asked to.
      Returns what the loop raises, or None when the generator finished. */
  method WriteAll(response: Response, s: Script, lazily: bool) returns (raised: Option<Exn>)
    requires response.prepared || lazily
    modifies response
    ensures response.prepared ==> old(response.prepared) || |s.chunks| > 0
    ensures old(response.prepared) ==> response.prepared
    ensures old(response.delivered) <= response.delivered <= old(response.delivered) + s.chunks
    ensures !response.prepared ==> response.delivered == old(response.delivered)
    ensures raised.None? ==> s.end == Finished && response.delivered == old(response.delivered) + s.chunks
    ensures raised.None? && |s.chunks| > 0 ==> response.prepared
    ensures raised.None? ==>
      |response.attempted| - |response.delivered| == |old(response.attempted)| - |old(response.delivered)|
    ensures raised.Some? && !raised.value.Raised? ==>
      s.end == Raises(raised.value) && response.delivered == old(response.delivered) + s.chunks
    ensures raised.Some? ==> s.end.Raises? || |response.delivered| < |old(response.delivered) + s.chunks|
    ensures Reliable(response) ==> response.delivered == old(response.delivered) + s.chunks
    ensures Reliable(response) ==> raised == if s.end == Finished then None else Some(s.end.exn)
    ensures Reliable(response) && |s.chunks| > 0 ==> response.prepared
  {
    ghost var before := response.delivered;
    for i := 0 to |s.chunks|
      invariant response.delivered == before + s.chunks[..i]
      invariant |response.attempted| == |old(response.attempted)| + i
      invariant response.prepared ==> old(response.prepared) || i > 0
      invariant old(response.prepared) || i > 0 ==> response.prepared
    {
      assert s.chunks[..i + 1] == s.chunks[..i] + [s.chunks[i]];
      PrefixOf(before, s.chunks, i);
      if !response.prepared {
        var failure := response.Prepare();
        if failure.Some? {
          return Some(Raised(failure.value));
        }
      }
      var failure := response.Write(s.chunks[i]);
      if failure.Some? {
        return Some(Raised(failure.value));
      }
    }
    assert s.chunks[..|s.chunks|] == s.chunks;
    return if s.end == Finished then None else Some(s.end.exn);
  }

  lemma PrefixOf(before: seq<Chunk>, chunks: seq<Chunk>, i: nat)
    requires i <= |chunks|
    ensures before <= before + chunks[..i] <= before + chunks
  {
    assert before + chunks == (before + chunks[..i]) + chunks[i..];
  }

  /** How the handler ends: with the response, or with an exception for the middleware. */
  datatype Handled = Returned | Propagates(exn: Exn)

  /** Every stream a client can receive, whatever fails: commit started, commit finished, push
      progress, in this order; an error can stand anywhere, but only once, and last. */
  predicate StreamGrammar(d: seq<Chunk>) {
    forall i | 0 <= i < |d| ::
      if d[i].IsError() then i == |d| - 1
      else if i == 0 then d[i].CommitStarted?
      else if i == 1 then d[i] == CommitFinished
      else d[i].Progress?
  }

  /** What the generators of a request yield to a client that can be written to, and what they raise. */
  ghost predicate Yielded(q: Request, push: bool, prepared: bool, d: seq<Chunk>, raised: Option<Exn>) {
    var begun := [CommitStarted(q.container, q.image), CommitFinished];
    && (prepared <==> q.imageParses && (q.hasDocker || q.hasContainerd) && q.lookup.There?)
    && (!prepared ==> d == [] && Unprepared(q, raised))
    && (prepared && q.commit.Some? ==> d == begun[..1] && raised == Some(Raised(q.commit.value)))
    && (prepared && q.commit.None? && !push ==> d == begun && raised.None?)
    && (prepared && q.commit.None? && push ==>
        && begun <= d
        && if !q.hasDocker && !q.imageLookup.There? then d == begun && ImageUnread(q, raised)
           else Fed(q.feed, d[2..], raised))
  }

  /** What is raised before anything is said. */
  ghost predicate Unprepared(q: Request, raised: Option<Exn>) {
    if !q.imageParses || (!q.hasDocker && !q.hasContainerd) then raised == Some(Raised(BadValue))
    else
      && (q.lookup.Missing? ==> raised == Some(ContainerNotFound))
      && (q.lookup.Fails? ==> raised == Some(Raised(q.lookup.failure)))
  }

  /** What is raised when the image to push cannot be had. */
  ghost predicate ImageUnread(q: Request, raised: Option<Exn>) {
    && (q.imageLookup.Missing? ==> raised == Some(ImageNotFound))
    && (q.imageLookup.Fails? ==> raised == Some(Raised(q.imageLookup.failure)))
  }

  /** What comes out of a push's progress. */
  ghost predicate Fed(feed: Feed, d: seq<Chunk>, raised: Option<Exn>) {
    && (NoErrors(feed.items) ==>
        && d == feed.items
        && (feed.failure.None? <==> raised.None?)
        && (feed.failure.Some? ==> raised == Some(Raised(feed.failure.value))))
    && (forall i | FirstError(feed.items, i) :: d == feed.items[..i + 1] && raised.None?)
  }

  /** The body of the handler's `try`. */
  method CommitAndPush(response: Response, q: Request, push: bool) returns (raised: Option<Exn>)
    requires q.Valid() && !response.prepared && response.delivered == response.attempted == []
    modifies response
    ensures StreamGrammar(response.delivered)
    ensures raised.None? ==> |response.delivered| == |response.attempted|
    ensures !response.prepared ==> response.delivered == [] && raised.Some?
    ensures raised.Some? && raised.value == ContainerNotFound ==> !response.prepared && q.lookup.Missing?
    ensures raised != Some(CommitFailedAssertion)
    ensures raised.Some? ==> forall i | 0 <= i < |response.delivered| :: !response.delivered[i].IsError()
    ensures Reliable(response) ==> Yielded(q, push, response.prepared, response.delivered, raised)
  {
    var commit := RuntimeCommit(q);
    raised := WriteAll(response, commit, true);
    if raised.Some? {
      return;
    }
    if !response.prepared {
      return Some(CommitFailedAssertion);
    }
    if !push {
      return None;
    }
    ghost var before := response.delivered;
    var pushed := RuntimePush(q);
    raised := WriteAll(response, pushed, false);
    StreamOfPrefix(before, pushed, response.delivered);
  }

  lemma StreamOfPrefix(before: seq<Chunk>, s: Script, d: seq<Chunk>)
    requires |before| == 2 && before[0].CommitStarted? && before[1] == CommitFinished
    requires PushGrammar(s) && before <= d <= before + s.chunks
    ensures StreamGrammar(d)
    ensures s.end.Raises? || |d| < |before + s.chunks| ==> forall i | 0 <= i < |d| :: !d[i].IsError()
  {
    forall i | 0 <= i < |d|
      ensures d[i] == (before + s.chunks)[i]
    {
    }
  }

  lemma EndsWithError(items: seq<Chunk>)
    ensures forall i | FirstError(items, i) :: 0 <= i < |items| && items[i].IsError() && items[..i + 1][i] == items[i]
    ensures NoErrors(items) ==>
      (forall i | 0 <= i < |items| :: !items[i].IsError()) && forall i :: !FirstError(items, i)
  {
  }

  /** `PlatformContainerRuntimeApiHandler.commit`, for a payload whose image and auth are acceptable. */
  method HandleCommit(response: Response, q: Request, push: bool) returns (r: Handled)
    requires q.Valid() && !response.prepared && response.delivered == response.attempted == []
    modifies response
    ensures StreamGrammar(response.delivered)
    ensures !response.prepared ==> response.delivered == [] && r.Propagates?
    ensures r == Propagates(ContainerNotFound) ==> !response.prepared && q.lookup.Missing?
    ensures r != Propagates(CommitFailedAssertion)
    ensures response.prepared && r.Propagates? ==> r.exn.Raised?
    ensures response.prepared && r.Propagates? && r != Propagates(Raised(Cancelled)) ==>
      response.attempted != [] && response.attempted[|response.attempted| - 1] == UnexpectedError
    ensures r == Returned ==>
      || |response.delivered| == |response.attempted|
      || (response.delivered != [] && response.delivered[|response.delivered| - 1] == UnexpectedError)
    ensures Reliable(response) ==>
      (response.prepared <==> q.imageParses && (q.hasDocker || q.hasContainerd) && q.lookup.There?)
    ensures Reliable(response) && !response.prepared ==>
      if !q.imageParses || (!q.hasDocker && !q.hasContainerd) then r == Propagates(Raised(BadValue))
      else
        && (q.lookup.Missing? ==> r == Propagates(ContainerNotFound))
        && (q.lookup.Fails? ==> r == Propagates(Raised(q.lookup.failure)))
    ensures Reliable(response) && response.prepared ==>
      var d := response.delivered;
      && |d| > 0 && d[0] == CommitStarted(q.container, q.image)
      && (|d| > 1 && d[1] == CommitFinished <==> q.commit.None?)
      && (q.commit.None? && !push ==> |d| == 2)
    ensures Reliable(response) && response.prepared ==>
      var d := response.delivered;
      d[|d| - 1].IsError() <==>
        || (q.commit.Some? && q.commit.value != Cancelled)
        || (q.commit.None? && push && !q.hasDocker && !q.imageLookup.There? && q.imageLookup != Fails(Cancelled))
        || (q.commit.None? && push && (q.hasDocker || q.imageLookup.There?)
            && ((q.feed.failure.Some? && q.feed.failure.value != Cancelled) || !NoErrors(q.feed.items)))
    ensures Reliable(response) && response.prepared && q.commit.None? && push ==>
      var d := response.delivered;
      q.hasDocker || q.imageLookup.There? ==>
        && (NoErrors(q.feed.items) ==>
            |d| >= 2 && d[2..] == q.feed.items
              + if q.feed.failure.Some? && q.feed.failure.value != Cancelled then [UnexpectedError] else [])
        && (forall i | FirstError(q.feed.items, i) :: |d| >= 2 && d[2..] == q.feed.items[..i + 1])
    ensures Reliable(response) && response.prepared ==>
      && (r == Returned || r == Propagates(Raised(Cancelled)))
      && (r != Returned <==>
          || q.commit == Some(Cancelled)
          || (q.commit.None? && push && !q.hasDocker && q.imageLookup == Fails(Cancelled))
          || (q.commit.None? && push && (q.hasDocker || q.imageLookup.There?)
              && q.feed.failure == Some(Cancelled) && NoErrors(q.feed.items)))
  {
    hide NoErrors, FirstError;
    SomeFirstError(q.feed.items);
    EndsWithError(q.feed.items);
    var raised := CommitAndPush(response, q, push);
    if raised.None? {
      return Returned;
    }
    var e := raised.value;
    if e == Raised(Cancelled) || e == ContainerNotFound || !response.prepared {
      return Propagates(e);
    }
    var failure := response.Write(UnexpectedError);
    if failure.Some? {
      return Propagates(Raised(failure.value));
    }
    return Returned;
  }
}
