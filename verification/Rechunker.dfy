/** `Image._read_layer_chunked`: repacking the responses of a content read into upload chunks. */
module Rechunker {
  import opened Python

  /** What the generator does, in order: hand a chunk to the uploader, then report progress
      when the uploader asks for the next one. */
  datatype Event = Yield(chunk: Bytes) | Step(amount: nat)

  function Chunks(events: seq<Event>): seq<Bytes> {
    if |events| == 0 then []
    else (if events[0].Yield? then [events[0].chunk] else []) + Chunks(events[1..])
  }

  /** Bytes handed to the uploader. */
  function Handed(events: seq<Event>): Bytes {
    Join(Chunks(events))
  }

  /** The progress counter after `events`. */
  function Counter(events: seq<Event>): nat {
    if |events| == 0 then 0
    else (if events[0].Step? then events[0].amount else 0) + Counter(events[1..])
  }

  lemma {:induction false} EventsConcat(a: seq<Event>, b: seq<Event>)
    ensures Chunks(a + b) == Chunks(a) + Chunks(b)
    ensures Counter(a + b) == Counter(a) + Counter(b)
    ensures Handed(a + b) == Handed(a) + Handed(b)
  {
    if |a| == 0 {
      assert a + b == b;
    } else {
      EventsConcat(a[1..], b);
      assert (a + b)[1..] == a[1..] + b;
      var first := if a[0].Yield? then [a[0].chunk] else [];
      Associative(first, Chunks(a[1..]), Chunks(b));
    }
    JoinConcat(Chunks(a), Chunks(b));
  }

  /** What one response does to a buffer holding the bytes `held`: the chunk handed over, if any,
      and the bytes that stay. */
  datatype Fed = Kept(rest: Bytes) | Cut(chunk: Bytes, rest: Bytes, pending: bool)
  {
    function Events(chunkSize: nat): seq<Event> {
      if Kept? then [] else [Yield(chunk), Step(chunkSize)]
    }

    predicate Pending() { Kept? || pending }
  }

  function Feed(chunkSize: nat, held: Bytes, data: Bytes): Fed {
    if |held| + |data| > chunkSize then
      var prefixLen := chunkSize - |held|;
      Cut(held + Slice(data, 0, prefixLen), SliceFrom(data, prefixLen), true)
    else if |held| + |data| == chunkSize then
      Cut(held + data, [], false)
    else
      Kept(held + data)
  }

  /** The last chunk: `pending` tells an empty buffer from a buffer of empty pieces. */
  function Flush(held: Bytes, pending: bool): seq<Event> {
    if pending then [Yield(held), Step(|held|)] else []
  }

  /** The whole run on the responses `rs`, from a buffer that holds `held`. */
  function Rechunk(chunkSize: nat, held: Bytes, pending: bool, rs: seq<Bytes>): seq<Event>
    decreases |rs|
  {
    if |rs| == 0 then Flush(held, pending)
    else
      var fed := Feed(chunkSize, held, rs[0]);
      fed.Events(chunkSize) + Rechunk(chunkSize, fed.rest, fed.Pending(), rs[1..])
  }

  /** The generator itself, run to the end over the responses of one read. */
  method ReadLayerChunked(responses: seq<Bytes>, chunkSize: nat) returns (events: seq<Event>)
    requires chunkSize > 0
    ensures events == Rechunk(chunkSize, [], false, responses)
    ensures Handed(events) == Join(responses)
    ensures Counter(events) <= |Join(responses)|
  {
    events := [];
    var buffer: seq<Bytes> := [];
    var bufferLen := 0;
    for i := 0 to |responses|
      invariant bufferLen == |Join(buffer)|
      invariant events + Rechunk(chunkSize, Join(buffer), buffer != [], responses[i..])
             == Rechunk(chunkSize, [], false, responses)
    {
      var data := responses[i];
      ghost var before, fed := events, Feed(chunkSize, Join(buffer), data);
      RechunkStep(chunkSize, Join(buffer), buffer != [], responses, i, events);
      if bufferLen + |data| > chunkSize {
        var prefixLen := chunkSize - bufferLen;
        JoinAppend(buffer, Slice(data, 0, prefixLen));
        buffer := buffer + [Slice(data, 0, prefixLen)];
        var chunk := Join(buffer);
        buffer := [SliceFrom(data, prefixLen)];
        JoinOne(buffer[0]);
        bufferLen := |buffer[0]|;
        events := events + [Yield(chunk), Step(chunkSize)];
      } else if bufferLen + |data| == chunkSize {
        JoinAppend(buffer, data);
        buffer := buffer + [data];
        var chunk := Join(buffer);
        buffer := [];
        bufferLen := 0;
        events := events + [Yield(chunk), Step(chunkSize)];
      } else {
        JoinAppend(buffer, data);
        buffer := buffer + [data];
        bufferLen := bufferLen + |data|;
        assert before + fed.Events(chunkSize) == before;
      }
      assert events == before + fed.Events(chunkSize);
      assert Join(buffer) == fed.rest && (buffer != []) == fed.Pending();
    }
    if buffer != [] {
      var chunk := Join(buffer);
      events := events + [Yield(chunk), Step(|chunk|)];
    }
    WholeRun(chunkSize, responses);
  }

  lemma WholeRun(chunkSize: nat, rs: seq<Bytes>)
    ensures var run := Rechunk(chunkSize, [], false, rs);
      Handed(run) == Join(rs) && Counter(run) <= |Join(rs)|
  {
    var run := Rechunk(chunkSize, [], false, rs);
    Conservation(chunkSize, [], false, rs);
    NeverOverstates(chunkSize, [], false, rs, |run|);
    assert run[..|run|] == run;
  }

  lemma RechunkStep(chunkSize: nat, held: Bytes, pending: bool, rs: seq<Bytes>, i: nat, events: seq<Event>)
    requires i < |rs|
    ensures var fed := Feed(chunkSize, held, rs[i]);
      events + fed.Events(chunkSize) + Rechunk(chunkSize, fed.rest, fed.Pending(), rs[i + 1..])
      == events + Rechunk(chunkSize, held, pending, rs[i..])
  {
    assert rs[i..][1..] == rs[i + 1..];
  }

  // ---------------------------------------------------------------- bytes are conserved

  lemma FeedConserves(chunkSize: nat, held: Bytes, data: Bytes)
    ensures var fed := Feed(chunkSize, held, data);
      (if fed.Cut? then fed.chunk + fed.rest else fed.rest) == held + data
    ensures var fed := Feed(chunkSize, held, data);
      fed.Cut? ==> |fed.chunk| >= chunkSize && |fed.chunk| >= |held|
  {
    var p := chunkSize - |held|;
    CutAnywhere(data, p);
    assert (held + Slice(data, 0, p)) + SliceFrom(data, p) == held + data;
  }

  /** What one response does, in terms of its bytes. A buffer that holds more than a chunk is handed over together with
      all of the response but as many last bytes as the buffer has too many. */
  lemma FeedIs(chunkSize: nat, held: Bytes, data: Bytes)
    ensures |held| + |data| < chunkSize ==> Feed(chunkSize, held, data) == Kept(held + data)
    ensures |held| + |data| == chunkSize ==> Feed(chunkSize, held, data) == Cut(held + data, [], false)
    ensures |held| <= chunkSize < |held| + |data| ==>
      var k := chunkSize - |held|;
      Feed(chunkSize, held, data) == Cut(held + data[..k], data[k..], true)
    ensures chunkSize < |held| ==>
      var surplus := |held| - chunkSize;
      var k := if |data| < surplus then 0 else |data| - surplus;
      Feed(chunkSize, held, data) == Cut(held + data[..k], data[k..], true)
  {
  }

  lemma YieldStep(chunk: Bytes, n: nat)
    ensures Chunks([Yield(chunk), Step(n)]) == [chunk]
    ensures Handed([Yield(chunk), Step(n)]) == chunk
    ensures Counter([Yield(chunk), Step(n)]) == n
  {
    var es := [Yield(chunk), Step(n)];
    assert es[1..] == [Step(n)] && es[1..][1..] == [];
    assert Counter(es[1..]) == n;
    assert Chunks(es[1..]) == [];
    JoinOne(chunk);
  }

  /** Chunks and progress of one response and of the rest of the run. */
  lemma RechunkParts(chunkSize: nat, held: Bytes, pending: bool, rs: seq<Bytes>)
    ensures |rs| == 0 ==> var run := Rechunk(chunkSize, held, pending, rs);
      Chunks(run) == (if pending then [held] else []) && Counter(run) == if pending then |held| else 0
    ensures |rs| > 0 ==>
      var fed := Feed(chunkSize, held, rs[0]);
      var run, tail := Rechunk(chunkSize, held, pending, rs), Rechunk(chunkSize, fed.rest, fed.Pending(), rs[1..]);
      && Chunks(run) == (if fed.Cut? then [fed.chunk] + Chunks(tail) else Chunks(tail))
      && Counter(run) == (if fed.Cut? then chunkSize + Counter(tail) else Counter(tail))
  {
    if |rs| == 0 {
      YieldStep(held, |held|);
    } else {
      var fed := Feed(chunkSize, held, rs[0]);
      EventsConcat(fed.Events(chunkSize), Rechunk(chunkSize, fed.rest, fed.Pending(), rs[1..]));
      if fed.Cut? {
        YieldStep(fed.chunk, chunkSize);
      }
    }
  }

  /** The content is what one response hands over, what it leaves in the buffer, and the rest. */
  lemma FeedRegroups(chunkSize: nat, held: Bytes, rs: seq<Bytes>)
    requires |rs| > 0
    ensures var fed := Feed(chunkSize, held, rs[0]);
      held + Join(rs) == if fed.Cut? then fed.chunk + (fed.rest + Join(rs[1..])) else fed.rest + Join(rs[1..])
  {
    FeedConserves(chunkSize, held, rs[0]);
    Associative(held, rs[0], Join(rs[1..]));
    var fed := Feed(chunkSize, held, rs[0]);
    if fed.Cut? {
      Associative(fed.chunk, fed.rest, Join(rs[1..]));
    }
  }

  lemma JoinCons(b: Bytes, rest: seq<Bytes>)
    ensures Join([b] + rest) == b + Join(rest)
  {
    assert ([b] + rest)[1..] == rest;
  }

  /** The uploader gets exactly the bytes that were read, for responses of any size:
      a negative `prefixLen` only moves the cut. */
  lemma {:induction false} Conservation(chunkSize: nat, held: Bytes, pending: bool, rs: seq<Bytes>)
    requires pending || held == []
    ensures Handed(Rechunk(chunkSize, held, pending, rs)) == held + Join(rs)
    decreases |rs|
  {
    RechunkParts(chunkSize, held, pending, rs);
    if |rs| == 0 {
      JoinOne(held);
    } else {
      var fed := Feed(chunkSize, held, rs[0]);
      var tail := Rechunk(chunkSize, fed.rest, fed.Pending(), rs[1..]);
      Conservation(chunkSize, fed.rest, fed.Pending(), rs[1..]);
      FeedRegroups(chunkSize, held, rs);
      if fed.Cut? {
        JoinCons(fed.chunk, Chunks(tail));
      }
    }
  }

  // ---------------------------------------------------------------- progress never overstates

  lemma PairNeverOverstates(chunk: Bytes, n: nat, k: nat)
    requires k <= 2 && n <= |chunk|
    ensures Counter([Yield(chunk), Step(n)][..k]) <= |Handed([Yield(chunk), Step(n)][..k])|
  {
    var es := [Yield(chunk), Step(n)];
    YieldStep(chunk, n);
    if k == 1 {
      assert es[..1] == [Yield(chunk)];
      assert [Yield(chunk)][1..] == [];
    } else if k == 2 {
      assert es[..2] == es;
    }
  }

  /** At every moment of every run the counter is at most the number of bytes handed over. */
  lemma {:induction false} NeverOverstates(chunkSize: nat, held: Bytes, pending: bool, rs: seq<Bytes>, k: nat)
    requires k <= |Rechunk(chunkSize, held, pending, rs)|
    ensures var done := Rechunk(chunkSize, held, pending, rs)[..k];
      Counter(done) <= |Handed(done)|
    decreases |rs|
  {
    var done := Rechunk(chunkSize, held, pending, rs)[..k];
    if |rs| == 0 {
      if pending {
        PairNeverOverstates(held, |held|, k);
      }
    } else {
      var fed := Feed(chunkSize, held, rs[0]);
      var first := fed.Events(chunkSize);
      FeedConserves(chunkSize, held, rs[0]);
      if k <= |first| {
        assert done == first[..k];
        if fed.Cut? {
          PairNeverOverstates(fed.chunk, chunkSize, k);
        }
      } else {
        var tail := Rechunk(chunkSize, fed.rest, fed.Pending(), rs[1..])[..k - |first|];
        assert done == first + tail;
        NeverOverstates(chunkSize, fed.rest, fed.Pending(), rs[1..], k - |first|);
        EventsConcat(first, tail);
        if fed.Cut? {
          YieldStep(fed.chunk, chunkSize);
        }
      }
    }
  }

  /** What has been handed over at any moment is a prefix of the content. */
  lemma HandedIsPrefix(chunkSize: nat, rs: seq<Bytes>, k: nat)
    requires k <= |Rechunk(chunkSize, [], false, rs)|
    ensures Handed(Rechunk(chunkSize, [], false, rs)[..k]) <= Join(rs)
  {
    var run := Rechunk(chunkSize, [], false, rs);
    assert run == run[..k] + run[k..];
    EventsConcat(run[..k], run[k..]);
    Conservation(chunkSize, [], false, rs);
    assert [] + Join(rs) == Join(rs);
  }

  // ---------------------------------------------------------------- the canonical split

  /** `data` cut into pieces of `chunkSize`, the last one possibly shorter, none empty. */
  function Split(chunkSize: nat, data: Bytes): (pieces: seq<Bytes>)
    requires chunkSize > 0
    ensures forall i :: 0 <= i < |pieces| ==> 0 < |pieces[i]| <= chunkSize
    ensures forall i :: 0 <= i < |pieces| - 1 ==> |pieces[i]| == chunkSize
    decreases |data|
  {
    if |data| == 0 then []
    else if |data| <= chunkSize then [data]
    else [data[..chunkSize]] + Split(chunkSize, data[chunkSize..])
  }

  function NonEmpty(chunks: seq<Bytes>): seq<Bytes> {
    if |chunks| == 0 then []
    else (if |chunks[0]| == 0 then [] else [chunks[0]]) + NonEmpty(chunks[1..])
  }

  /** How much the buffer holds after a response of `k` bytes, when it held at most a chunk. */
  function NextHeld(chunkSize: nat, held: nat, k: nat): nat {
    if held + k >= chunkSize then held + k - chunkSize else held + k
  }

  /** The buffer never holds more than one chunk. */
  predicate Fits(chunkSize: nat, held: nat, rs: seq<Bytes>)
    decreases |rs|
  {
    held <= chunkSize && (|rs| == 0 || Fits(chunkSize, NextHeld(chunkSize, held, |rs[0]|), rs[1..]))
  }

  /** The buffer never holds more than one chunk when a response arrives. */
  predicate FitsOnArrival(chunkSize: nat, held: nat, rs: seq<Bytes>)
    decreases |rs|
  {
    |rs| == 0 || (held <= chunkSize && FitsOnArrival(chunkSize, NextHeld(chunkSize, held, |rs[0]|), rs[1..]))
  }

  lemma SplitFull(chunkSize: nat, chunk: Bytes, rest: Bytes)
    requires 0 < chunkSize == |chunk|
    ensures Split(chunkSize, chunk + rest) == [chunk] + Split(chunkSize, rest)
  {
    if |rest| == 0 {
      assert chunk + rest == chunk;
    } else {
      assert (chunk + rest)[..chunkSize] == chunk && (chunk + rest)[chunkSize..] == rest;
    }
  }

  /** A buffer that holds at most a chunk cuts chunks of exactly the right size. */
  lemma FeedWithinChunk(chunkSize: nat, held: Bytes, data: Bytes)
    requires 0 < chunkSize && |held| <= chunkSize
    ensures var fed := Feed(chunkSize, held, data);
      && |fed.rest| == NextHeld(chunkSize, |held|, |data|)
      && (fed.Cut? ==> |fed.chunk| == chunkSize)
  {
    FeedConserves(chunkSize, held, data);
    CutAnywhere(data, chunkSize - |held|);
  }

  /** Once the buffer holds more than a chunk, the next chunk is too long. */
  lemma OverfullChunk(chunkSize: nat, held: Bytes, rs: seq<Bytes>)
    requires 0 < chunkSize < |held|
    ensures var chunks := Chunks(Rechunk(chunkSize, held, true, rs));
      |NonEmpty(chunks)| > 0 && |NonEmpty(chunks)[0]| > chunkSize
  {
    RechunkParts(chunkSize, held, true, rs);
    if |rs| > 0 {
      FeedConserves(chunkSize, held, rs[0]);
    }
  }

  /** If no response is empty, then no chunk is. */
  lemma {:induction false} NoEmptyChunks(chunkSize: nat, held: Bytes, pending: bool, rs: seq<Bytes>)
    requires chunkSize > 0 && (pending <==> held != []) && forall r :: r in rs ==> r != []
    ensures var chunks := Chunks(Rechunk(chunkSize, held, pending, rs));
      (forall i | 0 <= i < |chunks| :: chunks[i] != []) && NonEmpty(chunks) == chunks
    decreases |rs|
  {
    var chunks := Chunks(Rechunk(chunkSize, held, pending, rs));
    RechunkParts(chunkSize, held, pending, rs);
    if |rs| > 0 {
      assert rs[0] in rs;
      FeedIs(chunkSize, held, rs[0]);
      FeedConserves(chunkSize, held, rs[0]);
      var fed := Feed(chunkSize, held, rs[0]);
      assert forall r :: r in rs[1..] ==> r in rs;
      NoEmptyChunks(chunkSize, fed.rest, fed.Pending(), rs[1..]);
    }
    AllNonEmpty(chunks);
  }

  lemma {:induction false} AllNonEmpty(chunks: seq<Bytes>)
    requires forall i | 0 <= i < |chunks| :: chunks[i] != []
    ensures NonEmpty(chunks) == chunks
  {
    if |chunks| > 0 {
      AllNonEmpty(chunks[1..]);
    }
  }

  lemma NonEmptyCons(chunk: Bytes, rest: seq<Bytes>)
    requires |chunk| > 0
    ensures NonEmpty([chunk] + rest) == [chunk] + NonEmpty(rest)
  {
    assert ([chunk] + rest)[1..] == rest;
  }

  lemma SameTail<T>(p: seq<T>, a: seq<T>, b: seq<T>)
    ensures p + a == p + b <==> a == b
  {
    if p + a == p + b {
      assert a == (p + a)[|p|..];
      assert b == (p + b)[|p|..];
    }
  }

  /** Whatever the response boundaries are, the non-empty chunks are the canonical split of the
      content exactly when the buffer never holds more than one chunk. */
  lemma {:induction false} CanonicalIffFits(chunkSize: nat, held: Bytes, pending: bool, rs: seq<Bytes>)
    requires chunkSize > 0 && (pending || held == [])
    ensures NonEmpty(Chunks(Rechunk(chunkSize, held, pending, rs))) == Split(chunkSize, held + Join(rs))
        <==> Fits(chunkSize, |held|, rs)
    decreases |rs|
  {
    var whole := held + Join(rs);
    if |held| > chunkSize {
      OverfullChunk(chunkSize, held, rs);
    } else if |rs| == 0 {
      RechunkParts(chunkSize, held, pending, rs);
      assert whole == held;
      assert NonEmpty([]) == [] && NonEmpty([held]) == if |held| == 0 then [] else [held];
    } else {
      var fed := Feed(chunkSize, held, rs[0]);
      var tail := Rechunk(chunkSize, fed.rest, fed.Pending(), rs[1..]);
      RechunkParts(chunkSize, held, pending, rs);
      FeedWithinChunk(chunkSize, held, rs[0]);
      FeedRegroups(chunkSize, held, rs);
      CanonicalIffFits(chunkSize, fed.rest, fed.Pending(), rs[1..]);
      var later := fed.rest + Join(rs[1..]);
      if fed.Cut? {
        SplitFull(chunkSize, fed.chunk, later);
        NonEmptyCons(fed.chunk, Chunks(tail));
        SameTail([fed.chunk], NonEmpty(Chunks(tail)), Split(chunkSize, later));
      }
    }
  }

  /** The progress steps add up to the content length exactly when no response meets a buffer
      that already holds more than one chunk. */
  lemma {:induction false} ExactIffFitsOnArrival(chunkSize: nat, held: Bytes, pending: bool, rs: seq<Bytes>)
    requires chunkSize > 0 && (pending || held == [])
    ensures Counter(Rechunk(chunkSize, held, pending, rs)) == |held + Join(rs)|
        <==> FitsOnArrival(chunkSize, |held|, rs)
    decreases |rs|
  {
    RechunkParts(chunkSize, held, pending, rs);
    if |rs| > 0 {
      var fed := Feed(chunkSize, held, rs[0]);
      var tail := Rechunk(chunkSize, fed.rest, fed.Pending(), rs[1..]);
      FeedConserves(chunkSize, held, rs[0]);
      NeverOverstates(chunkSize, fed.rest, fed.Pending(), rs[1..], |tail|);
      Conservation(chunkSize, fed.rest, fed.Pending(), rs[1..]);
      assert tail[..|tail|] == tail;
      if |held| <= chunkSize {
        FeedWithinChunk(chunkSize, held, rs[0]);
        ExactIffFitsOnArrival(chunkSize, fed.rest, fed.Pending(), rs[1..]);
      }
    }
  }

  /** Responses of at most `chunkSize` bytes always fit. */
  lemma {:induction false} SmallResponsesFit(chunkSize: nat, held: nat, rs: seq<Bytes>)
    requires held <= chunkSize
    requires forall r :: r in rs ==> |r| <= chunkSize
    ensures Fits(chunkSize, held, rs) && FitsOnArrival(chunkSize, held, rs)
    decreases |rs|
  {
    if |rs| > 0 {
      assert rs[0] in rs;
      SmallResponsesFit(chunkSize, NextHeld(chunkSize, held, |rs[0]|), rs[1..]);
    }
  }

  /** Whatever the response boundaries are, as long as no response exceeds `chunkSize`. */
  lemma SmallResponsesAreCanonical(chunkSize: nat, rs: seq<Bytes>)
    requires chunkSize > 0
    requires forall r :: r in rs ==> |r| <= chunkSize
    ensures NonEmpty(Chunks(Rechunk(chunkSize, [], false, rs))) == Split(chunkSize, Join(rs))
    ensures Counter(Rechunk(chunkSize, [], false, rs)) == |Join(rs)|
    ensures [] !in rs ==> Chunks(Rechunk(chunkSize, [], false, rs)) == Split(chunkSize, Join(rs))
  {
    if [] !in rs {
      NoEmptyChunks(chunkSize, [], false, rs);
    }
    SmallResponsesFit(chunkSize, 0, rs);
    CanonicalIffFits(chunkSize, [], false, rs);
    ExactIffFitsOnArrival(chunkSize, [], false, rs);
    assert [] + Join(rs) == Join(rs);
  }
}
