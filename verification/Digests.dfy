/** Content digests, descriptors and the chain digest. */
module Digests {
  import opened Wrappers
  import opened Python
  import opened Json

  /** A file system as far as diffs are concerned: what is at each path. */
  type FileSystem = map<string, Bytes>

  /** The code the program calls into and does not contain. */
  datatype Lib = Lib(
    sha256: Bytes -> string,              // hashlib.sha256(..).hexdigest()
    encode: string -> Bytes,              // str.encode()
    lower: string -> string,              // str.lower()
    dumps: Json -> Bytes,                 // json.dumps(..).encode()
    loads: Bytes -> Option<Json>,         // json.loads(..), None when it raises
    diff: (FileSystem, FileSystem) -> Bytes,   // containerd's Diff: a compressed layer
    apply: (FileSystem, Bytes) -> FileSystem,  // applying such a layer
    uncompressed: Bytes -> Bytes)         // the layer before compression
  {
    /** Printing and parsing are inverse on dictionaries, and a diff leads from left to right. */
    ghost predicate Valid() {
      && (forall v: Json | WellKeyed(v) :: loads(dumps(v)) == Some(v))
      && (forall data: Bytes | loads(data).Some? :: WellKeyed(loads(data).value))
      && (forall l: FileSystem, r: FileSystem :: apply(l, diff(l, r)) == r)
    }

    /** `_create_digest` on bytes. */
    function Digest(data: Bytes): string {
      "sha256:" + sha256(data)
    }
  }

  /** Two different inputs with one hash. */
  ghost predicate Collision(lib: Lib, x: Bytes, y: Bytes) {
    x != y && lib.sha256(x) == lib.sha256(y)
  }

  lemma SameDigest(lib: Lib, x: Bytes, y: Bytes)
    ensures lib.Digest(x) == lib.Digest(y) <==> lib.sha256(x) == lib.sha256(y)
  {
    if lib.Digest(x) == lib.Digest(y) {
      assert lib.sha256(x) == lib.Digest(x)[7..] && lib.sha256(y) == lib.Digest(y)[7..];
    }
  }

  datatype Descriptor = Descriptor(mediaType: string, digest: string, size: int)
  {
    static function FromData(lib: Lib, mediaType: string, data: Json): Descriptor {
      var dump := lib.dumps(data);
      Descriptor(mediaType, lib.Digest(dump), |dump|)
    }

    static function Parse(content: Json): Result<Descriptor, DataError> {
      match (Subscript(content, "mediaType"), Subscript(content, "digest"), Subscript(content, "size"))
      case (Err(e), _, _) => Err(e)
      case (_, Err(e), _) => Err(e)
      case (_, _, Err(e)) => Err(e)
      case (Ok(m), Ok(d), Ok(s)) => if m.Str? && d.Str? && s.Num? then Ok(Descriptor(m.s, d.s, s.n)) else Err(WrongType)
    }

    function ToPrimitive(): Json {
      Obj([("mediaType", Str(mediaType)), ("digest", Str(digest)), ("size", Num(size))])
    }
  }

  /** A descriptor survives being written into a manifest and read back. */
  lemma ParseToPrimitive(d: Descriptor)
    ensures Descriptor.Parse(d.ToPrimitive()) == Ok(d)
    ensures WellKeyed(d.ToPrimitive())
    ensures GetValue(d.ToPrimitive(), ["digest", "Digest"]) == Ok(Str(d.digest))
    ensures d.ToPrimitive().Obj? && |d.ToPrimitive().fields| == 3
    ensures Lookup(d.ToPrimitive().fields, "mediaType") == Some(Str(d.mediaType))
    ensures Lookup(d.ToPrimitive().fields, "digest") == Some(Str(d.digest))
    ensures Lookup(d.ToPrimitive().fields, "size") == Some(Num(d.size))
  {
    var fields := d.ToPrimitive().fields;
    assert fields[1..][0] == ("digest", Str(d.digest)) && fields[1..][1..][0] == ("size", Num(d.size));
    assert Lookup(fields, "mediaType") == Some(Str(d.mediaType));
    assert "mediaType"[0] == 'm' && "digest"[0] == 'd' && "size"[0] == 's';
    assert Lookup(fields, "digest") == Some(Str(d.digest));
    assert Lookup(fields[1..][1..], "size") == Some(Num(d.size));
    assert Lookup(fields[1..], "size") == Some(Num(d.size));
    assert Lookup(fields, "size") == Some(Num(d.size));
  }

  // ---------------------------------------------------------------- the chain digest

  const SPACE: byte := 32

  function Joined(lib: Lib, a: string, b: string): Bytes {
    lib.encode(a) + [SPACE] + lib.encode(b)
  }

  function Link(lib: Lib, a: string, b: string): string {
    lib.Digest(Joined(lib, a, b))
  }

  /** `_create_digest_chain`: folds the two first elements into one, then recurses. */
  function DigestChain(lib: Lib, data: seq<string>): string
    requires |data| > 0
    decreases |data|
  {
    if |data| == 1 then data[0]
    else DigestChain(lib, [Link(lib, data[0], data[1])] + data[2..])
  }

  /** The definition of the OCI Image Specification, "OCI Image Configuration", section
      "Layer ChainID": the chain of all layers but the last, linked to the last. */
  function ChainId(lib: Lib, layers: seq<string>): string
    requires |layers| > 0
    decreases |layers|
  {
    var n := |layers| - 1;
    if n == 0 then layers[0] else Link(lib, ChainId(lib, layers[..n]), layers[n])
  }

  /** The descriptor of a document names the hash and the length of its printed form. */
  lemma DescriptorIs(lib: Lib, mediaType: string, data: Json)
    ensures var d := Descriptor.FromData(lib, mediaType, data);
      && d.mediaType == mediaType
      && d.digest == "sha256:" + lib.sha256(lib.dumps(data))
      && d.size == |lib.dumps(data)|
  {
  }

  /** Folding the first two layers does not change the chain. */
  lemma {:induction false} FoldFirst(lib: Lib, layers: seq<string>)
    requires |layers| > 1
    ensures ChainId(lib, [Link(lib, layers[0], layers[1])] + layers[2..]) == ChainId(lib, layers)
    decreases |layers|
  {
    var n := |layers| - 1;
    var folded := [Link(lib, layers[0], layers[1])] + layers[2..];
    if n == 1 {
      assert ChainId(lib, layers[..1]) == layers[0];
    } else {
      FoldFirst(lib, layers[..n]);
      assert layers[..n][2..] == layers[2..n];
      assert folded[..n - 1] == [Link(lib, layers[0], layers[1])] + layers[2..n];
      assert folded[n - 1] == layers[n];
    }
  }

  /** The code's head-first recursion computes the specification's ChainID. */
  lemma {:induction false} ChainIsChainId(lib: Lib, layers: seq<string>)
    requires |layers| > 0
    ensures DigestChain(lib, layers) == ChainId(lib, layers)
    ensures var n := |layers| - 1;
      DigestChain(lib, layers) ==
        if n == 0 then layers[0]
        else "sha256:" + lib.sha256(lib.encode(ChainId(lib, layers[..n])) + [32] + lib.encode(layers[n]))
    decreases |layers|
  {
    if |layers| > 1 {
      ChainIsChainId(lib, [Link(lib, layers[0], layers[1])] + layers[2..]);
      FoldFirst(lib, layers);
    }
  }

  ghost predicate SpaceFree(lib: Lib, layers: seq<string>) {
    forall i | 0 <= i < |layers| :: SPACE !in lib.encode(layers[i])
  }

  lemma LastSpace(a: Bytes, b: Bytes)
    requires SPACE !in b
    ensures var x := a + [SPACE] + b;
      x[|a|] == SPACE && forall i | |a| < i < |x| :: x[i] != SPACE
  {
    var x := a + [SPACE] + b;
    forall i | |a| < i < |x|
      ensures x[i] != SPACE
    {
      assert x[i] == b[i - |a| - 1];
    }
  }

  /** The last space tells the two parts of a link apart. */
  lemma SplitAtSpace(a: Bytes, b: Bytes, c: Bytes, d: Bytes)
    requires a + [SPACE] + b == c + [SPACE] + d
    requires SPACE !in b && SPACE !in d
    ensures a == c && b == d
  {
    LastSpace(a, b);
    LastSpace(c, d);
    var x, y := a + [SPACE] + b, c + [SPACE] + d;
    assert |a| == |c|;
    assert a == x[..|a|] && b == x[|a| + 1..];
    assert c == y[..|c|] && d == y[|c| + 1..];
  }

  ghost predicate Injective(lib: Lib) {
    forall s: string, t: string :: lib.encode(s) == lib.encode(t) ==> s == t
  }

  lemma LinkIsInjective(lib: Lib, p: string, a: string, q: string, b: string)
    requires Injective(lib) && Link(lib, p, a) == Link(lib, q, b)
    requires SPACE !in lib.encode(a) && SPACE !in lib.encode(b)
    ensures (p == q && a == b) || Collision(lib, Joined(lib, p, a), Joined(lib, q, b))
  {
    SameDigest(lib, Joined(lib, p, a), Joined(lib, q, b));
    if Joined(lib, p, a) == Joined(lib, q, b) {
      SplitAtSpace(lib.encode(p), lib.encode(a), lib.encode(q), lib.encode(b));
    }
  }

  lemma {:induction false} ChainIdIsInjective(lib: Lib, xs: seq<string>, ys: seq<string>) returns (x: Bytes, y: Bytes)
    requires Injective(lib)
    requires |xs| == |ys| > 0 && SpaceFree(lib, xs) && SpaceFree(lib, ys)
    requires ChainId(lib, xs) == ChainId(lib, ys)
    ensures Collision(lib, x, y) || forall i | 0 <= i < |xs| :: xs[i] == ys[i]
    decreases |xs|
  {
    x, y := [], [];
    var n := |xs| - 1;
    if n > 0 {
      var p, q := ChainId(lib, xs[..n]), ChainId(lib, ys[..n]);
      LinkIsInjective(lib, p, xs[n], q, ys[n]);
      if p == q && xs[n] == ys[n] {
        x, y := ChainIdIsInjective(lib, xs[..n], ys[..n]);
        assert forall i | 0 <= i < n :: xs[..n][i] == xs[i] && ys[..n][i] == ys[i];
      } else {
        x, y := Joined(lib, p, xs[n]), Joined(lib, q, ys[n]);
      }
    }
  }

  /** Equal chain digests of equally many space-free diff ids come from equal lists, unless the two
      lists lead to a hash collision, which is exhibited. */
  lemma ChainIsInjective(lib: Lib, xs: seq<string>, ys: seq<string>) returns (x: Bytes, y: Bytes)
    requires Injective(lib)
    requires |xs| == |ys| > 0 && SpaceFree(lib, xs) && SpaceFree(lib, ys)
    requires DigestChain(lib, xs) == DigestChain(lib, ys)
    ensures xs == ys || Collision(lib, x, y)
  {
    ChainIsChainId(lib, xs);
    ChainIsChainId(lib, ys);
    x, y := ChainIdIsInjective(lib, xs, ys);
  }

  /** Lists of different lengths share chain digests: the link of two layers is itself a layer list. */
  lemma DifferentLengthsCollide(lib: Lib, a: string, b: string)
    ensures DigestChain(lib, [a, b]) == DigestChain(lib, [Link(lib, a, b)])
  {
    assert [Link(lib, a, b)] + [a, b][2..] == [Link(lib, a, b)];
  }
}
