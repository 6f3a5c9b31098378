/** The parts of Python's `bytes` semantics that the chunking code leans on. */
module Python {

  newtype byte = x: int | 0 <= x < 256

  type Bytes = seq<byte>

  /** Where a slice bound lands in a sequence of length `n`: a negative bound counts
      from the end, and every bound is clamped into the sequence. */
  function Bound(i: int, n: nat): (k: nat)
    ensures k <= n
  {
    if i < 0 then (if i + n < 0 then 0 else i + n) else if i > n then n else i
  }

  /** `s[lo:hi]`. */
  function Slice(s: Bytes, lo: int, hi: int): Bytes {
    var a, b := Bound(lo, |s|), Bound(hi, |s|);
    if a <= b then s[a..b] else []
  }

  /** `s[lo:]`. */
  function SliceFrom(s: Bytes, lo: int): Bytes {
    s[Bound(lo, |s|)..]
  }

  /** Cutting at any bound, negative or out of range, loses and repeats nothing. */
  lemma CutAnywhere(s: Bytes, p: int)
    ensures Slice(s, 0, p) + SliceFrom(s, p) == s
    ensures |Slice(s, 0, p)| == Bound(p, |s|)
    ensures 0 <= p <= |s| ==> SliceFrom(s, p) == s[p..]
    ensures 0 < -p <= |s| ==> SliceFrom(s, p) == s[|s| + p..]
    ensures p > |s| ==> SliceFrom(s, p) == []
    ensures -p > |s| ==> SliceFrom(s, p) == s
  {
    assert s[..Bound(p, |s|)] + s[Bound(p, |s|)..] == s;
  }

  /** `b"".join(parts)`. */
  function Join(parts: seq<Bytes>): Bytes {
    if |parts| == 0 then [] else parts[0] + Join(parts[1..])
  }

  lemma {:induction false} JoinConcat(a: seq<Bytes>, b: seq<Bytes>)
    ensures Join(a + b) == Join(a) + Join(b)
  {
    if a == [] {
      assert a + b == b;
    } else {
      JoinConcat(a[1..], b);
      assert (a + b)[1..] == a[1..] + b;
      Associative(a[0], Join(a[1..]), Join(b));
    }
  }

  lemma JoinOne(b: Bytes)
    ensures Join([b]) == b
  {
    assert Join([b][1..]) == [];
  }

  lemma JoinAppend(parts: seq<Bytes>, b: Bytes)
    ensures Join(parts + [b]) == Join(parts) + b
  {
    JoinConcat(parts, [b]);
    JoinOne(b);
  }

  lemma Associative<T>(a: seq<T>, b: seq<T>, c: seq<T>)
    ensures (a + b) + c == a + (b + c)
  {
  }
}
