/** What is assumed of outside code can be met: a printer, a parser and a diff that keep `Lib.Valid`. */
module Contracts {
  import opened Wrappers
  import opened Python
  import opened Json
  import opened Digests

  // ---------------------------------------------------------------- encodings that read back

  /** What follows the first byte. */
  lemma Tail(s: byte, p: Bytes, x: Bytes, t: byte, q: Bytes, y: Bytes)
    requires ([s] + p) + x == ([t] + q) + y
    ensures s == t && p + x == q + y
    ensures |p| == 0 && |q| == 0 ==> x == y
  {
    assert |p| == 0 && |q| == 0 ==> p + x == x && q + y == y;
    assert (([s] + p) + x)[0] == s && (([t] + q) + y)[0] == t;
    assert (([s] + p) + x)[1..] == p + x && (([t] + q) + y)[1..] == q + y;
  }

  function Nat(n: nat): Bytes {
    if n == 0 then [0] + [] else [1] + Nat(n - 1)
  }

  /** No encoding is the beginning of another, so what follows one is determined. */
  lemma {:induction false} NatReads(a: nat, b: nat, x: Bytes, y: Bytes)
    requires Nat(a) + x == Nat(b) + y
    ensures a == b && x == y
  {
    var p, q := if a == 0 then [] else Nat(a - 1), if b == 0 then [] else Nat(b - 1);
    Tail(if a == 0 then 0 else 1, p, x, if b == 0 then 0 else 1, q, y);
    if a > 0 {
      NatReads(a - 1, b - 1, x, y);
    }
  }

  function Int(n: int): Bytes {
    if n < 0 then [1] + Nat(-n) else [0] + Nat(n)
  }

  lemma IntReads(a: int, b: int, x: Bytes, y: Bytes)
    requires Int(a) + x == Int(b) + y
    ensures a == b && x == y
  {
    hide Nat;
    var p, q := if a < 0 then -a else a, if b < 0 then -b else b;
    Tail(if a < 0 then 1 else 0, Nat(p), x, if b < 0 then 1 else 0, Nat(q), y);
    NatReads(p, q, x, y);
  }

  function Text(s: string): Bytes {
    if |s| == 0 then [0] + [] else [1] + (Nat(s[0] as nat) + Text(s[1..]))
  }

  lemma {:induction false} TextReads(a: string, b: string, x: Bytes, y: Bytes)
    requires Text(a) + x == Text(b) + y
    ensures a == b && x == y
    decreases |a|
  {
    hide Nat;
    var p := if |a| == 0 then [] else Nat(a[0] as nat) + Text(a[1..]);
    var q := if |b| == 0 then [] else Nat(b[0] as nat) + Text(b[1..]);
    Tail(if |a| == 0 then 0 else 1, p, x, if |b| == 0 then 0 else 1, q, y);
    if |a| > 0 {
      Associative(Nat(a[0] as nat), Text(a[1..]), x);
      Associative(Nat(b[0] as nat), Text(b[1..]), y);
      NatReads(a[0] as nat, b[0] as nat, Text(a[1..]) + x, Text(b[1..]) + y);
      TextReads(a[1..], b[1..], x, y);
      assert a == [a[0]] + a[1..] && b == [b[0]] + b[1..];
    }
  }

  function Tag(j: Json): byte {
    match j
    case Null => 0
    case Bool(_) => 1
    case Num(_) => 2
    case Str(_) => 3
    case Arr(_) => 4
    case Obj(_) => 5
  }

  function Body(j: Json): Bytes
    decreases j, 0
  {
    match j
    case Null => []
    case Bool(b) => Nat(if b then 1 else 0)
    case Num(n) => Int(n)
    case Str(s) => Text(s)
    case Arr(items) => DumpItems(items)
    case Obj(fields) => DumpFields(fields)
  }

  function Dump(j: Json): Bytes
    decreases j, 1
  {
    [Tag(j)] + Body(j)
  }

  function DumpItems(items: seq<Json>): Bytes {
    if |items| == 0 then [0] + [] else [1] + (Dump(items[0]) + DumpItems(items[1..]))
  }

  function DumpField(field: (string, Json)): Bytes {
    Text(field.0) + Dump(field.1)
  }

  function DumpFields(fields: Fields): Bytes {
    if |fields| == 0 then [0] + [] else [1] + (DumpField(fields[0]) + DumpFields(fields[1..]))
  }

  lemma {:induction false} DumpReads(a: Json, b: Json, x: Bytes, y: Bytes)
    requires Dump(a) + x == Dump(b) + y
    ensures a == b && x == y
    decreases a
  {
    hide Nat, Int, Text, DumpItems, DumpFields;
    Tail(Tag(a), Body(a), x, Tag(b), Body(b), y);
    match a
    case Null => assert [] + x == x && [] + y == y;
    case Bool(p) => NatReads(if p then 1 else 0, if b.b then 1 else 0, x, y);
    case Num(n) => IntReads(n, b.n, x, y);
    case Str(s) => TextReads(s, b.s, x, y);
    case Arr(items) => ItemsRead(items, b.items, x, y);
    case Obj(fields) => FieldsRead(fields, b.fields, x, y);
  }

  lemma {:induction false} ItemsRead(a: seq<Json>, b: seq<Json>, x: Bytes, y: Bytes)
    requires DumpItems(a) + x == DumpItems(b) + y
    ensures a == b && x == y
    decreases a
  {
    hide Dump;
    var p := if |a| == 0 then [] else Dump(a[0]) + DumpItems(a[1..]);
    var q := if |b| == 0 then [] else Dump(b[0]) + DumpItems(b[1..]);
    Tail(if |a| == 0 then 0 else 1, p, x, if |b| == 0 then 0 else 1, q, y);
    if |a| > 0 {
      Associative(Dump(a[0]), DumpItems(a[1..]), x);
      Associative(Dump(b[0]), DumpItems(b[1..]), y);
      DumpReads(a[0], b[0], DumpItems(a[1..]) + x, DumpItems(b[1..]) + y);
      ItemsRead(a[1..], b[1..], x, y);
      assert a == [a[0]] + a[1..] && b == [b[0]] + b[1..];
    }
  }

  lemma {:induction false} FieldReads(a: (string, Json), b: (string, Json), x: Bytes, y: Bytes)
    requires DumpField(a) + x == DumpField(b) + y
    ensures a == b && x == y
    decreases a
  {
    hide Text, Dump;
    Associative(Text(a.0), Dump(a.1), x);
    Associative(Text(b.0), Dump(b.1), y);
    TextReads(a.0, b.0, Dump(a.1) + x, Dump(b.1) + y);
    DumpReads(a.1, b.1, x, y);
  }

  lemma {:induction false} FieldsRead(a: Fields, b: Fields, x: Bytes, y: Bytes)
    requires DumpFields(a) + x == DumpFields(b) + y
    ensures a == b && x == y
    decreases a
  {
    hide DumpField;
    var p := if |a| == 0 then [] else DumpField(a[0]) + DumpFields(a[1..]);
    var q := if |b| == 0 then [] else DumpField(b[0]) + DumpFields(b[1..]);
    Tail(if |a| == 0 then 0 else 1, p, x, if |b| == 0 then 0 else 1, q, y);
    if |a| > 0 {
      Associative(DumpField(a[0]), DumpFields(a[1..]), x);
      Associative(DumpField(b[0]), DumpFields(b[1..]), y);
      FieldReads(a[0], b[0], DumpFields(a[1..]) + x, DumpFields(b[1..]) + y);
      FieldsRead(a[1..], b[1..], x, y);
      assert a == [a[0]] + a[1..] && b == [b[0]] + b[1..];
    }
  }

  /** The value that prints as `data`, if there is one. */
  ghost function Load(data: Bytes): Option<Json> {
    if exists v :: WellKeyed(v) && Dump(v) == data then
      var v :| WellKeyed(v) && Dump(v) == data;
      Some(v)
    else None
  }

  lemma LoadDumps(v: Json)
    requires WellKeyed(v)
    ensures Load(Dump(v)) == Some(v)
  {
    var w := Load(Dump(v)).value;
    DumpReads(v, w, [], []);
  }

  // ---------------------------------------------------------------- a diff

  ghost function Files(fs: FileSystem): Bytes
    decreases |fs|
  {
    if |fs| == 0 then [0]
    else
      var path :| path in fs;
      [1] + (File(path, fs[path]) + Files(fs - {path}))
  }

  ghost function File(path: string, data: Bytes): Bytes {
    Text(path) + (Nat(|data|) + data)
  }

  lemma FileReads(p: string, a: Bytes, q: string, b: Bytes, x: Bytes, y: Bytes)
    requires File(p, a) + x == File(q, b) + y
    ensures p == q && a == b && x == y
  {
    hide Text, Nat;
    Associative(Text(p), Nat(|a|) + a, x);
    Associative(Text(q), Nat(|b|) + b, y);
    Associative(Nat(|a|), a, x);
    Associative(Nat(|b|), b, y);
    TextReads(p, q, (Nat(|a|) + a) + x, (Nat(|b|) + b) + y);
    NatReads(|a|, |b|, a + x, b + y);
    assert a == (a + x)[..|a|] && b == (b + y)[..|b|] && x == (a + x)[|a|..] && y == (b + y)[|b|..];
  }

  lemma {:induction false} FilesRead(a: FileSystem, b: FileSystem)
    requires Files(a) == Files(b)
    ensures a == b
    decreases |a|
  {
    hide File;
    assert Files(a)[0] == Files(b)[0];
    if |a| > 0 {
      var p: string :| p in a && Files(a) == [1] + (File(p, a[p]) + Files(a - {p}));
      var q: string :| q in b && Files(b) == [1] + (File(q, b[q]) + Files(b - {q}));
      assert Files(a)[1..] == File(p, a[p]) + Files(a - {p}) && Files(b)[1..] == File(q, b[q]) + Files(b - {q});
      FileReads(p, a[p], q, b[q], Files(a - {p}), Files(b - {q}));
      FilesRead(a - {p}, b - {q});
      assert a == (a - {p})[p := a[p]] && b == (b - {q})[q := b[q]];
    } else {
      assert |b| == 0;
    }
  }

  /** A diff that holds the whole right side. */
  ghost function Applied(left: FileSystem, layer: Bytes): FileSystem {
    if exists fs :: Files(fs) == layer then
      var fs :| Files(fs) == layer;
      fs
    else left
  }

  lemma AppliedFiles(left: FileSystem, right: FileSystem)
    ensures Applied(left, Files(right)) == right
  {
    FilesRead(Applied(left, Files(right)), right);
  }

  /** The assumptions made of outside code are consistent, for every hash. */
  lemma Consistent(sha256: Bytes -> string, lower: string -> string) returns (lib: Lib)
    ensures lib.Valid() && Injective(lib)
    ensures lib.sha256 == sha256 && lib.lower == lower
    ensures forall v :: lib.dumps(v) == Dump(v)
    ensures forall l, r :: lib.diff(l, r) == Files(r)
  {
    lib := Lib(sha256, s => Text(s), lower, j => Dump(j), data => Load(data),
               (l: FileSystem, r: FileSystem) => Files(r), (l, layer) => Applied(l, layer), layer => layer);
    forall v: Json | WellKeyed(v)
      ensures lib.loads(lib.dumps(v)) == Some(v)
    {
      LoadDumps(v);
    }
    forall l: FileSystem, r: FileSystem
      ensures lib.apply(l, lib.diff(l, r)) == r
    {
      AppliedFiles(l, r);
    }
    forall s: string, t: string | lib.encode(s) == lib.encode(t)
      ensures s == t
    {
      TextReads(s, t, [], []);
    }
  }
}
