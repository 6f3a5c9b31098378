/** Parsed JSON with objects as Python dictionaries: ordered, each key at most once. */
module Json {
  import opened Wrappers

  type Fields = seq<(string, Json)>

  datatype Json = Null | Bool(b: bool) | Num(n: int) | Str(s: string) | Arr(items: seq<Json>) | Obj(fields: Fields)

  /** What reading a value out of a document can raise. */
  datatype DataError =
    | InvalidJson
    | NoSuchKeys(keys: seq<string>)   // the ValueError of `_get_value`
    | KeyError(key: string)           // a subscript on a missing key
    | WrongType                       // an operation the value does not have

  function Lookup(fields: Fields, key: string): Option<Json> {
    if |fields| == 0 then None
    else if fields[0].0 == key then Some(fields[0].1)
    else Lookup(fields[1..], key)
  }

  /** `d[key] = value`: in place when the key is present, else at the end. */
  function Set(fields: Fields, key: string, value: Json): Fields {
    if |fields| == 0 then [(key, value)]
    else if fields[0].0 == key then [(key, value)] + fields[1..]
    else [fields[0]] + Set(fields[1..], key, value)
  }

  /** `_get_value`: the first of `keys` whose value is present and not None. */
  function GetValue(d: Json, keys: seq<string>): Result<Json, DataError> {
    if !d.Obj? then Err(WrongType) else FirstOf(d.fields, keys, keys)
  }

  function FirstOf(fields: Fields, keys: seq<string>, all: seq<string>): Result<Json, DataError> {
    if |keys| == 0 then Err(NoSuchKeys(all))
    else
      match Lookup(fields, keys[0])
      case Some(v) => if v.Null? then FirstOf(fields, keys[1..], all) else Ok(v)
      case None => FirstOf(fields, keys[1..], all)
  }

  /** `d[key]`. */
  function Subscript(d: Json, key: string): Result<Json, DataError> {
    if !d.Obj? then Err(WrongType)
    else
      match Lookup(d.fields, key)
      case Some(v) => Ok(v)
      case None => Err(KeyError(key))
  }

  /** The value at a key is that of its first field, and is missing exactly where no field has the key. */
  lemma {:induction false} LookupIs(fields: Fields, key: string, v: Json)
    ensures Lookup(fields, key) == Some(v) <==> exists i :: FirstField(fields, key, i) && fields[i].1 == v
    ensures Lookup(fields, key) == None <==> forall i | 0 <= i < |fields| :: fields[i].0 != key
  {
    if |fields| > 0 && fields[0].0 != key {
      var rest := fields[1..];
      LookupIs(rest, key, v);
      if i :| FirstField(rest, key, i) && rest[i].1 == v {
        assert FirstField(fields, key, i + 1);
      }
      if i :| FirstField(fields, key, i) && fields[i].1 == v {
        assert FirstField(rest, key, i - 1);
      }
      if forall i | 0 <= i < |rest| :: rest[i].0 != key {
        assert forall i | 0 <= i < |fields| :: i > 0 ==> fields[i] == rest[i - 1];
      }
      if forall i | 0 <= i < |fields| :: fields[i].0 != key {
        assert forall i | 0 <= i < |rest| :: rest[i] == fields[i + 1];
      }
    } else if |fields| > 0 {
      assert FirstField(fields, key, 0);
    }
  }

  ghost predicate FirstField(fields: Fields, key: string, i: int) {
    0 <= i < |fields| && fields[i].0 == key && forall j | 0 <= j < i :: fields[j].0 != key
  }

  /** `d` has the value `v`, that is not None, under one of two spellings of a key; the first one counts. */
  predicate Field(d: Json, first: string, second: string, v: Json) {
    && d.Obj? && !v.Null?
    && (Lookup(d.fields, first) == Some(v) || (Absent(d.fields, first) && Lookup(d.fields, second) == Some(v)))
  }

  /** The key is missing, or its value is None. */
  predicate Absent(fields: Fields, key: string) {
    Lookup(fields, key) == None || Lookup(fields, key) == Some(Null)
  }

  /** What `_get_value` returns for two spellings is the value under them, and its error names both. */
  lemma FieldIs(d: Json, first: string, second: string)
    ensures forall v :: GetValue(d, [first, second]) == Ok(v) <==> Field(d, first, second, v)
    ensures d.Obj? ==>
      (GetValue(d, [first, second]).Err? <==> Absent(d.fields, first) && Absent(d.fields, second))
    ensures d.Obj? && GetValue(d, [first, second]).Err? ==>
      GetValue(d, [first, second]) == Err(NoSuchKeys([first, second]))
    ensures !d.Obj? ==> GetValue(d, [first, second]) == Err(WrongType)
  {
    var keys := [first, second];
    assert keys[1..] == [second] && keys[1..][1..] == [];
    if d.Obj? {
      assert FirstOf(d.fields, keys[1..][1..], keys) == Err(NoSuchKeys(keys));
      assert FirstOf(d.fields, keys[1..], keys) ==
        if Absent(d.fields, second) then Err(NoSuchKeys(keys)) else Ok(Lookup(d.fields, second).value);
    }
  }

  /** A dictionary holds each key once, at every depth: what `json.dumps` can be given. */
  ghost predicate WellKeyed(j: Json) {
    match j
    case Arr(items) => forall i | 0 <= i < |items| :: WellKeyed(items[i])
    case Obj(fields) => Distinct(fields) && forall i | 0 <= i < |fields| :: WellKeyed(fields[i].1)
    case _ => true
  }

  ghost predicate Distinct(fields: Fields) {
    forall i, j | 0 <= i < j < |fields| :: fields[i].0 != fields[j].0
  }

  /** Reading what was set, and everything else untouched. */
  lemma {:induction false} LookupSet(fields: Fields, key: string, value: Json, other: string)
    ensures Lookup(Set(fields, key, value), other) == if other == key then Some(value) else Lookup(fields, other)
  {
    if |fields| > 0 && fields[0].0 != key {
      LookupSet(fields[1..], key, value, other);
      assert Set(fields, key, value)[1..] == Set(fields[1..], key, value);
    } else if |fields| > 0 {
      assert Set(fields, key, value)[1..] == fields[1..];
    }
  }

  /** A later assignment to the same key forgets the earlier one, and keeps its place. */
  lemma {:induction false} SetSet(fields: Fields, key: string, a: Json, b: Json)
    ensures Set(Set(fields, key, a), key, b) == Set(fields, key, b)
  {
    if |fields| == 0 {
      assert [(key, a)][1..] == [];
    } else if fields[0].0 == key {
      assert ([(key, a)] + fields[1..])[1..] == fields[1..];
    } else {
      SetSet(fields[1..], key, a, b);
      assert Set(fields, key, a)[1..] == Set(fields[1..], key, a);
    }
  }

  lemma {:induction false} SetKeys(fields: Fields, key: string, value: Json, i: nat)
    requires i < |Set(fields, key, value)|
    ensures |fields| <= |Set(fields, key, value)|
    ensures Set(fields, key, value)[i].0 == if i < |fields| then fields[i].0 else key
    ensures Set(fields, key, value)[i] == (key, value) || (i < |fields| && Set(fields, key, value)[i] == fields[i])
    ensures Set(fields, key, value)[i].0 == key && i >= |fields| ==> forall j | 0 <= j < |fields| :: fields[j].0 != key
    ensures |Set(fields, key, value)| <= |fields| + 1
  {
    if |fields| > 0 && fields[0].0 != key {
      if i > 0 {
        SetKeys(fields[1..], key, value, i - 1);
      } else {
        SetKeysLength(fields[1..], key, value);
      }
    }
  }

  lemma {:induction false} SetKeysLength(fields: Fields, key: string, value: Json)
    ensures |fields| <= |Set(fields, key, value)| <= |fields| + 1
  {
    if |fields| > 0 && fields[0].0 != key {
      SetKeysLength(fields[1..], key, value);
    }
  }

  lemma SetWellKeyed(fields: Fields, key: string, value: Json)
    requires WellKeyed(Obj(fields)) && WellKeyed(value)
    ensures WellKeyed(Obj(Set(fields, key, value)))
  {
    var s := Set(fields, key, value);
    forall i, j | 0 <= i < j < |s|
      ensures s[i].0 != s[j].0
    {
      SetKeys(fields, key, value, i);
      SetKeys(fields, key, value, j);
    }
    forall i | 0 <= i < |s|
      ensures WellKeyed(s[i].1)
    {
      SetKeys(fields, key, value, i);
    }
  }

  lemma {:induction false} LookupWellKeyed(fields: Fields, key: string)
    requires forall i | 0 <= i < |fields| :: WellKeyed(fields[i].1)
    ensures Lookup(fields, key).Some? ==> WellKeyed(Lookup(fields, key).value)
  {
    if |fields| > 0 {
      LookupWellKeyed(fields[1..], key);
    }
  }

  lemma {:induction false} FirstOfWellKeyed(fields: Fields, keys: seq<string>, all: seq<string>)
    requires WellKeyed(Obj(fields))
    ensures FirstOf(fields, keys, all).Ok? ==> WellKeyed(FirstOf(fields, keys, all).value)
  {
    if |keys| > 0 {
      LookupWellKeyed(fields, keys[0]);
      FirstOfWellKeyed(fields, keys[1..], all);
    }
  }
}
