/** The JavaScript values that `JSON.parse` produces (plus `undefined`), their
    truthiness, property access, and `safelyGetNestedValue`. */
module JsValue {
  import opened JsString

  /** A parsed JSON value, or `undefined` (what a missing property yields).
      Numbers are integers: token counts are the only numbers read. */
  datatype Value =
    | Undefined
    | Null
    | Bool(b: bool)
    | Num(n: int)
    | Str(s: string)
    | Arr(items: seq<Value>)
    | Obj(fields: map<string, Value>)

  /** JavaScript truthiness: `undefined`, `null`, `false`, `0` and `""` are
      falsy; every array and object, even an empty one, is truthy. */
  predicate Truthy(v: Value)
  {
    match v
    case Undefined => false
    case Null => false
    case Bool(b) => b
    case Num(n) => n != 0
    case Str(s) => s != ""
    case Arr(_) => true
    case Obj(_) => true
  }

  /** `v[key]` for a truthy `v`: an own property of an object, `undefined`
      for a missing key and for the properties of any other kind of value. */
  function Prop(v: Value, key: string): Value
  {
    match v
    case Obj(fields) => if key in fields then fields[key] else Undefined
    case _ => Undefined
  }

  /** `parts.reduce((acc, part) => acc && acc[part], v)`: follow the segments
      while the current value is truthy; a falsy value is carried through
      unchanged, so the fold never dereferences `null` or `undefined`. */
  function Lookup(v: Value, parts: seq<string>): (r: Value)
    decreases |parts|
    ensures !Truthy(v) ==> r == v
  {
    if parts == [] then v
    else Lookup(if Truthy(v) then Prop(v, parts[0]) else v, parts[1..])
  }

  /** Following `p + q` is following `p`, then `q` from where `p` ended. */
  lemma {:induction false} LookupAppend(v: Value, p: seq<string>, q: seq<string>)
    ensures Lookup(v, p + q) == Lookup(Lookup(v, p), q)
    decreases |p|
  {
    if p == [] {
      assert p + q == q;
    } else {
      assert (p + q)[0] == p[0] && (p + q)[1..] == p[1..] + q;
      LookupAppend(if Truthy(v) then Prop(v, p[0]) else v, p[1..], q);
    }
  }

  /** A falsy value met anywhere on the way is the result of the whole
      lookup: the rest of the path is never followed. */
  lemma FalsyCarries(v: Value, p: seq<string>, q: seq<string>)
    requires !Truthy(Lookup(v, p))
    ensures Lookup(v, p + q) == Lookup(v, p)
  {
    LookupAppend(v, p, q);
  }

  /** A missing key anywhere on the way yields `undefined`: after the prefix
      `p` the value is truthy but has no property `k`. */
  lemma LookupMissing(v: Value, p: seq<string>, k: string, q: seq<string>)
    requires Truthy(Lookup(v, p)) && Prop(Lookup(v, p), k) == Undefined
    ensures Lookup(v, p + [k] + q) == Undefined
  {
    assert p + [k] + q == p + ([k] + q);
    LookupAppend(v, p, [k] + q);
    assert ([k] + q)[0] == k && ([k] + q)[1..] == q;
  }

  /** Following a path through nested objects that all have the key yields the
      innermost value, whatever it is. */
  lemma {:induction false} LookupThroughObjects(v: Value, parts: seq<string>, leaf: Value)
    requires Reaches(v, parts, leaf)
    ensures Lookup(v, parts) == leaf
  {
    if parts != [] {
      LookupThroughObjects(v.fields[parts[0]], parts[1..], leaf);
    }
  }

  /** `v` is a chain of objects along `parts` ending in `leaf`. */
  predicate Reaches(v: Value, parts: seq<string>, leaf: Value)
  {
    if parts == [] then v == leaf
    else v.Obj? && parts[0] in v.fields && Reaches(v.fields[parts[0]], parts[1..], leaf)
  }

  /** `safelyGetNestedValue(obj, path)`: the fold over `path.split('.')`.
      It never dereferences a falsy value: on `null` or `undefined` it gives
      that value back. */
  function SafelyGetNestedValue(obj: Value, path: string): (r: Value)
    ensures !Truthy(obj) ==> r == obj
  {
    Lookup(obj, Split(path, "."))
  }

  /** A string without `c` contains no occurrence of the one-character string `[c]`. */
  lemma NoCharNoOccurrence(p: string, c: char)
    requires forall k :: 0 <= k < |p| ==> p[k] != c
    ensures IndexOf(p, [c]).None?
  {
    forall j | 0 <= j < |p|
      ensures !OccursAt(p, [c], j)
    {
      assert p[j..j + 1] == [p[j]];
    }
  }

  /** For a one-character separator, a piece free of it has its first
      occurrence at the separator appended to it. */
  lemma CharSeparatorAtEnd(p: string, c: char)
    requires forall k :: 0 <= k < |p| ==> p[k] != c
    ensures SeparatorFirstAtEnd(p, [c])
  {
    var s := p + [c];
    assert OccursAt(s, [c], |p|);
    forall j | 0 <= j < |p|
      ensures !OccursAt(s, [c], j)
    {
      assert s[j..j + 1] == [p[j]];
    }
    IndexOfIsFirst(s, [c], |p|);
  }

  /** Splitting a joined list of pieces free of a one-character separator
      gives back the pieces. */
  lemma SplitOnChar(parts: seq<string>, c: char)
    requires |parts| >= 1
    requires forall i, k :: 0 <= i < |parts| && 0 <= k < |parts[i]| ==> parts[i][k] != c
    ensures Split(Join(parts, [c]), [c]) == parts
  {
    forall i | 0 <= i < |parts|
      ensures SeparatorFirstAtEnd(parts[i], [c]) && IndexOf(parts[i], [c]).None?
    {
      CharSeparatorAtEnd(parts[i], c);
      NoCharNoOccurrence(parts[i], c);
    }
    SplitJoin(parts, [c]);
  }
}
