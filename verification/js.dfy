/** JavaScript values as the front end receives them from GraphQL, and the
    handful of JavaScript operations the renderers rely on: truthiness,
    property access, `String.prototype.split`, `objectPath.get` and `String(v)`. */
module Js {

  /** `None` stands for JavaScript's `undefined`. */
  datatype Option<+T> = None | Some(value: T)

  /** The outcome of evaluating an expression: a value, or a thrown TypeError
      (reading a property of `null`/`undefined`, calling `.map` on a non-array). */
  datatype Outcome<+T> = Ok(value: T) | Thrown {
    predicate IsFailure() {
      Thrown?
    }

    function PropagateFailure<U>(): Outcome<U>
      requires Thrown?
    {
      Thrown
    }

    function Extract(): T
      requires Ok?
    {
      value
    }
  }

  /** A JSON-like value: what a GraphQL response or a form holds. */
  datatype Value =
    | Null
    | Bool(b: bool)
    | Str(s: string)
    | Num(n: real)
    | Obj(fields: map<string, Value>)
    | List(elems: seq<Value>)

  /** The collaborators the model cannot see: JavaScript's number-to-string
      conversion and luxon's `DateTime.fromISO(v).toLocaleString(style)`. */
  datatype DateStyle = DateShort | DatetimeShort

  datatype Host = Host(numberText: real -> string, localeString: (Option<Value>, DateStyle) -> string)

  /** JavaScript truthiness: `null`, `false`, `''` and `0` are falsy (NaN cannot occur in a Value). */
  predicate Truthy(v: Value) {
    match v
    case Null => false
    case Bool(b) => b
    case Str(s) => s != ""
    case Num(n) => n != 0.0
    case Obj(_) => true
    case List(_) => true
  }

  /** Truthiness of a possibly-undefined value. */
  predicate Present(o: Option<Value>) {
    o.Some? && Truthy(o.value)
  }

  /** The elements a `!!item && ...` guard lets through, in order. */
  function TruthyOnly(es: seq<Value>): (r: seq<Value>)
    ensures |r| <= |es|
    ensures forall i :: 0 <= i < |r| ==> Truthy(r[i])
    ensures forall x :: x in r <==> x in es && Truthy(x)
  {
    if es == [] then []
    else (if Truthy(es[0]) then [es[0]] else []) + TruthyOnly(es[1..])
  }

  /** Filtering distributes over concatenation, so it keeps the input order. */
  lemma {:induction false} TruthyOnlyAppend(a: seq<Value>, b: seq<Value>)
    ensures TruthyOnly(a + b) == TruthyOnly(a) + TruthyOnly(b)
  {
    if a != [] {
      assert (a + b)[0] == a[0] && (a + b)[1..] == a[1..] + b;
      TruthyOnlyAppend(a[1..], b);
    } else {
      assert a + b == b;
    }
  }

  /** Without falsy elements nothing is dropped. */
  lemma {:induction false} TruthyOnlyAllTruthy(es: seq<Value>)
    requires forall i :: 0 <= i < |es| ==> Truthy(es[i])
    ensures TruthyOnly(es) == es
  {
    if es != [] {
      TruthyOnlyAllTruthy(es[1..]);
      assert [es[0]] + es[1..] == es;
    }
  }

  /** `o || fallback` */
  function Or(o: Option<Value>, fallback: Value): Value {
    if Present(o) then o.value else fallback
  }

  /** An own property of a value that is not `null`/`undefined`; only objects
      carry named properties here. */
  function Member(v: Value, key: string): Option<Value> {
    if v.Obj? && key in v.fields then Some(v.fields[key]) else None
  }

  /** The property access `o.key`: a TypeError when `o` is `null` or `undefined`. */
  function Prop(o: Option<Value>, key: string): (r: Outcome<Option<Value>>)
    ensures r.Thrown? <==> o == None || o == Some(Null)
    ensures r.Ok? && o.value.Obj? ==> r.value == (if key in o.value.fields then Some(o.value.fields[key]) else None)
  {
    if o.None? || o.value.Null? then Thrown else Ok(Member(o.value, key))
  }

  // ---------------------------------------------------------------------------
  // s.split(sep) for a one-character separator, and its inverse parts.join(sep)

  function Split(s: string, sep: char): (parts: seq<string>)
    ensures |parts| >= 1
  {
    if s == [] then [""]
    else
      var rest := Split(s[1..], sep);
      if s[0] == sep then [""] + rest else [[s[0]] + rest[0]] + rest[1..]
  }

  function Join(parts: seq<string>, sep: char): string
    requires |parts| >= 1
  {
    if |parts| == 1 then parts[0] else parts[0] + [sep] + Join(parts[1..], sep)
  }

  /** No part of a split holds the separator. */
  lemma {:induction false} SplitPartsLackSeparator(s: string, sep: char)
    ensures forall i :: 0 <= i < |Split(s, sep)| ==> sep !in Split(s, sep)[i]
  {
    if s != [] {
      SplitPartsLackSeparator(s[1..], sep);
      var rest := Split(s[1..], sep);
      if s[0] != sep {
        assert forall i :: 0 <= i < |rest| ==> sep !in rest[i];
        assert sep !in [s[0]] + rest[0];
      }
    }
  }

  lemma {:induction false} JoinCons(c: char, parts: seq<string>, sep: char)
    requires |parts| >= 1
    ensures Join([[c] + parts[0]] + parts[1..], sep) == [c] + Join(parts, sep)
  {
    var q := [[c] + parts[0]] + parts[1..];
    assert q[1..] == parts[1..];
  }

  /** Joining the parts of a split gives back the string. */
  lemma {:induction false} JoinSplit(s: string, sep: char)
    ensures Join(Split(s, sep), sep) == s
  {
    if s != [] {
      JoinSplit(s[1..], sep);
      var rest := Split(s[1..], sep);
      if s[0] == sep {
        assert ([""] + rest)[1..] == rest;
      } else {
        JoinCons(s[0], rest, sep);
      }
      assert s == [s[0]] + s[1..];
    }
  }

  lemma {:induction false} SplitNoSeparator(x: string, sep: char)
    requires sep !in x
    ensures Split(x, sep) == [x]
  {
    if x != [] {
      SplitNoSeparator(x[1..], sep);
      assert [x[0]] + x[1..] == x;
    }
  }

  lemma {:induction false} SplitAtSeparator(x: string, y: string, sep: char)
    requires sep !in x
    ensures Split(x + [sep] + y, sep) == [x] + Split(y, sep)
  {
    if x == [] {
      assert x + [sep] + y == [sep] + y;
      assert ([sep] + y)[1..] == y;
    } else {
      var s := x + [sep] + y;
      assert s[0] == x[0] && s[1..] == x[1..] + [sep] + y;
      SplitAtSeparator(x[1..], y, sep);
      assert [x[0]] + x[1..] == x;
    }
  }

  /** Splitting a join of separator-free parts gives back the parts. */
  lemma {:induction false} SplitJoin(parts: seq<string>, sep: char)
    requires |parts| >= 1
    requires forall i :: 0 <= i < |parts| ==> sep !in parts[i]
    ensures Split(Join(parts, sep), sep) == parts
  {
    if |parts| == 1 {
      SplitNoSeparator(parts[0], sep);
    } else {
      SplitJoin(parts[1..], sep);
      SplitAtSeparator(parts[0], Join(parts[1..], sep), sep);
      assert [parts[0]] + parts[1..] == parts;
    }
  }

  // ---------------------------------------------------------------------------
  // objectPath.get(v, path)

  /** `objectPath.get(v, path)`: walks own properties key by key; `undefined`
      as soon as a key is missing or an intermediate value is `null`. */
  function Lookup(v: Value, path: seq<string>): (r: Option<Value>)
    ensures path == [] ==> r == Some(v)
    ensures path != [] && r.Some? ==> v.Obj? && path[0] in v.fields   // only objects are walked
    decreases |path|
  {
    if path == [] then Some(v)
    else if v.Null? then None
    else
      match Member(v, path[0])
      case None => None
      case Some(next) => Lookup(next, path[1..])
  }

  /** `objectPath.get` on a value that may itself be `undefined`. */
  function LookupIn(o: Option<Value>, path: seq<string>): Option<Value> {
    match o
    case None => None
    case Some(v) => Lookup(v, path)
  }

  /** Looking up `p + q` is looking up `p`, then `q` from there. */
  lemma {:induction false} LookupAppend(v: Value, p: seq<string>, q: seq<string>)
    ensures Lookup(v, p + q) == LookupIn(Lookup(v, p), q)
  {
    if p == [] {
      assert p + q == q;
    } else {
      assert (p + q)[0] == p[0] && (p + q)[1..] == p[1..] + q;
      if !v.Null? {
        match Member(v, p[0])
        case None =>
        case Some(next) => LookupAppend(next, p[1..], q);
      }
    }
  }

  /** The record that holds `leaf` at `path` and nothing else. */
  function Nest(path: seq<string>, leaf: Value): Value
    decreases |path|
  {
    if path == [] then leaf else Obj(map[path[0] := Nest(path[1..], leaf)])
  }

  /** `objectPath.get` finds what `Nest` placed, at any depth. */
  lemma {:induction false} LookupNest(path: seq<string>, leaf: Value)
    ensures Lookup(Nest(path, leaf), path) == Some(leaf)
  {
    if path != [] {
      LookupNest(path[1..], leaf);
    }
  }

  /** A path that leaves the record yields `undefined`, never an error. */
  lemma {:induction false} LookupPastLeaf(path: seq<string>, leaf: Value, extra: seq<string>)
    requires extra != []
    requires !leaf.Obj?
    ensures Lookup(Nest(path, leaf), path + extra) == None
  {
    LookupNest(path, leaf);
    LookupAppend(Nest(path, leaf), path, extra);
  }

  // ---------------------------------------------------------------------------
  // String(v)

  /** `String(v)`, as a template literal `${v}` produces it. */
  function Text(numberText: real -> string, v: Value): string
    decreases v
  {
    match v
    case Null => "null"
    case Bool(b) => if b then "true" else "false"
    case Str(s) => s
    case Num(n) => numberText(n)
    case Obj(_) => "[object Object]"
    case List(es) =>
      var parts := seq(|es|, i requires 0 <= i < |es| => if es[i].Null? then "" else Text(numberText, es[i]));
      if parts == [] then "" else Join(parts, ',')
  }

  /** `String(o)` for a possibly-undefined value. */
  function OptText(numberText: real -> string, o: Option<Value>): string {
    match o
    case None => "undefined"
    case Some(v) => Text(numberText, v)
  }
}
