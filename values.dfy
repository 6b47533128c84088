/**
  JSON values as the bridge sees them after `json.loads` / `response.json()`,
  with the few Python operations on them that the core relies on:
  `==` (PyEq), `float()` (AsNumber), `dict.get` (Get), `str.lower` and
  `str.capitalize` on ASCII text, and the substring test `sub in s`.
 */
module Values {

  datatype Option<+T> = None | Some(value: T)

  /** A computation that either yields a value or raises a Python exception. */
  datatype Result<+T> = Ok(value: T) | Raised {
    predicate IsFailure() { Raised? }

    function PropagateFailure<U>(): Result<U>
      requires Raised?
    {
      Raised
    }

    function Extract(): T
      requires Ok?
    {
      value
    }
  }

  /** A decoded JSON value. Integers and floats are both `Num`. */
  datatype Value =
    | Null
    | Bool(b: bool)
    | Num(r: real)
    | Str(s: string)
    | Obj(fields: map<string, Value>)

  /** Python `float(v)` for the values JSON can hold: numbers and booleans
      convert, `None` and dictionaries raise `TypeError`. Strings are
      treated as not numeric (see README, "Left out"). */
  function AsNumber(v: Value): (r: Option<real>)
    ensures r.Some? <==> (v.Num? || v.Bool?)
    ensures v.Num? ==> r == Some(v.r)
  {
    match v
    case Num(x) => Some(x)
    case Bool(b) => Some(if b then 1.0 else 0.0)
    case _ => None
  }

  /** Python `a == b`: numbers and booleans compare by numeric value
      (`True == 1.0`), dictionaries compare key set and values, anything
      else compares structurally. */
  predicate PyEq(a: Value, b: Value)
    ensures PyEq(a, b) ==> (a.Obj? <==> b.Obj?) && (a.Str? <==> b.Str?) && (a.Null? <==> b.Null?)
    ensures (a.Num? || a.Bool?) && (b.Num? || b.Bool?) ==> (PyEq(a, b) <==> AsNumber(a) == AsNumber(b))
    ensures a.Str? && b.Str? ==> (PyEq(a, b) <==> a == b)
  {
    match (a, b)
    case (Obj(m1), Obj(m2)) =>
      m1.Keys == m2.Keys && forall k :: k in m1 ==> PyEq(m1[k], m2[k])
    case (Null, Null) => true
    case (Str(s1), Str(s2)) => s1 == s2
    case (Obj(_), _) => false
    case (_, Obj(_)) => false
    case _ =>
      AsNumber(a).Some? && AsNumber(b).Some? && AsNumber(a) == AsNumber(b)
  }

  /** Every value equals itself under Python `==` (no NaN in this model). */
  lemma {:induction false} PyEqReflexive(a: Value)
    ensures PyEq(a, a)
  {
    match a
    case Obj(m) =>
      forall k | k in m
        ensures PyEq(m[k], m[k])
      {
        PyEqReflexive(m[k]);
      }
    case _ =>
  }

  /** Python `==` is symmetric. */
  lemma {:induction false} PyEqSymmetric(a: Value, b: Value)
    ensures PyEq(a, b) <==> PyEq(b, a)
  {
    match (a, b)
    case (Obj(m1), Obj(m2)) =>
      forall k | k in m1 && k in m2
        ensures PyEq(m1[k], m2[k]) <==> PyEq(m2[k], m1[k])
      {
        PyEqSymmetric(m1[k], m2[k]);
      }
    case _ =>
  }

  /** The dictionary behind `v`: calling `.get` on anything else raises
      `AttributeError` in Python. */
  function AsObj(v: Value): (r: Result<map<string, Value>>)
    ensures r.Ok? <==> v.Obj?
    ensures v.Obj? ==> r.value == v.fields
  {
    if v.Obj? then Ok(v.fields) else Raised
  }

  /** `d.get(key, default)` on a dictionary. */
  function Field(m: map<string, Value>, key: string, default: Value): (r: Value)
    ensures key in m ==> r == m[key]
    ensures key !in m ==> r == default
  {
    if key in m then m[key] else default
  }

  /** `s.lower()` and friends: only a string has them, anything else raises
      `AttributeError`. */
  function AsText(v: Value): (r: Result<string>)
    ensures r.Ok? <==> v.Str?
    ensures v.Str? ==> r.value == v.s
  {
    if v.Str? then Ok(v.s) else Raised
  }

  /** A value that arithmetic and `> 0` accept (an int, float or bool);
      `None`, strings and dictionaries make them raise `TypeError`. */
  function Numeric(v: Value): (r: Result<real>)
    ensures r.Ok? <==> AsNumber(v).Some?
    ensures r.Ok? ==> r.value == AsNumber(v).value
  {
    match AsNumber(v)
    case Some(x) => Ok(x)
    case None => Raised
  }

  /** `d.get(key)` on a Python dict held directly as a map. */
  function Lookup(m: map<string, Value>, key: string): (r: Value)
    ensures key in m ==> r == m[key]
    ensures key !in m ==> r == Null
  {
    if key in m then m[key] else Null
  }

  /** True iff some value of the dictionary is not `None`
      (`any(value is not None for value in d.values())`). */
  predicate AnyNonNull(m: map<string, Value>)
  {
    exists k :: k in m && m[k] != Null
  }

  // ---------------------------------------------------------------------
  // ASCII text helpers

  function LowerChar(c: char): char
  {
    if 'A' <= c <= 'Z' then (c as int + 32) as char else c
  }

  function UpperChar(c: char): char
  {
    if 'a' <= c <= 'z' then (c as int - 32) as char else c
  }

  predicate IsLowerText(s: string)
  {
    forall i :: 0 <= i < |s| ==> !('A' <= s[i] <= 'Z')
  }

  /** `s.lower()` on ASCII text. */
  function Lower(s: string): (r: string)
    ensures |r| == |s|
    ensures forall i :: 0 <= i < |s| ==> r[i] == LowerChar(s[i])
    ensures IsLowerText(r)
  {
    if s == [] then [] else [LowerChar(s[0])] + Lower(s[1..])
  }

  /** Text without upper-case letters is its own lower-case form. */
  lemma LowerKeepsLowerText(s: string)
    requires IsLowerText(s)
    ensures Lower(s) == s
  {
    assert forall i :: 0 <= i < |s| ==> Lower(s)[i] == s[i];
  }

  /** `s.lower().lower() == s.lower()`. */
  lemma LowerIdempotent(s: string)
    ensures Lower(Lower(s)) == Lower(s)
  {
    LowerKeepsLowerText(Lower(s));
  }

  /** `s.capitalize()` on ASCII text: first character upper case, the rest
      lower case. */
  function Capitalize(s: string): (r: string)
    ensures |r| == |s|
    ensures |s| > 0 ==> r[0] == UpperChar(s[0]) && r[1..] == Lower(s[1..])
  {
    if s == [] then [] else [UpperChar(s[0])] + Lower(s[1..])
  }

  /** Python `sub in s` for strings. */
  predicate Contains(s: string, sub: string)
    ensures Contains(s, sub) ==> |sub| <= |s|
    ensures sub == [] ==> Contains(s, sub)
    decreases |s|
  {
    |sub| <= |s| && (s[..|sub|] == sub || Contains(s[1..], sub))
  }

  /** `sub` occurs in `s` starting at index `i`. */
  predicate OccursAt(s: string, sub: string, i: int)
  {
    0 <= i <= |s| - |sub| && s[i..i + |sub|] == sub
  }

  /** `Contains` holds exactly when `sub` occurs at some index of `s`. */
  lemma {:induction false} ContainsAt(s: string, sub: string)
    ensures Contains(s, sub) <==> exists i :: OccursAt(s, sub, i)
    decreases |s|
  {
    if |sub| <= |s| && s[..|sub|] != sub {
      ContainsAt(s[1..], sub);
      if Contains(s[1..], sub) {
        var i :| OccursAt(s[1..], sub, i);
        assert OccursAt(s, sub, i + 1);
      }
      if exists i :: OccursAt(s, sub, i) {
        var i :| OccursAt(s, sub, i);
        assert i != 0;
        assert OccursAt(s[1..], sub, i - 1);
      }
    } else if |sub| <= |s| {
      assert OccursAt(s, sub, 0);
    }
  }
}
