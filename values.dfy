/**
 * JavaScript values as the viewer's settings record holds them, and the few
 * JavaScript operations the core relies on: truthiness, numeric coercion,
 * `Math.max(lo, Math.min(hi, x))`, `String.prototype.toLowerCase` and
 * `String.prototype.includes`.
 */
module Values {

  datatype Option<+T> = None | Some(value: T)

  /** A JavaScript number: a finite real or NaN. */
  datatype Num = Finite(r: real) | NaN

  /** A value stored under one key of a settings record. */
  datatype Value = Number(n: Num) | Text(s: string) | Flag(b: bool)

  /** A settings object: field name to value; an absent key reads as `undefined`. */
  type Settings = map<string, Value>

  /** `s[key]`, where an absent key is `undefined` (None). */
  function Lookup(s: Settings, key: string): (v: Option<Value>)
    ensures v.Some? <==> key in s
    ensures v.Some? ==> v.value == s[key]
  {
    if key in s then Some(s[key]) else None
  }

  /** JavaScript truthiness of a value that may be `undefined`: what `if (x)`, `x || d` and `Boolean(x)` test. */
  predicate Truthy(v: Option<Value>) {
    match v
    case None => false
    case Some(Number(n)) => n.Finite? && n.r != 0.0
    case Some(Text(s)) => s != ""
    case Some(Flag(b)) => b
  }

  /**
   * Numeric coercion as an arithmetic operator applies it: numbers stay,
   * booleans become 1 or 0, `undefined` becomes NaN. Strings are not parsed
   * here: the empty string becomes 0 and any other string NaN.
   */
  function ToNumber(v: Option<Value>): Num {
    match v
    case None => NaN
    case Some(Number(n)) => n
    case Some(Flag(b)) => Finite(if b then 1.0 else 0.0)
    case Some(Text(s)) => if s == "" then Finite(0.0) else NaN
  }

  /** `typeof v === 'number' && !isNaN(v)`: the real number held, if any. */
  function FiniteNumber(v: Option<Value>): (r: Option<real>)
    ensures r.Some? <==> v.Some? && v.value.Number? && v.value.n.Finite?
    ensures r.Some? ==> v.value.n.r == r.value
  {
    if v.Some? && v.value.Number? && v.value.n.Finite? then Some(v.value.n.r) else None
  }

  /** `Math.max(lo, Math.min(hi, x))` for a real x. */
  function Clamp(lo: real, hi: real, x: real): (r: real)
    requires lo <= hi
    ensures lo <= r <= hi
    ensures lo <= x <= hi ==> r == x
    ensures x < lo ==> r == lo
    ensures hi < x ==> r == hi
  {
    if x < lo then lo else if hi < x then hi else x
  }

  /** `Math.max(lo, Math.min(hi, x))` for a JavaScript number: NaN stays NaN. */
  function ClampNum(lo: real, hi: real, x: Num): (r: Num)
    requires lo <= hi
    ensures r.NaN? <==> x.NaN?
    ensures r.Finite? ==> lo <= r.r <= hi && r.r == Clamp(lo, hi, x.r)
  {
    match x
    case NaN => NaN
    case Finite(v) => Finite(Clamp(lo, hi, v))
  }

  predicate IsUpper(c: char) {
    'A' <= c <= 'Z'
  }

  /** Lower-cases one character (ASCII letters only). */
  function LowerChar(c: char): (d: char)
    ensures !IsUpper(d)
    ensures !IsUpper(c) ==> d == c
  {
    if IsUpper(c) then (c as int + 32) as char else c
  }

  /** `s.toLowerCase()`, restricted to ASCII letters. */
  function ToLower(s: string): (r: string)
    ensures |r| == |s|
    ensures forall i :: 0 <= i < |s| ==> r[i] == LowerChar(s[i])
  {
    if s == [] then [] else [LowerChar(s[0])] + ToLower(s[1..])
  }

  /** Lower-casing a name whose only capital is its first letter changes just that letter. */
  lemma LowerInitialCapital(s: string)
    requires s != [] && forall i :: 1 <= i < |s| ==> !IsUpper(s[i])
    ensures ToLower(s) == [LowerChar(s[0])] + s[1..]
  {
    assert forall i :: 1 <= i < |s| ==> ToLower(s)[i] == s[i];
  }

  /** `s.includes(p)`: p occurs in s at some position. */
  predicate Includes(s: string, p: string)
    decreases |s|
  {
    p <= s || (s != [] && Includes(s[1..], p))
  }

  /** A string none of whose characters is a capital contains no pattern that starts with one. */
  lemma {:induction false} NoCapitalNoMatch(s: string, p: string)
    requires p != [] && IsUpper(p[0])
    requires forall i :: 0 <= i < |s| ==> !IsUpper(s[i])
    ensures !Includes(s, p)
  {
    assert s != [] ==> !IsUpper(s[0]);
    assert !(p <= s);
    if s != [] {
      assert forall i :: 0 <= i < |s[1..]| ==> !IsUpper(s[1..][i]);
      NoCapitalNoMatch(s[1..], p);
    }
  }

  /** A string lacking one of a pattern's characters does not include the pattern. */
  lemma {:induction false} MissingCharNoMatch(s: string, p: string, k: nat)
    requires k < |p|
    requires forall i :: 0 <= i < |s| ==> s[i] != p[k]
    ensures !Includes(s, p)
  {
    assert k < |s| ==> s[k] != p[k];
    assert !(p <= s);
    if s != [] {
      assert forall i :: 0 <= i < |s[1..]| ==> s[1..][i] != p[k];
      MissingCharNoMatch(s[1..], p, k);
    }
  }

  /** A pattern longer than the string never occurs in it. */
  lemma {:induction false} IncludesNeedsLength(s: string, p: string)
    ensures Includes(s, p) ==> |p| <= |s|
    decreases |s|
  {
    if s != [] {
      IncludesNeedsLength(s[1..], p);
    }
  }

  /** A string includes a pattern of its own length exactly when the two are equal. */
  lemma SameLengthIncludes(s: string, p: string)
    requires |s| == |p|
    ensures Includes(s, p) <==> s == p
  {
    if s != [] {
      IncludesNeedsLength(s[1..], p);
    }
  }

  /** A lower-cased name never includes a pattern that starts with a capital letter. */
  lemma LowerNeverIncludesCapital(name: string, p: string)
    requires p != [] && IsUpper(p[0])
    ensures !Includes(ToLower(name), p)
  {
    NoCapitalNoMatch(ToLower(name), p);
  }
}
