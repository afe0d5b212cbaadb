/**
 * The few JavaScript semantics the dashboard relies on: truthiness of a
 * JSON value, `String.prototype.trim`, `toLowerCase` on the letters that
 * matter here, and the decimal rendering of a non-negative integer.
 */
module Js {

  import opened Wrappers

  /** A JSON value, plus `undefined` for a missing property. Numbers are exact (no NaN). */
  datatype Value =
    | Undefined
    | Null
    | Bool(b: bool)
    | Num(x: real)
    | Str(s: string)
    | Arr(items: seq<Value>)
    | Obj(fields: map<string, Value>)

  /**
   * How `fetch(url).then(r => r.json())` settles: the decoded body (whatever
   * the HTTP status), or a rejection (network failure or a body that is not JSON).
   */
  datatype JsonFetch = Parsed(json: Value) | Rejected

  /** JavaScript truthiness (NaN is not modelled). */
  predicate Truthy(v: Value)
    ensures !Truthy(v) <==> v in {Undefined, Null, Bool(false), Num(0.0), Str("")}
  {
    match v
    case Undefined => false
    case Null => false
    case Bool(b) => b
    case Num(x) => x != 0.0
    case Str(s) => s != ""
    case Arr(_) => true
    case Obj(_) => true
  }

  /**
   * Reading `v.key`: `None` when it throws (on `null` or `undefined`), `undefined`
   * for a key the object lacks. Built-in properties such as `length` are not modelled.
   */
  function Member(v: Value, key: string): (r: Option<Value>)
    ensures r.None? <==> v.Undefined? || v.Null?
    ensures v.Obj? && key in v.fields ==> r == Some(v.fields[key])
    ensures r.Some? && !(v.Obj? && key in v.fields) ==> r == Some(Undefined)
  {
    match v
    case Undefined => None
    case Null => None
    case Obj(m) => Some(if key in m then m[key] else Undefined)
    case _ => Some(Undefined)
  }

  /** `a || b` on values: the first operand when it is truthy, otherwise the second. */
  function Or(a: Value, b: Value): (r: Value)
    ensures Truthy(a) ==> r == a
    ensures !Truthy(a) ==> r == b
  {
    if Truthy(a) then a else b
  }

  /** The characters `trim` removes: ECMAScript WhiteSpace and LineTerminator. */
  predicate IsWhitespace(c: char) {
    || c == '\t' || c == '\n' || c == '\U{000B}' || c == '\U{000C}' || c == '\r'
    || c == ' ' || c == '\U{00A0}' || c == '\U{1680}'
    || ('\U{2000}' <= c <= '\U{200A}')
    || c == '\U{2028}' || c == '\U{2029}' || c == '\U{202F}' || c == '\U{205F}'
    || c == '\U{3000}' || c == '\U{FEFF}'
  }

  /** Every character of s[lo..hi] is whitespace. */
  ghost predicate WhitespaceBetween(s: string, lo: nat, hi: nat) {
    forall k :: lo <= k < hi && k < |s| ==> IsWhitespace(s[k])
  }

  /** Drops the leading whitespace: the result is the suffix that starts at the first other character. */
  function TrimStart(s: string): (r: string)
    ensures |r| <= |s| && r == s[|s| - |r|..]
    ensures WhitespaceBetween(s, 0, |s| - |r|)
    ensures r == [] || !IsWhitespace(r[0])
  {
    if s != [] && IsWhitespace(s[0]) then TrimStart(s[1..]) else s
  }

  /** Drops the trailing whitespace: the result is the prefix that ends at the last other character. */
  function TrimEnd(s: string): (r: string)
    ensures |r| <= |s| && r == s[..|r|]
    ensures WhitespaceBetween(s, |r|, |s|)
    ensures r == [] || !IsWhitespace(r[|r| - 1])
  {
    if s != [] && IsWhitespace(s[|s| - 1]) then TrimEnd(s[..|s| - 1]) else s
  }

  /** How many leading whitespace characters `trim` drops. */
  function LeadingWhitespace(s: string): (a: nat)
    ensures a <= |s| && WhitespaceBetween(s, 0, a)
    ensures a < |s| ==> !IsWhitespace(s[a])
    ensures TrimStart(s) == s[a..]
  {
    |s| - |TrimStart(s)|
  }

  /**
   * `s.trim()`: the slice of `s` after its leading whitespace that neither
   * starts nor ends with whitespace, with only whitespace after it.
   */
  function Trim(s: string): (r: string)
    ensures var a := LeadingWhitespace(s);
            && a + |r| <= |s| && r == s[a..a + |r|] && WhitespaceBetween(s, a + |r|, |s|)
    ensures r == [] || (!IsWhitespace(r[0]) && !IsWhitespace(r[|r| - 1]))
    ensures r == [] <==> WhitespaceBetween(s, 0, |s|)
  {
    var a := LeadingWhitespace(s);
    var t := TrimStart(s);
    var r := TrimEnd(t);
    TrimSlice(s, t, a, r);
    r
  }

  /** Trimming the end of a suffix `t == s[a..]` that does not start with whitespace. */
  lemma TrimSlice(s: string, t: string, a: nat, r: string)
    requires a <= |s| && t == s[a..] && WhitespaceBetween(s, 0, a) && (t == [] || !IsWhitespace(t[0]))
    requires r == TrimEnd(t)
    ensures a + |r| <= |s| && r == s[a..a + |r|] && WhitespaceBetween(s, a + |r|, |s|)
    ensures r == [] || (!IsWhitespace(r[0]) && !IsWhitespace(r[|r| - 1]))
    ensures r == [] <==> WhitespaceBetween(s, 0, |s|)
  {
    assert r == t[..|r|];
    forall k | a + |r| <= k < |s| ensures IsWhitespace(s[k]) {
      assert s[k] == t[k - a];
    }
    if r != [] {
      assert r[0] == t[0] == s[a];
    }
  }

  /** Trimming twice is trimming once. */
  lemma {:induction false} TrimIdempotent(s: string)
    ensures Trim(Trim(s)) == Trim(s)
  {
    var r := Trim(s);
    if r != [] {
      assert TrimStart(r) == r;
      assert TrimEnd(r) == r;
    }
  }

  /** `toLowerCase` restricted to ASCII letters; every other character is kept. */
  function LowerChar(c: char): (d: char)
    ensures 'A' <= c <= 'Z' ==> 'a' <= d <= 'z' && d as int - 'a' as int == c as int - 'A' as int
    ensures !('A' <= c <= 'Z') ==> d == c
  {
    if 'A' <= c <= 'Z' then (c as int - 'A' as int + 'a' as int) as char else c
  }

  function LowerAscii(s: string): (r: string)
    ensures |r| == |s|
    ensures forall k :: 0 <= k < |s| ==> r[k] == LowerChar(s[k])
  {
    if s == [] then [] else [LowerChar(s[0])] + LowerAscii(s[1..])
  }

  function Digit(d: nat): (c: char)
    requires d < 10
    ensures '0' <= c <= '9' && c as int - '0' as int == d
  {
    ('0' as int + d) as char
  }

  predicate IsDigitChar(c: char) { '0' <= c <= '9' }

  /** The number a string of decimal digits denotes. */
  function DecimalValue(s: string): nat
    requires forall k :: 0 <= k < |s| ==> IsDigitChar(s[k])
  {
    if s == [] then 0
    else
      var last := s[|s| - 1];
      assert IsDigitChar(last);
      DecimalValue(s[..|s| - 1]) * 10 + (last as int - '0' as int)
  }

  /** `${n}` for a non-negative integer: shortest decimal digits, reading back as n. */
  function DecimalString(n: nat): (r: string)
    ensures |r| >= 1 && forall k :: 0 <= k < |r| ==> IsDigitChar(r[k])
    ensures |r| > 1 ==> r[0] != '0'
    ensures DecimalValue(r) == n
  {
    if n < 10 then [Digit(n)]
    else
      var p := DecimalString(n / 10);
      var r := p + [Digit(n % 10)];
      assert r[..|r| - 1] == p;
      r
  }
}
