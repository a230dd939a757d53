/** JavaScript values as the handlers see them in request bodies and form data, and the
    built-in conversions they apply (`||`, `??`, `parseInt`, `parseFloat`, `Number`,
    `Math.round`). Numbers are exact reals; a key missing from an object is `undefined`. */
module JsValues {
  import opened Wrappers
  import opened Strings

  datatype Value = Null | Bool(b: bool) | Num(x: real) | NaN | Str(s: string) | Arr(items: seq<Value>)

  /** A plain JavaScript object; a key that is not in the map reads as `undefined`. */
  type Object = map<string, Value>

  function Get(o: Object, k: string): (r: Option<Value>)
    ensures r.Some? <==> k in o
  {
    if k in o then Some(o[k]) else None
  }

  /** Truthiness; `undefined` (None) is falsy. */
  predicate Truthy(v: Option<Value>) {
    match v
    case None => false
    case Some(Null) => false
    case Some(Bool(b)) => b
    case Some(Num(x)) => x != 0.0
    case Some(NaN) => false
    case Some(Str(s)) => s != ""
    case Some(Arr(_)) => true
  }

  /** `a || b`. */
  function Or(a: Option<Value>, b: Value): (r: Value)
    ensures Truthy(a) ==> Some(r) == a
    ensures !Truthy(a) ==> r == b
  {
    if Truthy(a) then a.value else b
  }

  /** `a ?? b`: only `null` and `undefined` fall back. */
  function Coalesce(a: Option<Value>, b: Value): (r: Value)
    ensures a == None || a == Some(Null) ==> r == b
    ensures a != None && a != Some(Null) ==> Some(r) == a
  {
    if a == None || a == Some(Null) then b else a.value
  }

  /** Writes `v` under `k`, or leaves `k` out when `v` is `undefined`. */
  function Put(o: Object, k: string, v: Option<Value>): (r: Object)
    ensures Get(r, k) == v
    ensures forall j :: j != k ==> Get(r, j) == Get(o, j)
  {
    if v.Some? then o[k := v.value] else o - {k}
  }

  /** Two objects that read the same under every key are the same object. */
  lemma ObjectsEqual(a: Object, b: Object)
    requires forall k :: Get(a, k) == Get(b, k)
    ensures a == b
  {
    assert a.Keys == b.Keys by {
      forall k ensures k in a <==> k in b { assert Get(a, k).Some? <==> Get(b, k).Some?; }
    }
    forall k | k in a ensures a[k] == b[k] { assert Get(a, k) == Get(b, k); }
  }

  function DigitValue(c: char): nat
    requires IsDigit(c)
  {
    c as int - '0' as int
  }

  /** The longest prefix of s made of decimal digits. */
  function LeadingDigits(s: string): (r: string)
    ensures |r| <= |s| && r == s[..|r|]
    ensures forall i :: 0 <= i < |r| ==> IsDigit(r[i])
    ensures |r| < |s| ==> !IsDigit(s[|r|])
    decreases |s|
  {
    if s != [] && IsDigit(s[0]) then [s[0]] + LeadingDigits(s[1..]) else []
  }

  /** The value of a string of decimal digits. */
  function DigitsValue(d: string): nat
    requires forall i :: 0 <= i < |d| ==> IsDigit(d[i])
    decreases |d|
  {
    if d == [] then 0 else DigitsValue(d[..|d| - 1]) * 10 + DigitValue(d[|d| - 1])
  }

  /** The value of the digits after a decimal point. */
  function FractionValue(f: string): real
    requires forall i :: 0 <= i < |f| ==> IsDigit(f[i])
    decreases |f|
  {
    if f == [] then 0.0 else (DigitValue(f[0]) as real + FractionValue(f[1..])) / 10.0
  }

  /** An optional sign: the factor it stands for and how many characters it takes. */
  function Sign(t: string): (r: (real, nat))
    ensures r.1 <= |t|
  {
    if |t| > 0 && t[0] == '-' then (-1.0, 1)
    else if |t| > 0 && t[0] == '+' then (1.0, 1)
    else (1.0, 0)
  }

  /** The longest prefix of t of the form [sign] digits [. digits] with at least one
      digit: its value and its length; None when t does not start with one. */
  function ScanDecimal(t: string): (r: Option<(real, nat)>)
    ensures r.Some? ==> 0 < r.value.1 <= |t|
  {
    var (sign, k) := Sign(t);
    var ip := LeadingDigits(t[k..]);
    var afterInt := k + |ip|;
    var hasDot := afterInt < |t| && t[afterInt] == '.';
    var fp := if hasDot then LeadingDigits(t[afterInt + 1..]) else "";
    if ip == "" && fp == "" then None
    else Some((sign * (DigitsValue(ip) as real + FractionValue(fp)),
               if hasDot then afterInt + 1 + |fp| else afterInt))
  }

  /** Integer part toward zero, as `parseInt(String(x))` gives for ordinary numbers. */
  function Truncate(x: real): int {
    if x >= 0.0 then x.Floor else -((-x).Floor)
  }

  /** `parseInt` of a string: leading whitespace, a sign, then the decimal digits. */
  function ParseIntText(s: string): (r: Value)
    ensures r.Num? ==> IsInteger(r.x)
    ensures r.Num? || r.NaN?
  {
    var t := TrimStart(s);
    var (sign, k) := Sign(t);
    var d := LeadingDigits(t[k..]);
    var n: int := DigitsValue(d);
    if d == "" then NaN else Num((if sign < 0.0 then -n else n) as real)
  }

  /** `parseInt(v)`: the argument is converted to text first. */
  function ParseInt(v: Option<Value>): (r: Value)
    ensures r.Num? || r.NaN?
    ensures r.Num? ==> IsInteger(r.x)
  {
    match v
    case Some(Num(x)) => Num(Truncate(x) as real)
    case Some(Str(s)) => ParseIntText(s)
    case _ => NaN
  }

  /** `parseFloat(v)`: the longest decimal prefix after leading whitespace. */
  function ParseFloat(v: Option<Value>): (r: Value)
    ensures r.Num? || r.NaN?
  {
    match v
    case Some(Num(x)) => Num(x)
    case Some(Str(s)) =>
      var m := ScanDecimal(TrimStart(s));
      if m.Some? then Num(m.value.0) else NaN
    case _ => NaN
  }

  /** `Number(v)`. A string must be, after trimming, empty (0) or a decimal literal. */
  function ToNumber(v: Option<Value>): (r: Value)
    ensures r.Num? || r.NaN?
  {
    match v
    case None => NaN
    case Some(Null) => Num(0.0)
    case Some(Bool(b)) => Num(if b then 1.0 else 0.0)
    case Some(Num(x)) => Num(x)
    case Some(NaN) => NaN
    case Some(Str(s)) =>
      var t := Trim(s);
      if t == "" then Num(0.0)
      else
        var m := ScanDecimal(t);
        if m.Some? && m.value.1 == |t| then Num(m.value.0) else NaN
    case Some(Arr(_)) => NaN
  }

  /** `Math.round`: the nearest integer, halves toward +infinity. */
  function Round(x: real): (r: int)
    ensures x - 0.5 < r as real <= x + 0.5
  {
    (x + 0.5).Floor
  }

  /** `Number.isInteger`. */
  predicate IsInteger(x: real) {
    x == x.Floor as real
  }

  lemma RoundInteger(n: int)
    ensures Round(n as real) == n
  {
  }

  lemma {:induction false} DigitsValueAppend(d: string, c: char)
    requires forall i :: 0 <= i < |d| ==> IsDigit(d[i])
    requires IsDigit(c)
    ensures DigitsValue(d + [c]) == DigitsValue(d) * 10 + DigitValue(c)
  {
    assert (d + [c])[..|d + [c]| - 1] == d;
  }

  /** The digit run at the start of `d + rest`, when `rest` does not continue it. */
  lemma LeadingDigitsOf(d: string, rest: string)
    requires forall i :: 0 <= i < |d| ==> IsDigit(d[i])
    requires rest == [] || !IsDigit(rest[0])
    ensures LeadingDigits(d + rest) == d
  {
    var s := d + rest;
    assert s[..|d|] == d;
  }

  /** `parseInt` of text with no leading blanks: the sign, then the digit run after it. */
  lemma ParseIntUntrimmed(t: string, d: string)
    requires d != [] && forall i :: 0 <= i < |d| ==> IsDigit(d[i])
    requires TrimStart(t) == t && LeadingDigits(t[Sign(t).1..]) == d
    ensures ParseIntText(t) == Num(if Sign(t).0 < 0.0 then -(DigitsValue(d) as real) else DigitsValue(d) as real)
  {
  }

  /** `parseInt` reads the leading digits and ignores what follows: `parseInt("12abc")`
      is 12. */
  lemma ParseIntReadsLeadingDigits(d: string, rest: string)
    requires d != [] && forall i :: 0 <= i < |d| ==> IsDigit(d[i])
    requires rest == [] || !IsDigit(rest[0])
    ensures ParseIntText(d + rest) == Num(DigitsValue(d) as real)
  {
    UnsignedText(d, rest);
    ParseIntUntrimmed(d + rest, d);
  }

  lemma UnsignedText(d: string, rest: string)
    requires d != [] && forall i :: 0 <= i < |d| ==> IsDigit(d[i])
    requires rest == [] || !IsDigit(rest[0])
    ensures TrimStart(d + rest) == d + rest && Sign(d + rest) == (1.0, 0)
    ensures LeadingDigits((d + rest)[0..]) == d
  {
    var t := d + rest;
    assert t[0] == d[0];
    TrimStartKeeps(t);
    assert t[0..] == t;
    LeadingDigitsOf(d, rest);
  }

  /** A leading minus sign negates the digits that follow it: `parseInt("-7 m2")` is -7. */
  lemma ParseIntReadsSign(d: string, rest: string)
    requires d != [] && forall i :: 0 <= i < |d| ==> IsDigit(d[i])
    requires rest == [] || !IsDigit(rest[0])
    ensures ParseIntText(['-'] + d + rest) == Num(-(DigitsValue(d) as real))
  {
    var u := ['-'] + d + rest;
    assert u == ['-'] + (d + rest);
    NegativeText(u, d + rest);
    LeadingDigitsOf(d, rest);
    ParseIntUntrimmed(u, d);
  }

  lemma NegativeText(u: string, t: string)
    requires u == ['-'] + t
    ensures TrimStart(u) == u && Sign(u) == (-1.0, 1) && u[1..] == t
  {
    assert u[0] == '-';
    TrimStartKeeps(u);
  }
}
