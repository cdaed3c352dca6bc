/**
 * The slice of JavaScript value semantics the app's rules depend on: JSON-like values,
 * property lookup (`obj.key`, with `undefined` for a missing key), truthiness, `String(v)`,
 * `Number.prototype.toString` for integers and `String.prototype.trim`.
 */
module Js {
  import opened Wrappers

  /** A JSON-like JavaScript value. Numbers are integers; `NaN` is kept apart because the
      payload decoders test for it explicitly. */
  datatype Value =
    | Null
    | Bool(b: bool)
    | Num(n: int)
    | NaN
    | Str(s: string)
    | Obj(fields: map<string, Value>)
    | Arr(items: seq<Value>)

  /** `v.key`: the property if `v` is an object that has it, `undefined` (None) otherwise. */
  function Field(v: Value, key: string): (r: Option<Value>)
    ensures r.Some? <==> v.Obj? && key in v.fields
    ensures r.Some? ==> r.value == v.fields[key]
  {
    if v.Obj? && key in v.fields then Some(v.fields[key]) else None
  }

  /** `!!v` for a possibly undefined value. */
  predicate Truthy(o: Option<Value>)
    ensures Truthy(o) ==> o.Some? && !o.value.Null? && !o.value.NaN?
    ensures o.Some? && (o.value.Obj? || o.value.Arr?) ==> Truthy(o)
  {
    match o
    case None => false
    case Some(Null) => false
    case Some(Bool(b)) => b
    case Some(Num(n)) => n != 0
    case Some(NaN) => false
    case Some(Str(s)) => s != ""
    case Some(Obj(_)) => true
    case Some(Arr(_)) => true
  }

  /** `typeof v === "object" && v !== null` (arrays are objects to `typeof`). */
  predicate IsObject(v: Value)
    ensures v.Obj? || v.Arr? ==> IsObject(v)
    ensures IsObject(v) ==> Truthy(Some(v))
    ensures v.Null? || v.Bool? || v.Num? || v.NaN? || v.Str? ==> !IsObject(v)
  {
    v.Obj? || v.Arr?
  }

  /** `x ?? d` for a possibly undefined value. */
  function Coalesce(o: Option<Value>, d: Value): (r: Value)
    ensures o.Some? && !o.value.Null? ==> r == o.value
    ensures o.None? || o.value.Null? ==> r == d
  {
    match o
    case Some(v) => if v.Null? then d else v
    case None => d
  }

  // ---------- decimal text of integers ----------

  predicate IsDigit(c: char) {
    '0' <= c <= '9'
  }

  function DigitChar(d: nat): (c: char)
    requires d < 10
    ensures IsDigit(c)
    ensures DigitValue(c) == d
  {
    ['0', '1', '2', '3', '4', '5', '6', '7', '8', '9'][d]
  }

  function DigitValue(c: char): (d: nat)
    requires IsDigit(c)
    ensures d < 10
  {
    c as int - '0' as int
  }

  /** Decimal digits of `n`, most significant first, without leading zeros. */
  function NatToString(n: nat): (r: string)
    ensures |r| >= 1
    ensures AllDigits(r)
    ensures r[0] == '0' ==> n == 0
  {
    if n < 10 then [DigitChar(n)] else NatToString(n / 10) + [DigitChar(n % 10)]
  }

  /** `String(n)` for an integer number: an optional minus sign, then its digits. */
  function IntToString(n: int): (r: string)
    ensures |r| >= 1
    ensures r[0] == '-' <==> n < 0
  {
    if n < 0 then "-" + NatToString(-n) else NatToString(n)
  }

  predicate AllDigits(s: string) {
    forall i | 0 <= i < |s| :: IsDigit(s[i])
  }

  /** The value of a string of decimal digits (the inverse of NatToString). */
  function ParseDigits(s: string): nat
    requires AllDigits(s)
  {
    if s == [] then 0 else ParseDigits(s[..|s| - 1]) * 10 + DigitValue(s[|s| - 1])
  }

  /** Reads back the text IntToString produces. */
  function ParseInt(s: string): Option<int> {
    if |s| > 0 && s[0] == '-' then
      var digits := s[1..];
      if |digits| > 0 && AllDigits(digits) then Some(-(ParseDigits(digits) as int)) else None
    else if |s| > 0 && AllDigits(s) then Some(ParseDigits(s))
    else None
  }

  lemma {:induction false} NatToStringRoundTrip(n: nat)
    ensures ParseDigits(NatToString(n)) == n
  {
    if n >= 10 {
      var front := NatToString(n / 10);
      var s := front + [DigitChar(n % 10)];
      assert s[..|s| - 1] == front;
      NatToStringRoundTrip(n / 10);
    }
  }

  /** String(n) is read back as n, so distinct numbers give distinct identifiers. */
  lemma IntToStringRoundTrip(n: int)
    ensures ParseInt(IntToString(n)) == Some(n)
  {
    if n < 0 {
      NegativeRoundTrip(n);
    } else {
      var t := NatToString(n);
      assert t == IntToString(n);
      assert IsDigit(t[0]);
      NatToStringRoundTrip(n);
      assert ParseInt(t) == Some(ParseDigits(t));
    }
  }

  lemma NegativeRoundTrip(n: int)
    requires n < 0
    ensures ParseInt(IntToString(n)) == Some(n)
  {
    var m: nat := -n;
    var t := NatToString(m);
    var s := "-" + t;
    assert s == IntToString(n);
    assert s[0] == '-' && s[1..] == t;
    assert |t| > 0 && AllDigits(t);
    NatToStringRoundTrip(m);
    assert ParseDigits(t) == m;
  }

  lemma IntToStringInjective(m: int, n: int)
    ensures IntToString(m) == IntToString(n) ==> m == n
  {
    IntToStringRoundTrip(m);
    IntToStringRoundTrip(n);
  }

  // ---------- String(v) ----------

  /** `String(v)`. An array joins its elements' texts with ",", a null element giving "". */
  function ToJsString(v: Value): (r: string)
    ensures v.Str? ==> r == v.s
    ensures v.Num? ==> ParseInt(r) == Some(v.n)
    ensures v.Null? ==> r == "null"
    ensures v.Obj? ==> r == "[object Object]"
    ensures v.Bool? ==> r == (if v.b then "true" else "false")
    ensures v.NaN? ==> r == "NaN"
    ensures v.Arr? ==> r == ElementsString(v.items)
    decreases v
  {
    match v
    case Null => "null"
    case Bool(b) => if b then "true" else "false"
    case Num(n) => IntToStringRoundTrip(n); IntToString(n)
    case NaN => "NaN"
    case Str(s) => s
    case Obj(_) => "[object Object]"
    case Arr(items) => ElementsString(items)
  }

  /** `Array.prototype.join(",")` as `String(array)` uses it: one "," between neighbours,
      and a null element contributes nothing. */
  function ElementsString(items: seq<Value>): (r: string)
    ensures items == [] ==> r == ""
    ensures |items| > 1 && items[0].Null? ==> |r| > 0 && r[0] == ','
    ensures |r| >= |items| - 1
    decreases items
  {
    if |items| == 0 then ""
    else
      var head := if items[0].Null? then "" else ToJsString(items[0]);
      if |items| == 1 then head else head + "," + ElementsString(items[1..])
  }

  /** Joining works piecewise: the text of `a + b` is the text of `a`, one ",", then the
      text of `b`. With ElementsString's other clauses this fixes `String(array)` fully. */
  lemma {:induction false} ElementsStringAppend(a: seq<Value>, b: seq<Value>)
    requires a != [] && b != []
    ensures ElementsString(a + b) == ElementsString(a) + "," + ElementsString(b)
    decreases |a|
  {
    if |a| == 1 {
      AppendOne(a, b);
    } else {
      ElementsStringAppend(a[1..], b);
      AppendStep(a, b);
    }
  }

  lemma AppendOne(a: seq<Value>, b: seq<Value>)
    requires |a| == 1 && b != []
    ensures ElementsString(a + b) == ElementsString(a) + "," + ElementsString(b)
  {
    var t := a + b;
    assert t[0] == a[0] && t[1..] == b;
    ElementsStringCons(t);
    ElementsStringOne(a);
  }

  lemma AppendStep(a: seq<Value>, b: seq<Value>)
    requires |a| > 1 && b != []
    requires ElementsString(a[1..] + b) == ElementsString(a[1..]) + "," + ElementsString(b)
    ensures ElementsString(a + b) == ElementsString(a) + "," + ElementsString(b)
  {
    var t := a + b;
    assert t[0] == a[0] && t[1..] == a[1..] + b;
    ElementsStringCons(t);
    ElementsStringCons(a);
    JoinStep(if a[0].Null? then "" else ToJsString(a[0]), ElementsString(a[1..]), ElementsString(b),
             ElementsString(t), ElementsString(a), ElementsString(t[1..]));
  }

  /** The string reasoning of AppendStep, kept apart from the join's definition. */
  lemma JoinStep(h: string, x: string, y: string, whole: string, front: string, rest: string)
    requires front == h + "," + x && whole == h + "," + rest && rest == x + "," + y
    ensures whole == front + "," + y
  {
    ConcatAssoc(h + ",", x + ",", y);
    ConcatAssoc(h + ",", x, ",");
  }

  lemma ConcatAssoc(p: string, q: string, r: string)
    ensures p + (q + r) == (p + q) + r
  {
  }

  /** One step of the join: the first element's text, ",", then the rest. */
  lemma ElementsStringCons(t: seq<Value>)
    requires |t| > 1
    ensures ElementsString(t) == (if t[0].Null? then "" else ToJsString(t[0])) + "," + ElementsString(t[1..])
  {
  }

  /** The text starts with the first element's text (nothing for a null first element). */
  lemma ElementsStringHead(items: seq<Value>)
    requires items != []
    ensures !items[0].Null? ==> ToJsString(items[0]) <= ElementsString(items)
  {
    if |items| > 1 {
      ElementsStringCons(items);
    }
  }

  lemma ElementsStringOne(t: seq<Value>)
    requires |t| == 1
    ensures ElementsString(t) == (if t[0].Null? then "" else ToJsString(t[0]))
  {
  }

  // ---------- String.prototype.trim ----------

  /** The characters `trim` removes: ECMAScript WhiteSpace and LineTerminator. */
  predicate IsSpace(c: char)
    ensures IsSpace(c) ==> !IsDigit(c) && c != '-'
    ensures c == ' ' || c == '\t' || c == '\n' || c == '\r' ==> IsSpace(c)
  {
    ('\U{9}' <= c <= '\U{D}') || c == ' ' || c == '\U{A0}' || c == '\U{1680}'
    || ('\U{2000}' <= c <= '\U{200A}') || c == '\U{2028}' || c == '\U{2029}'
    || c == '\U{202F}' || c == '\U{205F}' || c == '\U{3000}' || c == '\U{FEFF}'
  }

  /** Every character of `s` is white space (so `s.trim()` is ""). */
  predicate Blank(s: string) {
    forall i | 0 <= i < |s| :: IsSpace(s[i])
  }

  function TrimStart(s: string): (r: string)
    ensures |r| <= |s| && r == s[|s| - |r|..]
    ensures forall i | 0 <= i < |s| - |r| :: IsSpace(s[i])
    ensures r == [] || !IsSpace(r[0])
  {
    if s != [] && IsSpace(s[0]) then TrimStart(s[1..]) else s
  }

  function TrimEnd(s: string): (r: string)
    ensures |r| <= |s| && r == s[..|r|]
    ensures forall i | |r| <= i < |s| :: IsSpace(s[i])
    ensures r == [] || !IsSpace(r[|r| - 1])
  {
    if s != [] && IsSpace(s[|s| - 1]) then TrimEnd(s[..|s| - 1]) else s
  }

  /** `s.trim()`: empty exactly when every character of `s` is white space; otherwise it
      neither starts nor ends with white space. */
  function Trim(s: string): (r: string)
    ensures |r| <= |s|
    ensures r == [] <==> Blank(s)
    ensures r != [] ==> !IsSpace(r[0]) && !IsSpace(r[|r| - 1])
  {
    TrimEdges(s);
    TrimEnd(TrimStart(s))
  }

  /** The two trimming passes together leave nothing exactly for a blank string. */
  lemma TrimEdges(s: string)
    ensures |TrimEnd(TrimStart(s))| <= |s|
    ensures TrimEnd(TrimStart(s)) == [] <==> Blank(s)
    ensures var r := TrimEnd(TrimStart(s)); r != [] ==> !IsSpace(r[0]) && !IsSpace(r[|r| - 1])
  {
    var u := TrimStart(s);
    var r := TrimEnd(u);
    if u != [] {
      // the first character TrimStart keeps is not white space, so TrimEnd keeps it too
      assert s[|s| - |u|] == u[0] && !IsSpace(u[0]);
      assert r != [] && r[0] == u[0];
    }
  }

  /** `s.trim()` is `s` with a white-space prefix and a white-space suffix cut off, and
      nothing else changed. */
  lemma TrimCutsEdges(s: string)
    ensures exists i, j | 0 <= i <= j <= |s| :: Trim(s) == s[i..j] && Blank(s[..i]) && Blank(s[j..])
  {
    var u := TrimStart(s);
    var r := TrimEnd(u);
    var i := |s| - |u|;
    var j := i + |r|;
    TrimStartCut(s);
    TrimEndCut(u);
    assert s[j..] == u[|r|..];
    assert r == s[i..j];
    assert Trim(s) == r;
  }

  lemma TrimStartCut(s: string)
    ensures Blank(s[..|s| - |TrimStart(s)|])
  {
    var n := |s| - |TrimStart(s)|;
    assert forall k | 0 <= k < n :: s[..n][k] == s[k];
  }

  lemma TrimEndCut(u: string)
    ensures Blank(u[|TrimEnd(u)|..])
  {
    var n := |TrimEnd(u)|;
    assert forall k | 0 <= k < |u| - n :: u[n..][k] == u[n + k];
  }
}
