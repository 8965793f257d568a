/**
 * The JavaScript values and built-ins the records layer relies on: the values a
 * stored record can hold, property reads and spreads, truthiness and `===`,
 * `String.prototype.trim`/`toLowerCase`/`includes`, `parseInt`/`parseFloat`
 * on decimal text, `Array.prototype.slice` and `[...new Set(xs)]`.
 */
module JsValues {

  datatype Option<+T> = None | Some(value: T)

  /** A value held by a record field: a string, a finite number, NaN or null. */
  datatype Value = Null | Num(x: real) | NaN | Str(s: string)

  /**
   * A record (an employee, a payroll, a form state). A key whose value is
   * `undefined` is the same, for every reader here, as an absent key.
   */
  type Record = map<string, Value>

  /** `r[k]`, with `None` standing for `undefined`. */
  function Get(r: Record, k: string): (v: Option<Value>)
    ensures v.Some? <==> k in r
    ensures v.Some? ==> v.value == r[k]
  {
    if k in r then Some(r[k]) else None
  }

  /** `{...r, [k]: v}`: writing `undefined` makes the key read as absent. */
  function Put(r: Record, k: string, v: Option<Value>): (r': Record)
    ensures Get(r', k) == v
    ensures forall j :: j != k ==> Get(r', j) == Get(r, j)
  {
    match v
    case Some(w) => r[k := w]
    case None => r - {k}
  }

  /** `a === b` on two property reads: `undefined === undefined`, but NaN equals nothing. */
  predicate StrictEquals(a: Option<Value>, b: Option<Value>)
  {
    a == b && a != Some(NaN)
  }

  /** JavaScript truthiness of a property read. */
  predicate Truthy(v: Option<Value>)
  {
    match v
    case None => false
    case Some(Null) => false
    case Some(NaN) => false
    case Some(Num(x)) => x != 0.0
    case Some(Str(s)) => s != ""
  }

  // ---------------------------------------------------------------- text

  /** The characters ECMAScript calls WhiteSpace or LineTerminator (`trim`, `\s`). */
  predicate IsSpace(c: char)
  {
    c == '\t' || c == '\n' || c == '\U{B}' || c == '\U{C}' || c == '\r' || c == ' '
    || c == '\U{A0}' || c == '\U{1680}' || ('\U{2000}' <= c <= '\U{200A}')
    || c == '\U{2028}' || c == '\U{2029}' || c == '\U{202F}' || c == '\U{205F}'
    || c == '\U{3000}' || c == '\U{FEFF}'
  }

  predicate IsDigit(c: char)
  {
    '0' <= c <= '9'
  }

  predicate AllSpace(s: string)
  {
    forall i :: 0 <= i < |s| ==> IsSpace(s[i])
  }

  /** `s.trimStart()`: drops the leading white space and nothing else. */
  function TrimStart(s: string): (r: string)
    ensures |r| <= |s| && r == s[|s| - |r|..]
    ensures AllSpace(s[..|s| - |r|])
    ensures r == [] || !IsSpace(r[0])
  {
    if s != [] && IsSpace(s[0]) then TrimStart(s[1..]) else s
  }

  /** `s.trimEnd()`: drops the trailing white space and nothing else. */
  function TrimEnd(s: string): (r: string)
    ensures |r| <= |s| && r == s[..|r|]
    ensures AllSpace(s[|r|..])
    ensures r == [] || !IsSpace(r[|r| - 1])
  {
    if s != [] && IsSpace(s[|s| - 1]) then TrimEnd(s[..|s| - 1]) else s
  }

  function Trim(s: string): string
  {
    TrimEnd(TrimStart(s))
  }

  /** A string trims to "" exactly when it is made of white space only. */
  lemma TrimEmptyIff(s: string)
    ensures Trim(s) == "" <==> AllSpace(s)
  {
    var t := TrimStart(s);
    assert s == s[..|s| - |t|] + t;
    if t != [] {
      assert t[0] == s[|s| - |t|];
    }
    if Trim(s) == "" {
      assert AllSpace(t[0..]);
    }
  }

  /** ASCII `toLowerCase`. */
  function LowerChar(c: char): char
  {
    if 'A' <= c <= 'Z' then (c as int + 32) as char else c
  }

  function ToLower(s: string): (r: string)
    ensures |r| == |s| && forall i :: 0 <= i < |s| ==> r[i] == LowerChar(s[i])
  {
    seq(|s|, i requires 0 <= i < |s| => LowerChar(s[i]))
  }

  /** `s.includes(t)`. */
  predicate Contains(s: string, t: string)
  {
    (|t| <= |s| && s[..|t|] == t) || (s != [] && Contains(s[1..], t))
  }

  /** `t` stands in `s` at position `i`. */
  predicate OccursAt(s: string, t: string, i: int)
  {
    0 <= i <= |s| - |t| && s[i..i + |t|] == t
  }

  /** `includes` holds exactly when `t` occurs at some position of `s`. */
  lemma {:induction false} ContainsIff(s: string, t: string)
    ensures Contains(s, t) <==> exists i :: OccursAt(s, t, i)
  {
    assert OccursAt(s, t, 0) <==> |t| <= |s| && s[..|t|] == t;
    if s != [] {
      ContainsIff(s[1..], t);
      if Contains(s, t) && !OccursAt(s, t, 0) {
        var i :| OccursAt(s[1..], t, i);
        OccursShift(s, t, i);
      }
      if exists i :: OccursAt(s, t, i) {
        var i :| OccursAt(s, t, i);
        if i > 0 {
          OccursShift(s, t, i - 1);
        }
      }
    }
  }

  /** Dropping the first character moves every occurrence one place to the left. */
  lemma OccursShift(s: string, t: string, i: int)
    requires s != [] && i >= 0
    ensures OccursAt(s[1..], t, i) <==> OccursAt(s, t, i + 1)
  {
    if 0 <= i <= |s| - 1 - |t| {
      assert s[1..][i..i + |t|] == s[i + 1..i + 1 + |t|];
    }
  }

  lemma ContainsAt(s: string, t: string, i: int)
    requires OccursAt(s, t, i)
    ensures Contains(s, t)
  {
    ContainsIff(s, t);
  }

  /** A string lacking one of `t`'s characters does not include `t`. */
  lemma {:induction false} MissingCharNotContained(s: string, t: string, c: char)
    requires c in t && c !in s
    ensures !Contains(s, t)
  {
    if s != [] {
      MissingCharNotContained(s[1..], t, c);
    }
  }

  /** A lower-case letter is absent from `ToLower(s)` when neither of its cases is in `s`. */
  lemma LowerAvoids(s: string, c: char)
    requires 'a' <= c <= 'z' && c !in s && (c as int - 32) as char !in s
    ensures c !in ToLower(s)
  {
    forall i | 0 <= i < |s|
      ensures ToLower(s)[i] != c
    {
      assert s[i] != c && s[i] != (c as int - 32) as char;
    }
  }

  // ---------------------------------------------------------- number parsing

  /** Length of the longest prefix of `s` made of decimal digits. */
  function DigitRun(s: string): (n: nat)
    ensures n <= |s|
    ensures forall i :: 0 <= i < n ==> IsDigit(s[i])
    ensures n < |s| ==> !IsDigit(s[n])
  {
    if s != [] && IsDigit(s[0]) then 1 + DigitRun(s[1..]) else 0
  }

  predicate AllDigits(d: string)
  {
    forall i :: 0 <= i < |d| ==> IsDigit(d[i])
  }

  /** The number a string of decimal digits denotes, most significant first. */
  function DigitsValue(d: string): nat
    requires AllDigits(d)
  {
    if d == [] then 0 else DigitsValue(d[..|d| - 1]) * 10 + (d[|d| - 1] as int - '0' as int)
  }

  /** A leading optional sign: whether it is a minus, and the text after it. */
  function SplitSign(t: string): (bool, string)
  {
    if t != [] && (t[0] == '-' || t[0] == '+') then (t[0] == '-', t[1..]) else (false, t)
  }

  /**
   * `parseInt(s, 10)`: leading white space, an optional sign, then the
   * longest run of digits; no digits at all is NaN (`None`).
   */
  function ParseInt(s: string): Option<int>
  {
    var (neg, u) := SplitSign(TrimStart(s));
    var n := DigitRun(u);
    if n == 0 then None
    else
      var m: int := DigitsValue(u[..n]);
      Some(if neg then -m else m)
  }

  /** `m` times ten to the power `e`. */
  function Scale(m: real, e: int): real
    decreases if e >= 0 then e else -e
  {
    if e == 0 then m
    else if e > 0 then Scale(m * 10.0, e - 1)
    else Scale(m / 10.0, e + 1)
  }

  /** The value of the digits after a decimal point: "25" is 0.25. */
  function FractionValue(d: string): real
    requires AllDigits(d)
  {
    if d == [] then 0.0 else ((d[0] as int - '0' as int) as real + FractionValue(d[1..])) / 10.0
  }

  /** The exponent part `e`/`E`, sign, digits at the start of `t`, if it is there. */
  function ExponentOf(t: string): int
  {
    if t != [] && (t[0] == 'e' || t[0] == 'E') then
      var (neg, u) := SplitSign(t[1..]);
      var n := DigitRun(u);
      var m: int := if n == 0 then 0 else DigitsValue(u[..n]);
      if neg then -m else m
    else 0
  }

  /**
   * `parseFloat(s)`: leading white space, an optional sign, then the longest
   * prefix of the form digits [`.` digits] [exponent] with at least one
   * digit in the mantissa; otherwise NaN (`None`).
   */
  function ParseFloat(s: string): Option<real>
  {
    var (neg, u) := SplitSign(TrimStart(s));
    var n1 := DigitRun(u);
    var hasDot := n1 < |u| && u[n1] == '.';
    var afterDot := if hasDot then u[n1 + 1..] else [];
    var n2 := DigitRun(afterDot);
    if n1 == 0 && n2 == 0 then None
    else
      var whole := DigitsValue(u[..n1]) as real;
      var frac := FractionValue(afterDot[..n2]);
      var rest := if hasDot then afterDot[n2..] else u[n1..];
      var m := Scale(whole + frac, ExponentOf(rest));
      Some(if neg then -m else m)
  }

  /** `parseFloat(v)` of a property read; `undefined`, null and NaN give NaN. */
  function ParseFloatValue(v: Option<Value>): (r: Option<real>)
    ensures v.Some? && v.value.Num? ==> r == Some(v.value.x)
    ensures v == None || v == Some(Null) || v == Some(NaN) ==> r == None
  {
    match v
    case Some(Num(x)) => Some(x)
    case Some(Str(s)) => ParseFloat(s)
    case _ => None
  }

  /** `parseFloat(v) || 0`: a number, never NaN and never an error. */
  function CoerceNumber(v: Option<Value>): (x: real)
    ensures ParseFloatValue(v).Some? ==> x == ParseFloatValue(v).value
    ensures ParseFloatValue(v).None? ==> x == 0.0
  {
    match ParseFloatValue(v)
    case Some(x) => x
    case None => 0.0
  }

  /** `parseFloat(v)` stored back as a value: NaN when the text is not a number. */
  function ParsedValue(v: Value): Value
  {
    match ParseFloatValue(Some(v))
    case Some(x) => Num(x)
    case None => NaN
  }

  /** `String(v).trim() === ""` with undefined and null read as "". */
  predicate IsBlank(v: Option<Value>)
  {
    match v
    case None => true
    case Some(Null) => true
    case Some(Str(s)) => Trim(s) == ""
    case _ => false
  }

  /** `String(v)`, numbers rendered by the host's `show`. */
  function Text(v: Value, show: real -> string): string
  {
    match v
    case Null => "null"
    case Num(x) => show(x)
    case NaN => "NaN"
    case Str(s) => s
  }

  // ---------------------------------------------------------------- arrays

  /** Resolves a `slice` bound against a length the way ECMAScript does. */
  function SliceBound(k: int, len: nat): (b: nat)
    ensures b <= len
  {
    if k < 0 then (if len + k < 0 then 0 else len + k) else (if k > len then len else k)
  }

  /** `s.slice(start, end)`. */
  function Slice<T>(s: seq<T>, start: int, end: int): seq<T>
  {
    var from, to := SliceBound(start, |s|), SliceBound(end, |s|);
    if to <= from then [] else s[from..to]
  }

  predicate NoDuplicates<T(==)>(xs: seq<T>)
  {
    forall i, j :: 0 <= i < j < |xs| ==> xs[i] != xs[j]
  }

  /** `[...new Set(xs)]`: each element once, at its first occurrence. */
  function Dedup(xs: seq<string>): (r: seq<string>)
    ensures NoDuplicates(r)
    ensures forall x :: x in r <==> x in xs
    ensures |r| <= |xs|
  {
    if xs == [] then []
    else
      var d := Dedup(xs[..|xs| - 1]);
      var x := xs[|xs| - 1];
      assert forall y :: y in xs <==> y in xs[..|xs| - 1] || y == x;
      if x in d then d else d + [x]
  }

  /** Index of the first occurrence of `x`. */
  function FirstIndex(xs: seq<string>, x: string): (i: nat)
    requires x in xs
    ensures i < |xs| && xs[i] == x && x !in xs[..i]
  {
    if xs[0] == x then 0 else 1 + FirstIndex(xs[1..], x)
  }

  lemma FirstIndexPrefix(xs: seq<string>, x: string, n: nat)
    requires n <= |xs| && x in xs[..n]
    ensures FirstIndex(xs, x) == FirstIndex(xs[..n], x)
  {
    var i, j := FirstIndex(xs, x), FirstIndex(xs[..n], x);
    assert forall k | 0 <= k < j :: xs[..n][..j][k] == xs[k];
    assert forall k | 0 <= k < i :: xs[..i][k] == xs[k];
  }

  /** A duplicate-free list is left as it is. */
  lemma {:induction false} DedupOfDistinct(xs: seq<string>)
    requires NoDuplicates(xs)
    ensures Dedup(xs) == xs
  {
    if xs != [] {
      var p := xs[..|xs| - 1];
      DedupOfDistinct(p);
      assert xs[|xs| - 1] !in p;
      assert p + [xs[|xs| - 1]] == xs;
    }
  }

  /** The kept elements stand in the order of their first occurrences. */
  lemma {:induction false} DedupKeepsFirstOccurrenceOrder(xs: seq<string>)
    ensures forall i, j :: 0 <= i < j < |Dedup(xs)| ==> FirstIndex(xs, Dedup(xs)[i]) < FirstIndex(xs, Dedup(xs)[j])
  {
    if xs != [] {
      var p := xs[..|xs| - 1];
      var x := xs[|xs| - 1];
      DedupKeepsFirstOccurrenceOrder(p);
      var d := Dedup(p);
      assert xs == p + [x];
      assert xs[..|p|] == p;
      forall k | 0 <= k < |d|
        ensures d[k] in p && d[k] in xs && FirstIndex(xs, d[k]) == FirstIndex(p, d[k])
      {
        assert d[k] in d;
        FirstIndexPrefix(xs, d[k], |p|);
      }
      FirstIndexOrderTransfer(xs, p, d);
      if x !in d {
        assert FirstIndex(xs, x) == |p| by {
          assert x !in p;
        }
        FirstIndexOrderAppend(xs, d, x);
      }
    }
  }

  /** Elements whose first indices agree in `p` and `xs` keep their order. */
  lemma FirstIndexOrderTransfer(xs: seq<string>, p: seq<string>, d: seq<string>)
    requires forall k :: 0 <= k < |d| ==> d[k] in p && d[k] in xs && FirstIndex(xs, d[k]) == FirstIndex(p, d[k])
    requires forall i, j :: 0 <= i < j < |d| ==> FirstIndex(p, d[i]) < FirstIndex(p, d[j])
    ensures forall i, j :: 0 <= i < j < |d| ==> FirstIndex(xs, d[i]) < FirstIndex(xs, d[j])
  {
  }

  /** An element first found after every element of `d` can follow them in order. */
  lemma FirstIndexOrderAppend(xs: seq<string>, d: seq<string>, x: string)
    requires x in xs && forall k :: 0 <= k < |d| ==> d[k] in xs && FirstIndex(xs, d[k]) < FirstIndex(xs, x)
    requires forall i, j :: 0 <= i < j < |d| ==> FirstIndex(xs, d[i]) < FirstIndex(xs, d[j])
    ensures forall i, j :: 0 <= i < j < |d + [x]| ==> FirstIndex(xs, (d + [x])[i]) < FirstIndex(xs, (d + [x])[j])
  {
    var r := d + [x];
    forall i, j | 0 <= i < j < |r|
      ensures FirstIndex(xs, r[i]) < FirstIndex(xs, r[j])
    {
      assert r[i] == d[i];
      if j < |d| {
        assert r[j] == d[j];
      }
    }
  }

  /** Deduplication distributes over a prefix: `Dedup(a + b)` starts with `Dedup(a)`. */
  lemma {:induction false} DedupPrefix(a: seq<string>, b: seq<string>)
    ensures |Dedup(a)| <= |Dedup(a + b)| && Dedup(a + b)[..|Dedup(a)|] == Dedup(a)
  {
    if b != [] {
      DedupPrefix(a, b[..|b| - 1]);
      assert (a + b)[..|a + b| - 1] == a + b[..|b| - 1];
    } else {
      assert a + b == a;
    }
  }
}
