/** Shared value types and the small JavaScript built-ins the application relies on:
    `Array.prototype.filter`, `String.prototype.toLowerCase/toUpperCase/startsWith/includes`,
    `parseInt` and decimal formatting of non-negative integers. */
module Common {

  datatype Option<+T> = None | Some(value: T) {
    function GetOr(default: T): T {
      match this
      case Some(v) => v
      case None => default
    }
  }

  /** A JavaScript string value that is neither missing nor empty. */
  predicate Truthy(v: Option<string>) {
    v.Some? && v.value != ""
  }

  /** A form or record field as JavaScript holds it: missing (`null`/`undefined`),
      a number, or the text an input element produced. */
  datatype JsField = Absent | Int(n: int) | Text(s: string)

  // ---------------------------------------------------------------------------
  // Sequences
  // ---------------------------------------------------------------------------

  /** `r` is `s` with some elements dropped and the rest kept in order. */
  ghost predicate SubsequenceOf<T>(r: seq<T>, s: seq<T>)
    decreases |s|
  {
    if r == [] then true
    else if s == [] then false
    else if r[0] == s[0] then SubsequenceOf(r[1..], s[1..])
    else SubsequenceOf(r, s[1..])
  }

  /** `Array.prototype.filter`. */
  function Filter<T>(s: seq<T>, p: T -> bool): (r: seq<T>)
    ensures |r| <= |s|
    ensures forall i :: 0 <= i < |r| ==> r[i] in s && p(r[i])
    ensures forall i :: 0 <= i < |s| && p(s[i]) ==> s[i] in r
    ensures SubsequenceOf(r, s)
    decreases |s|
  {
    if s == [] then []
    else if p(s[0]) then [s[0]] + Filter(s[1..], p)
    else Filter(s[1..], p)
  }

  /** Filtering keeps every passing element as often as it occurs, and no other. */
  lemma {:induction false} FilterCounts<T(!new)>(s: seq<T>, p: T -> bool)
    ensures forall x :: multiset(Filter(s, p))[x] == if p(x) then multiset(s)[x] else 0
    decreases |s|
  {
    if s != [] {
      assert s == [s[0]] + s[1..];
      FilterCounts(s[1..], p);
    }
  }

  lemma {:induction false} FilterAppend<T>(a: seq<T>, b: seq<T>, p: T -> bool)
    ensures Filter(a + b, p) == Filter(a, p) + Filter(b, p)
    decreases |a|
  {
    if a == [] {
      assert a + b == b;
    } else {
      assert (a + b)[1..] == a[1..] + b;
      FilterAppend(a[1..], b, p);
    }
  }

  lemma FilterCons<T>(h: T, t: seq<T>, p: T -> bool)
    ensures Filter([h] + t, p) == (if p(h) then [h] else []) + Filter(t, p)
  {
    assert ([h] + t)[0] == h && ([h] + t)[1..] == t;
  }

  /** `Array.prototype.filter` on a non-empty array: the verdict on the head, then the rest. */
  lemma FilterHead<T>(s: seq<T>, p: T -> bool)
    requires s != []
    ensures Filter(s, p) == (if p(s[0]) then [s[0]] else []) + Filter(s[1..], p)
  {
  }

  lemma ConcatAssoc<T>(a: seq<T>, b: seq<T>, c: seq<T>)
    ensures a + (b + c) == (a + b) + c
  {
  }

  /** Filtering keeps everything when every element passes. */
  lemma {:induction false} FilterAll<T>(s: seq<T>, p: T -> bool)
    requires forall i :: 0 <= i < |s| ==> p(s[i])
    ensures Filter(s, p) == s
    decreases |s|
  {
    if s != [] {
      FilterAll(s[1..], p);
    }
  }

  /** Filtering drops everything when no element passes. */
  lemma {:induction false} FilterNone<T>(s: seq<T>, p: T -> bool)
    requires forall i :: 0 <= i < |s| ==> !p(s[i])
    ensures Filter(s, p) == []
    decreases |s|
  {
    if s != [] {
      FilterNone(s[1..], p);
    }
  }

  lemma SplitLast<T>(s: seq<T>)
    requires s != []
    ensures s == s[..|s| - 1] + [s[|s| - 1]]
  {
  }

  /** Number of occurrences of `x` in `s`. */
  function Count<T(==)>(s: seq<T>, x: T): nat
    decreases |s|
  {
    if s == [] then 0 else (if s[0] == x then 1 else 0) + Count(s[1..], x)
  }

  function Sum(s: seq<nat>): nat
    decreases |s|
  {
    if s == [] then 0 else s[0] + Sum(s[1..])
  }

  // ---------------------------------------------------------------------------
  // Strings (ASCII case mapping, as on the identifiers and titles the app handles)
  // ---------------------------------------------------------------------------

  function LowerChar(c: char): char {
    if 'A' <= c <= 'Z' then (c as int + 32) as char else c
  }

  function UpperChar(c: char): char {
    if 'a' <= c <= 'z' then (c as int - 32) as char else c
  }

  /** `String.prototype.toLowerCase`. */
  function Lower(s: string): (r: string)
    ensures |r| == |s|
    ensures forall i :: 0 <= i < |s| ==> r[i] == LowerChar(s[i])
  {
    seq(|s|, i requires 0 <= i < |s| => LowerChar(s[i]))
  }

  /** `String.prototype.startsWith`. */
  predicate StartsWith(s: string, prefix: string) {
    |prefix| <= |s| && s[..|prefix|] == prefix
  }

  /** `String.prototype.includes`: `sub` occurs at some position of `s`. */
  predicate Includes(s: string, sub: string)
    decreases |s|
  {
    StartsWith(s, sub) || (s != [] && Includes(s[1..], sub))
  }

  lemma {:induction false} IncludesAt(s: string, sub: string, i: nat)
    requires i + |sub| <= |s| && s[i..i + |sub|] == sub
    ensures Includes(s, sub)
    decreases i
  {
    if i > 0 {
      assert s[1..][i - 1..i - 1 + |sub|] == s[i..i + |sub|];
      IncludesAt(s[1..], sub, i - 1);
    }
  }

  // ---------------------------------------------------------------------------
  // Decimal numbers
  // ---------------------------------------------------------------------------

  predicate IsDigit(c: char) {
    '0' <= c <= '9'
  }

  function DigitValue(c: char): nat
    requires IsDigit(c)
  {
    c as int - '0' as int
  }

  function DigitChar(d: nat): char
    requires d < 10
  {
    ('0' as int + d) as char
  }

  /** Decimal rendering of a non-negative integer, as template literals produce it. */
  function NatToString(n: nat): (r: string)
    ensures r != []
    ensures forall i :: 0 <= i < |r| ==> IsDigit(r[i])
    decreases n
  {
    if n < 10 then [DigitChar(n)] else NatToString(n / 10) + [DigitChar(n % 10)]
  }

  /** The longest run of decimal digits at the front of `s`, read as a number
      together with the rest of `s`; `None` when `s` does not start with a digit. */
  function ParseDigits(s: string): (r: Option<(nat, string)>)
    ensures r.Some? ==> |r.value.1| < |s| && r.value.1 == s[|s| - |r.value.1|..]
    decreases |s|
  {
    if s == [] || !IsDigit(s[0]) then None
    else
      var d := DigitValue(s[0]);
      match ParseDigits(s[1..])
      case None => Some((d, s[1..]))
      case Some((n, rest)) => Some((d * Power10(|s| - 1 - |rest|) + n, rest))
  }

  function Power10(k: nat): nat
  {
    if k == 0 then 1 else 10 * Power10(k - 1)
  }

  /** Reading the decimal digits back recovers the number and leaves whatever follows. */
  lemma {:induction false} ParseNatToString(n: nat, rest: string)
    requires rest == [] || !IsDigit(rest[0])
    ensures ParseDigits(NatToString(n) + rest) == Some((n, rest))
  {
    ParseFromDigits(NatToString(n), rest);
    ValueOfNatToString(n);
  }

  /** Value of a string of digits, most significant first. */
  function DigitsValue(ds: string): nat
    requires forall i :: 0 <= i < |ds| ==> IsDigit(ds[i])
    decreases |ds|
  {
    if ds == [] then 0
    else DigitsValue(ds[..|ds| - 1]) * 10 + DigitValue(ds[|ds| - 1])
  }

  lemma {:induction false} ValueOfNatToString(n: nat)
    ensures DigitsValue(NatToString(n)) == n
    decreases n
  {
    if n >= 10 {
      var r := NatToString(n / 10) + [DigitChar(n % 10)];
      assert r[..|r| - 1] == NatToString(n / 10);
      ValueOfNatToString(n / 10);
    }
  }

  /** Prepending one digit adds its weight at the top. */
  lemma {:induction false} DigitsValueCons(ds: string)
    requires ds != [] && forall i :: 0 <= i < |ds| ==> IsDigit(ds[i])
    ensures DigitsValue(ds) == DigitValue(ds[0]) * Power10(|ds| - 1) + DigitsValue(ds[1..])
    decreases |ds|
  {
    if |ds| > 1 {
      var init, tail := ds[..|ds| - 1], ds[1..];
      var d, w, last := DigitValue(ds[0]), Power10(|ds| - 2), DigitValue(ds[|ds| - 1]);
      assert init[1..] == tail[..|tail| - 1];
      assert init[0] == ds[0] && tail[|tail| - 1] == ds[|ds| - 1];
      DigitsValueCons(init);
      assert DigitsValue(tail) == DigitsValue(init[1..]) * 10 + last;
      assert Power10(|ds| - 1) == 10 * w;
      ShiftDigit(d, w, DigitsValue(init[1..]), last);
    }
  }

  /** Appending a digit to a number with leading digit `d` of weight `w`. */
  lemma ShiftDigit(d: int, w: int, rest: int, last: int)
    ensures (d * w + rest) * 10 + last == d * (10 * w) + (rest * 10 + last)
  {
  }

  lemma {:induction false} ParseFromDigits(ds: string, rest: string)
    requires ds != [] && forall i :: 0 <= i < |ds| ==> IsDigit(ds[i])
    requires rest == [] || !IsDigit(rest[0])
    ensures ParseDigits(ds + rest) == Some((DigitsValue(ds), rest))
    decreases |ds|
  {
    var s := ds + rest;
    assert s[0] == ds[0];
    if |ds| == 1 {
      assert s[1..] == rest;
    } else {
      assert s[1..] == ds[1..] + rest;
      ParseFromDigits(ds[1..], rest);
      DigitsValueCons(ds);
    }
  }

  /** `parseInt(text)` for decimal text: leading blanks are skipped, an optional sign is
      read, then the longest run of digits; `None` stands for `NaN`. */
  function ParseIntText(s: string): Option<int>
    decreases |s|
  {
    if s != [] && (s[0] == ' ' || s[0] == '\t' || s[0] == '\n' || s[0] == '\r') then ParseIntText(s[1..])
    else if s != [] && (s[0] == '-' || s[0] == '+') then
      match ParseDigits(s[1..])
      case None => None
      case Some((n, _)) => Some(if s[0] == '-' then -(n as int) else n as int)
    else
      match ParseDigits(s)
      case None => None
      case Some((n, _)) => Some(n)
  }

  /** `parseInt(v)` for a field value: a number is kept, text is parsed, a missing value is `NaN`. */
  function ParseInt(v: JsField): Option<int> {
    match v
    case Absent => None
    case Int(n) => Some(n)
    case Text(s) => ParseIntText(s)
  }

  /** A number typed into a numeric input reads back as itself. */
  lemma ParseIntOfRendered(n: nat)
    ensures ParseIntText(NatToString(n)) == Some(n)
  {
    ParseNatToString(n, []);
    assert NatToString(n) + [] == NatToString(n);
    assert IsDigit(NatToString(n)[0]);
  }
}
