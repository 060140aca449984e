/** The pieces of JavaScript's string and number semantics that the
    application's decision logic relies on: white space, `trim`, `parseInt`,
    `String.prototype.replace` with a string pattern, number-to-string for
    non-negative integers, and the shape of a JavaScript value. */
module JsSemantics {

  datatype Option<+T> = None | Some(value: T) {
    function GetOr(default: T): T {
      match this
      case Some(v) => v
      case None => default
    }
  }

  /** A JavaScript value, as far as the application inspects one. Numbers are
      kept as rationals; only their presence matters where they occur. */
  datatype JsValue =
    | Undef
    | Null
    | Str(s: string)
    | Num(n: real)
    | Bool(b: bool)
    | Arr(items: seq<JsValue>)
    | Obj(props: map<string, JsValue>)

  /** WhiteSpace and LineTerminator of ECMA-262: the set matched by `\s`,
      removed by `trim` and skipped by `parseInt`. */
  predicate IsWhiteSpace(c: char) {
    || c == '\t' || c == '\n' || c == '\U{000B}' || c == '\U{000C}' || c == '\r' || c == ' '
    || c == '\U{00A0}' || c == '\U{1680}' || ('\U{2000}' <= c <= '\U{200A}')
    || c == '\U{2028}' || c == '\U{2029}' || c == '\U{202F}' || c == '\U{205F}'
    || c == '\U{3000}' || c == '\U{FEFF}'
  }

  predicate AllWhiteSpace(s: string) {
    forall i :: 0 <= i < |s| ==> IsWhiteSpace(s[i])
  }

  /** The length of the longest prefix of `s` whose characters satisfy `p`. */
  function LeadingRun(s: string, p: char -> bool): (n: nat)
    ensures n <= |s|
    ensures forall i :: 0 <= i < n ==> p(s[i])
    ensures n < |s| ==> !p(s[n])
  {
    if s != [] && p(s[0]) then 1 + LeadingRun(s[1..], p) else 0
  }

  /** The length of the longest suffix of `s` whose characters satisfy `p`. */
  function TrailingRun(s: string, p: char -> bool): (n: nat)
    ensures n <= |s|
    ensures forall i :: |s| - n <= i < |s| ==> p(s[i])
    ensures n < |s| ==> !p(s[|s| - 1 - n])
  {
    if s != [] && p(s[|s| - 1]) then 1 + TrailingRun(s[..|s| - 1], p) else 0
  }

  /** `s` without its longest prefix of characters satisfying `p`. */
  function DropWhile(s: string, p: char -> bool): string {
    s[LeadingRun(s, p)..]
  }

  /** `s` without its longest suffix of characters satisfying `p`. */
  function DropWhileEnd(s: string, p: char -> bool): string {
    s[..|s| - TrailingRun(s, p)]
  }

  /** `String.prototype.trimStart`: `s` with its leading white space removed. */
  function TrimStart(s: string): string {
    DropWhile(s, IsWhiteSpace)
  }

  /** `String.prototype.trim`. */
  function Trim(s: string): (r: string)
    ensures r == [] <==> AllWhiteSpace(s)
    ensures r != [] ==> !IsWhiteSpace(r[0]) && !IsWhiteSpace(r[|r| - 1])
    ensures |r| <= |s|
  {
    var lo := LeadingRun(s, IsWhiteSpace);
    var t := s[lo..];
    var hi := |t| - TrailingRun(t, IsWhiteSpace);
    assert hi > 0 ==> t[0] == s[lo];
    assert lo < |s| ==> !AllWhiteSpace(s);
    t[..hi]
  }

  /** The index of the first occurrence of `c` in `s`. */
  function IndexOf(s: string, c: char): (r: Option<nat>)
    ensures r.None? <==> c !in s
    ensures r.Some? ==> r.value < |s| && s[r.value] == c && c !in s[..r.value]
  {
    if s == [] then None
    else if s[0] == c then Some(0)
    else
      var r := IndexOf(s[1..], c);
      if r.None? then None
      else
        assert s[..r.value + 1] == [s[0]] + s[1..][..r.value];
        Some(r.value + 1)
  }

  /** The first occurrence is the one `IndexOf` finds. */
  lemma IndexOfFirst(s: string, c: char, i: nat)
    requires i < |s| && s[i] == c && c !in s[..i]
    ensures IndexOf(s, c) == Some(i)
  {
    assert s[i] in s;
    var j := IndexOf(s, c).value;
    assert forall k :: 0 <= k < i ==> s[k] != c by {
      forall k | 0 <= k < i
        ensures s[k] != c
      {
        assert s[k] == s[..i][k];
      }
    }
    assert forall k :: 0 <= k < j ==> s[k] != c by {
      forall k | 0 <= k < j
        ensures s[k] != c
      {
        assert s[k] == s[..j][k];
      }
    }
  }

  /** `s.replace(c, "")` for a one-character string pattern: only the first
      occurrence is removed. */
  function RemoveFirst(s: string, c: char): (r: string)
    ensures c !in s ==> r == s
    ensures c in s ==> exists i :: 0 <= i < |s| && s[i] == c && c !in s[..i] && r == s[..i] + s[i + 1..]
  {
    match IndexOf(s, c)
    case None => s
    case Some(i) => s[..i] + s[i + 1..]
  }

  /** The value of `c` as a digit in base `radix` (10 or 16), if it is one. */
  function DigitValue(c: char, radix: nat): (r: Option<nat>)
    ensures r.Some? ==> r.value < radix
  {
    if '0' <= c <= '9' && (c as int) - ('0' as int) < radix then Some((c as int) - ('0' as int))
    else if radix == 16 && 'a' <= c <= 'f' then Some((c as int) - ('a' as int) + 10)
    else if radix == 16 && 'A' <= c <= 'F' then Some((c as int) - ('A' as int) + 10)
    else None
  }

  predicate AllDigits(s: string, radix: nat) {
    forall i :: 0 <= i < |s| ==> DigitValue(s[i], radix).Some?
  }

  /** The longest prefix of `s` made of digits in base `radix`. */
  function DigitPrefix(s: string, radix: nat): (r: string)
    ensures |r| <= |s| && r == s[..|r|]
    ensures AllDigits(r, radix)
    ensures |r| < |s| ==> DigitValue(s[|r|], radix).None?
  {
    if s != [] && DigitValue(s[0], radix).Some? then
      var r := DigitPrefix(s[1..], radix);
      assert [s[0]] + r == s[..|r| + 1];
      [s[0]] + r
    else []
  }

  /** The number a string of digits denotes in base `radix`. */
  function DigitsValue(ds: string, radix: nat): nat
    requires AllDigits(ds, radix)
  {
    if ds == [] then 0
    else DigitsValue(ds[..|ds| - 1], radix) * radix + DigitValue(ds[|ds| - 1], radix).value
  }

  /** JavaScript's `parseInt(s)` with no radix, as a total function: leading
      white space is skipped, then an optional sign, then a `0x`/`0X` prefix
      switches to base 16; the longest digit prefix is read. `None` is NaN,
      which no comparison accepts. Results are exact integers: the rounding of
      digit strings longer than 2^53 never crosses the small thresholds the
      application compares against. */
  function ParseInt(s: string): Option<int> {
    var t := TrimStart(s);
    var negative := t != [] && t[0] == '-';
    var u := if t != [] && (t[0] == '-' || t[0] == '+') then t[1..] else t;
    match ParseMagnitude(u)
    case None => None
    case Some(m) => Some(if negative then -(m as int) else m as int)
  }

  /** The unsigned part of `parseInt`: a `0x`/`0X` prefix selects base 16. */
  function ParseMagnitude(u: string): Option<nat> {
    if |u| >= 2 && u[0] == '0' && (u[1] == 'x' || u[1] == 'X') then ParseDigits(u[2..], 16)
    else ParseDigits(u, 10)
  }

  /** The value of the longest digit prefix of `b`; NaN when it is empty. */
  function ParseDigits(b: string, radix: nat): Option<nat> {
    var ds := DigitPrefix(b, radix);
    if ds == [] then None else Some(DigitsValue(ds, radix))
  }

  /** `x < k` where `x` may be NaN. */
  predicate LessThan(x: Option<int>, k: int) {
    x.Some? && x.value < k
  }

  /** `x > k` where `x` may be NaN. */
  predicate GreaterThan(x: Option<int>, k: int) {
    x.Some? && x.value > k
  }

  /** The decimal digit character for `d`. */
  function DigitChar(d: nat): (c: char)
    requires d < 10
    ensures DigitValue(c, 10) == Some(d)
  {
    ['0', '1', '2', '3', '4', '5', '6', '7', '8', '9'][d]
  }

  /** The way JavaScript prints a non-negative integer (template literals,
      `String(n)`): decimal, without leading zeros. */
  function NatToString(n: nat): (r: string)
    ensures |r| > 0 && AllDigits(r, 10) && DigitsValue(r, 10) == n
    ensures r[0] == '0' ==> n == 0
  {
    if n < 10 then [DigitChar(n)]
    else
      var p := NatToString(n / 10);
      var r := p + [DigitChar(n % 10)];
      assert r[..|r| - 1] == p;
      r
  }

  /** Reading back what JavaScript prints for a non-negative integer gives the
      integer. */
  lemma ParseIntOfNatToString(n: nat)
    ensures ParseInt(NatToString(n)) == Some(n)
  {
    ParseIntOfDigits(NatToString(n));
  }

  /** A non-empty string of decimal digits is read by `parseInt` as the number
      it denotes. */
  lemma ParseIntOfDigits(s: string)
    requires s != [] && AllDigits(s, 10)
    ensures ParseInt(s) == Some(DigitsValue(s, 10))
  {
    assert DigitValue(s[0], 10).Some?;
    assert |s| >= 2 ==> DigitValue(s[1], 10).Some?;
    ParseIntOfUnsigned(s);
    DigitPrefixOfDigits(s, 10);
  }

  /** A string that starts with a decimal digit and no "0x" prefix is read in
      base 10 from its first character. */
  lemma ParseIntOfUnsigned(s: string)
    requires s != [] && '0' <= s[0] <= '9'
    requires |s| >= 2 && s[0] == '0' ==> s[1] != 'x' && s[1] != 'X'
    ensures ParseInt(s) == ParseDigits(s, 10)
  {
    assert !IsWhiteSpace(s[0]);
    assert TrimStart(s) == s;
  }

  lemma DigitPrefixOfDigits(s: string, radix: nat)
    requires AllDigits(s, radix)
    ensures DigitPrefix(s, radix) == s
  {
  }

  /** `parseInt` returns NaN for a string whose first character that is not
      white space is neither a sign nor a decimal digit ("Unknown", "None",
      "More than 10", ""). */
  lemma ParseIntNaNWithoutLeadingDigit(s: string)
    requires forall i :: 0 <= i < |s| && !IsWhiteSpace(s[i]) ==>
               (forall j :: 0 <= j < i ==> IsWhiteSpace(s[j])) ==>
               s[i] != '-' && s[i] != '+' && DigitValue(s[i], 10).None?
    ensures ParseInt(s) == None
  {
    var t := TrimStart(s);
    if t != [] {
      var i := |s| - |t|;
      assert s[i] == t[0];
      assert forall j :: 0 <= j < i ==> IsWhiteSpace(s[j]) by {
        forall j | 0 <= j < i ensures IsWhiteSpace(s[j]) { assert s[..i][j] == s[j]; }
      }
      assert t[0] != '0';
    }
  }

  /** `parseInt` of a string that starts with a character that is neither
      white space, a sign nor a digit is NaN. */
  lemma ParseIntOfNonNumeric(s: string)
    requires s != [] && !IsWhiteSpace(s[0]) && s[0] != '-' && s[0] != '+' && !('0' <= s[0] <= '9')
    ensures ParseInt(s) == None
  {
    ParseIntNaNWithoutLeadingDigit(s);
  }

  /** `parseInt` reads the leading digits and ignores what follows them. */
  lemma ParseIntOfDigitsThen(ds: string, rest: string)
    requires ds != [] && AllDigits(ds, 10) && ds[0] != '0'
    requires rest != [] ==> DigitValue(rest[0], 10).None?
    ensures ParseInt(ds + rest) == Some(DigitsValue(ds, 10))
  {
    var s := ds + rest;
    assert s[0] == ds[0] && DigitValue(ds[0], 10).Some?;
    ParseIntOfUnsigned(s);
    DigitPrefixOfDigitsThen(ds, rest);
  }

  /** `parseInt` of a string that starts with one non-zero digit not
      followed by another digit ("1-3 Items") is that digit. */
  lemma ParseIntOfOneDigit(s: string)
    requires s != [] && '1' <= s[0] <= '9'
    requires |s| >= 2 ==> DigitValue(s[1], 10).None?
    ensures ParseInt(s) == Some(s[0] as int - '0' as int)
  {
    var d, rest := [s[0]], s[1..];
    assert d + rest == s;
    assert rest != [] ==> rest[0] == s[1];
    assert AllDigits(d, 10) by { assert DigitValue(d[0], 10).Some?; }
    ParseIntOfDigitsThen(d, rest);
    assert d[..|d| - 1] == [];
  }

  lemma {:induction false} DigitPrefixOfDigitsThen(ds: string, rest: string)
    requires AllDigits(ds, 10)
    requires rest != [] ==> DigitValue(rest[0], 10).None?
    ensures DigitPrefix(ds + rest, 10) == ds
  {
    if ds == [] {
      assert ds + rest == rest;
    } else {
      assert (ds + rest)[0] == ds[0];
      assert (ds + rest)[1..] == ds[1..] + rest;
      DigitPrefixOfDigitsThen(ds[1..], rest);
    }
  }

  /** Removing the first '%' from digits followed by "%" leaves the digits. */
  lemma RemovePercentAfterDigits(ds: string)
    requires AllDigits(ds, 10)
    ensures RemoveFirst(ds + "%", '%') == ds
  {
    var s := ds + "%";
    assert s[|ds|] == '%';
    assert s[..|ds|] == ds;
    assert '%' !in ds by {
      forall j | 0 <= j < |ds| ensures ds[j] != '%' {
        assert DigitValue(ds[j], 10).Some?;
      }
    }
    var i :| 0 <= i < |s| && s[i] == '%' && '%' !in s[..i] && RemoveFirst(s, '%') == s[..i] + s[i + 1..];
    assert i == |ds| by {
      assert s[i] in s[..|ds| + 1];
      assert s[|ds|] in s[..i + 1];
    }
  }

  /** JavaScript truthiness (`!v`, `v || d`, `v && e`). A number is falsy
      only when it is zero; NaN does not arise where the model uses numbers. */
  predicate Truthy(v: JsValue) {
    match v
    case Undef => false
    case Null => false
    case Str(s) => s != ""
    case Num(n) => n != 0.0
    case Bool(b) => b
    case Arr(_) => true
    case Obj(_) => true
  }

  /** A character that `/[^0-9.]/g` does not remove. */
  predicate IsDigitOrDot(c: char) {
    '0' <= c <= '9' || c == '.'
  }

  /** `s.replace(/[^0-9.]/g, '')`. */
  function KeepDigitsAndDots(s: string): (r: string)
    ensures |r| <= |s|
    ensures forall i :: 0 <= i < |r| ==> IsDigitOrDot(r[i])
    ensures IsSubsequence(r, s)
  {
    FilterIsSubsequence(s, IsDigitOrDot);
    Filter(s, IsDigitOrDot)
  }

  function Pow10(n: nat): (r: nat)
    ensures r >= 1
  {
    if n == 0 then 1 else 10 * Pow10(n - 1)
  }

  /** The digits before the point of the decimal literal `parseFloat` reads. */
  function IntegerDigits(t: string): string {
    DigitPrefix(t, 10)
  }

  /** The digits after the point, when a point follows the integer digits. */
  function FractionDigits(t: string): (r: string)
    ensures AllDigits(r, 10)
  {
    var rest := t[|IntegerDigits(t)|..];
    if rest != [] && rest[0] == '.' then DigitPrefix(rest[1..], 10) else []
  }

  /** `parseFloat(t)` for a string made of digits and points only: the longest
      prefix of the form digits, point, digits, with a digit on one side of
      the point at least; `None` is NaN. The value is kept exact, so the
      rounding to a double (and its underflow to 0 for a value below about
      1e-324) is not modelled. */
  function ParseDecimal(t: string): (r: Option<real>)
    requires forall i :: 0 <= i < |t| ==> IsDigitOrDot(t[i])
    ensures r.None? <==> IntegerDigits(t) == [] && FractionDigits(t) == []
    ensures r.Some? ==> r.value >= 0.0
  {
    var ip := IntegerDigits(t);
    var fp := FractionDigits(t);
    if ip == [] && fp == [] then None
    else Some((DigitsValue(ip, 10) as real) + (DigitsValue(fp, 10) as real) / (Pow10(|fp|) as real))
  }

  predicate HasNonZeroDigit(ds: string) {
    exists i :: 0 <= i < |ds| && ds[i] != '0'
  }

  /** A digit string denotes a positive number iff one of its digits is not 0. */
  lemma {:induction false} DigitsValuePositiveIff(ds: string)
    requires AllDigits(ds, 10)
    ensures DigitsValue(ds, 10) > 0 <==> HasNonZeroDigit(ds)
  {
    if ds != [] {
      var init := ds[..|ds| - 1];
      DigitsValuePositiveIff(init);
      assert forall i :: 0 <= i < |init| ==> init[i] == ds[i];
      if HasNonZeroDigit(init) {
        var i :| 0 <= i < |init| && init[i] != '0';
        assert ds[i] != '0';
      }
      if HasNonZeroDigit(ds) {
        var i :| 0 <= i < |ds| && ds[i] != '0';
        if i < |init| { assert init[i] != '0'; }
      }
    }
  }

  /** `parseFloat` of a digits-and-points string is a positive number iff a
      digit other than 0 occurs in the literal it reads. */
  lemma ParseDecimalPositiveIff(t: string)
    requires forall i :: 0 <= i < |t| ==> IsDigitOrDot(t[i])
    ensures (ParseDecimal(t).Some? && ParseDecimal(t).value > 0.0) <==>
      HasNonZeroDigit(IntegerDigits(t)) || HasNonZeroDigit(FractionDigits(t))
  {
    var ip := IntegerDigits(t);
    var fp := FractionDigits(t);
    DigitsValuePositiveIff(ip);
    DigitsValuePositiveIff(fp);
    var a := DigitsValue(ip, 10) as real;
    var b := (DigitsValue(fp, 10) as real) / (Pow10(|fp|) as real);
    assert b >= 0.0 && (b > 0.0 <==> DigitsValue(fp, 10) > 0);
    if HasNonZeroDigit(ip) || HasNonZeroDigit(fp) {
      assert ip != [] || fp != [];
      assert a + b > 0.0;
    }
  }

  /** `a` occurs in `b` in order, possibly with gaps. */
  predicate IsSubsequence<T(==)>(a: seq<T>, b: seq<T>) {
    if a == [] then true
    else if b == [] then false
    else if a[0] == b[0] then IsSubsequence(a[1..], b[1..])
    else IsSubsequence(a, b[1..])
  }

  /** Subsequences of two lists join into a subsequence of their join. */
  lemma {:induction false} SubsequenceAppend<T>(a: seq<T>, b: seq<T>, c: seq<T>, d: seq<T>)
    requires IsSubsequence(a, b) && IsSubsequence(c, d)
    ensures IsSubsequence(a + c, b + d)
  {
    if b == [] {
      assert a == [] && a + c == c && b + d == d;
    } else if a != [] && a[0] == b[0] {
      SubsequenceAppend(a[1..], b[1..], c, d);
      assert (a + c)[1..] == a[1..] + c && (b + d)[1..] == b[1..] + d;
    } else {
      SubsequenceAppend(a, b[1..], c, d);
      assert (b + d)[1..] == b[1..] + d;
      if a + c != [] {
        SubsequenceOfTail(a + c, b + d);
      }
    }
  }

  /** `Array.prototype.filter`. */
  function Filter<T(==,!new)>(s: seq<T>, p: T -> bool): (r: seq<T>)
    ensures |r| <= |s|
    ensures forall x :: x in r <==> x in s && p(x)
    ensures forall i :: 0 <= i < |r| ==> p(r[i])
  {
    if s == [] then [] else (if p(s[0]) then [s[0]] else []) + Filter(s[1..], p)
  }

  /** Filtering a join filters each part. */
  lemma {:induction false} FilterAppend<T(!new)>(a: seq<T>, b: seq<T>, p: T -> bool)
    ensures Filter(a + b, p) == Filter(a, p) + Filter(b, p)
  {
    if a == [] {
      assert a + b == b;
    } else {
      var head := if p(a[0]) then [a[0]] else [];
      calc {
        Filter(a + b, p);
      == { assert (a + b)[0] == a[0] && (a + b)[1..] == a[1..] + b; }
        head + Filter(a[1..] + b, p);
      == { FilterAppend(a[1..], b, p); }
        head + (Filter(a[1..], p) + Filter(b, p));
      ==
        (head + Filter(a[1..], p)) + Filter(b, p);
      }
    }
  }

  /** What `filter` keeps, it keeps in the original order. */
  lemma {:induction false} FilterIsSubsequence<T(!new)>(s: seq<T>, p: T -> bool)
    ensures IsSubsequence(Filter(s, p), s)
  {
    if s != [] {
      FilterIsSubsequence(s[1..], p);
      if p(s[0]) {
        assert Filter(s, p) == [s[0]] + Filter(s[1..], p);
        assert (Filter(s, p))[1..] == Filter(s[1..], p);
      } else {
        assert Filter(s, p) == Filter(s[1..], p);
        SubsequenceOfTail(Filter(s[1..], p), s);
      }
    }
  }

  lemma {:induction false} SubsequenceOfTail<T>(a: seq<T>, b: seq<T>)
    requires b != [] && IsSubsequence(a, b[1..])
    ensures IsSubsequence(a, b)
  {
    if a != [] && a[0] == b[0] {
      SubsequenceDropFirst(a, b[1..]);
    }
  }

  lemma {:induction false} SubsequenceDropFirst<T>(a: seq<T>, b: seq<T>)
    requires a != [] && IsSubsequence(a, b)
    ensures IsSubsequence(a[1..], b)
  {
    if b != [] {
      if a[0] == b[0] {
        SubsequenceOfTail(a[1..], b);
      } else {
        SubsequenceDropFirst(a, b[1..]);
        SubsequenceOfTail(a[1..], b);
      }
    }
  }

  /** Filtering by a predicate and by its negation splits the sequence. */
  lemma {:induction false} FilterPartition<T(!new)>(s: seq<T>, p: T -> bool, q: T -> bool)
    requires forall x :: q(x) == !p(x)
    ensures |Filter(s, p)| + |Filter(s, q)| == |s|
  {
    if s != [] {
      FilterPartition(s[1..], p, q);
    }
  }

  /** Keeping every element of `s` keeps `s`. */
  lemma {:induction false} FilterKeepsAll<T(!new)>(s: seq<T>, p: T -> bool)
    requires forall x :: x in s ==> p(x)
    ensures Filter(s, p) == s
  {
    if s != [] {
      FilterKeepsAll(s[1..], p);
    }
  }

  function Count<T(==,!new)>(s: seq<T>, p: T -> bool): (n: nat)
    ensures n <= |s|
    ensures n == |s| <==> forall x :: x in s ==> p(x)
    ensures n == 0 <==> forall x :: x in s ==> !p(x)
  {
    CountFacts(s, p);
    |Filter(s, p)|
  }

  lemma {:induction false} CountFacts<T(!new)>(s: seq<T>, p: T -> bool)
    ensures |Filter(s, p)| == |s| <==> forall x :: x in s ==> p(x)
    ensures |Filter(s, p)| == 0 <==> forall x :: x in s ==> !p(x)
  {
    if s != [] {
      CountFacts(s[1..], p);
      assert forall x :: x in s <==> x == s[0] || x in s[1..];
    }
  }
}
