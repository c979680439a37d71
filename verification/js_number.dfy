/** JavaScript's integer parsing and printing as the demos use them:
    `parseInt(s, radix)`, `Number.prototype.toString(radix)`,
    `String.prototype.charCodeAt(0)` and the BigInt operators `**` and `%`.
    Numbers are unbounded integers; NaN is `None`. */
module JsNumber {

  import opened Wrappers
  import JsString

  /** Value of `c` read as a digit in base 36 (either letter case), if it is one. */
  function DigitValue(c: char): (r: Option<nat>)
    ensures r.Some? ==> r.value < 36
  {
    if '0' <= c <= '9' then Some(c as int - '0' as int)
    else if 'a' <= c <= 'z' then Some(c as int - 'a' as int + 10)
    else if 'A' <= c <= 'Z' then Some(c as int - 'A' as int + 10)
    else None
  }

  /** `c` is a digit of base `radix`. */
  predicate IsDigit(c: char, radix: nat) {
    DigitValue(c).Some? && DigitValue(c).value < radix
  }

  /** End of the longest run of base-`radix` digits starting at `i`. */
  function DigitRun(s: string, i: nat, radix: nat): (k: nat)
    requires i <= |s|
    ensures i <= k <= |s|
    ensures forall j :: i <= j < k ==> IsDigit(s[j], radix)
    ensures k < |s| ==> !IsDigit(s[k], radix)
    decreases |s| - i
  {
    if i == |s| || !IsDigit(s[i], radix) then i else DigitRun(s, i + 1, radix)
  }

  /** Value of a digit string, most significant digit first. */
  function DigitsValue(d: string, radix: nat): nat
    requires forall j :: 0 <= j < |d| ==> IsDigit(d[j], radix)
  {
    if d == [] then 0
    else
      var last := d[|d| - 1];
      assert IsDigit(last, radix);
      DigitsValue(d[..|d| - 1], radix) * radix + DigitValue(last).value
  }

  /** `parseInt(s, radix)`, with radix 0 standing for an omitted radix.
      Leading whitespace is skipped, one sign is taken, a `0x`/`0X` prefix
      switches to base 16 when the radix is omitted or 16, and the longest
      run of digits that follows is read; no digit at all gives NaN. */
  function ParseInt(s: string, radix: nat): (r: Option<int>)
    ensures radix != 0 && (radix < 2 || radix > 36) ==> r.None?
  {
    if radix != 0 && (radix < 2 || radix > 36) then None
    else ReadDigits(s, DigitsStart(s, radix), DigitsBase(s, radix), IsNegative(s))
  }

  /** The text has a `-` after its leading whitespace. */
  predicate IsNegative(s: string) {
    var i := JsString.SkipWhitespace(s, 0);
    i < |s| && s[i] == '-'
  }

  /** Where the digits start: past the whitespace, the sign and any `0x`. */
  function DigitsStart(s: string, radix: nat): (k: nat)
    ensures k <= |s|
  {
    var j := SignEnd(s, JsString.SkipWhitespace(s, 0));
    if HasHexPrefix(s, j, radix) then j + 2 else j
  }

  /** The base the digits are read in. */
  function DigitsBase(s: string, radix: nat): nat {
    var j := SignEnd(s, JsString.SkipWhitespace(s, 0));
    if HasHexPrefix(s, j, radix) then 16 else if radix == 0 then 10 else radix
  }

  /** Index just past an optional `+` or `-` at `i`. */
  function SignEnd(s: string, i: nat): (j: nat)
    requires i <= |s|
    ensures i <= j <= |s|
  {
    if i < |s| && (s[i] == '-' || s[i] == '+') then i + 1 else i
  }

  /** `s` has a `0x` or `0X` prefix at `j` and the radix lets it count. */
  predicate HasHexPrefix(s: string, j: nat, radix: nat) {
    (radix == 0 || radix == 16) && j + 2 <= |s| && s[j] == '0' && (s[j + 1] == 'x' || s[j + 1] == 'X')
  }

  /** The longest run of base-`base` digits at `start`, read with its sign;
      NaN when the run is empty. */
  function ReadDigits(s: string, start: nat, base: nat, negative: bool): (r: Option<int>)
    requires start <= |s|
    ensures r.Some? <==> start < |s| && IsDigit(s[start], base)
  {
    var end := DigitRun(s, start, base);
    if end == start then None
    else
      assert forall k :: 0 <= k < end - start ==> s[start..end][k] == s[start + k];
      var v: int := DigitsValue(s[start..end], base);
      Some(if negative then -v else v)
  }

  /** The digit character (lower case) for `d`. */
  function DigitChar(d: nat): (c: char)
    requires d < 36
    ensures DigitValue(c) == Some(d)
  {
    if d < 10 then ('0' as int + d) as char else ('a' as int + d - 10) as char
  }

  /** Base-`radix` digits of `n`, most significant first, without leading zeros. */
  function Digits(n: nat, radix: nat): (d: string)
    requires 2 <= radix <= 36
    ensures |d| >= 1
    ensures forall j :: 0 <= j < |d| ==> IsDigit(d[j], radix)
  {
    if n < radix then [DigitChar(n)]
    else
      DivFacts(n, radix);
      Digits(n / radix, radix) + [DigitChar(n % radix)]
  }

  /** Euclidean division by a radix that does not exceed `n`. */
  lemma DivFacts(n: nat, r: nat)
    requires 2 <= r <= n
    ensures 1 <= n / r < n && n % r < r && n == (n / r) * r + n % r
  {
  }

  /** Appending a digit multiplies by the radix and adds the digit. */
  lemma DigitsValueSnoc(d: string, c: char, radix: nat)
    requires forall j :: 0 <= j < |d| ==> IsDigit(d[j], radix)
    requires IsDigit(c, radix)
    ensures forall j :: 0 <= j < |d + [c]| ==> IsDigit((d + [c])[j], radix)
    ensures DigitsValue(d + [c], radix) == DigitsValue(d, radix) * radix + DigitValue(c).value
  {
    assert (d + [c])[..|d|] == d;
  }

  /** A digit is neither whitespace nor a sign. */
  lemma DigitIsNotSpace(c: char)
    requires DigitValue(c).Some?
    ensures !JsString.IsWhitespace(c) && c != '-' && c != '+'
  {
  }

  /** `Digits` is exact: the digits read back to `n`, and only zero is
      written with a leading `0`. */
  lemma {:induction false} DigitsCorrect(n: nat, radix: nat)
    requires 2 <= radix <= 36
    ensures DigitsValue(Digits(n, radix), radix) == n
    ensures Digits(n, radix)[0] == '0' ==> n == 0 && |Digits(n, radix)| == 1
  {
    if n >= radix {
      var q, r := n / radix, n % radix;
      DivFacts(n, radix);
      DigitsCorrect(q, radix);
      DigitsValueSnoc(Digits(q, radix), DigitChar(r), radix);
      assert Digits(n, radix) == Digits(q, radix) + [DigitChar(r)];
      assert Digits(n, radix)[0] == Digits(q, radix)[0];
    }
  }

  /** `n.toString(radix)` for an integral number: lower-case digits, a
      leading `-` when negative. */
  function ToRadixString(n: int, radix: nat): (s: string)
    requires 2 <= radix <= 36
    ensures |s| >= 1
    ensures n < 0 <==> s[0] == '-'
  {
    if n < 0 then "-" + Digits(-n, radix) else Digits(n, radix)
  }

  /** `String(n)`: the decimal form of an integral number. */
  function DecimalString(n: int): (s: string)
    ensures |s| >= 1
  {
    ToRadixString(n, 10)
  }

  /** `parseInt` reads back what `toString` printed, in every radix it
      accepts, and with the radix omitted when the text is decimal. */
  lemma ParseToRadixString(n: int, radix: nat)
    requires radix == 0 || 2 <= radix <= 36
    ensures ParseInt(ToRadixString(n, if radix == 0 then 10 else radix), radix) == Some(n)
  {
    var base := if radix == 0 then 10 else radix;
    var s := ToRadixString(n, base);
    var m: nat := if n < 0 then -n else n;
    var d := Digits(m, base);
    DigitsCorrect(m, base);
    DigitIsNotSpace(d[0]);
    var j := if n < 0 then 1 else 0;
    assert s[j..] == d;
    assert s[0] == '-' || s[0] == d[0];
    assert JsString.SkipWhitespace(s, 0) == 0;
    assert SignEnd(s, 0) == j;
    assert !HasHexPrefix(s, j, radix) by {
      if |d| >= 2 { assert s[j] == d[0] != '0'; }
    }
    assert DigitsStart(s, radix) == j && DigitsBase(s, radix) == base;
    assert IsNegative(s) == (n < 0);
    ReadAllDigits(s, j, base, n < 0);
  }

  /** Digits that run to the end of the text are read in full. */
  lemma ReadAllDigits(s: string, start: nat, base: nat, negative: bool)
    requires start < |s|
    requires forall k :: start <= k < |s| ==> IsDigit(s[k], base)
    ensures forall k :: 0 <= k < |s[start..]| ==> IsDigit(s[start..][k], base)
    ensures ReadDigits(s, start, base, negative)
            == Some(if negative then 0 - DigitsValue(s[start..], base) else DigitsValue(s[start..], base))
  {
    DigitRunOfDigits(s, start, base);
    assert s[start..|s|] == s[start..];
  }

  /** A string that ends in digits is read to its end. */
  lemma {:induction false} DigitRunOfDigits(s: string, i: nat, radix: nat)
    requires i <= |s|
    requires forall j :: i <= j < |s| ==> IsDigit(s[j], radix)
    ensures DigitRun(s, i, radix) == |s|
    decreases |s| - i
  {
    if i < |s| {
      DigitRunOfDigits(s, i + 1, radix);
    }
  }

  /** A text made only of decimal digits parses, with the radix omitted,
      to the value of those digits. */
  lemma ParseDecimalDigits(d: string)
    requires |d| >= 1 && forall j :: 0 <= j < |d| ==> IsDigit(d[j], 10)
    ensures ParseInt(d, 0) == Some(DigitsValue(d, 10))
  {
    DigitIsNotSpace(d[0]);
    assert JsString.SkipWhitespace(d, 0) == 0;
    assert SignEnd(d, 0) == 0;
    assert !HasHexPrefix(d, 0, 0) by {
      if |d| >= 2 { assert IsDigit(d[1], 10); }
    }
    ReadAllDigits(d, 0, 10, false);
    assert d[0..] == d;
  }

  /** A decimal digit string whose first digit is not `0` has a positive value. */
  lemma {:induction false} LeadingDigitPositive(d: string)
    requires |d| >= 1 && forall j :: 0 <= j < |d| ==> IsDigit(d[j], 10)
    requires d[0] != '0'
    ensures DigitsValue(d, 10) >= 1
  {
    if |d| > 1 {
      var p := d[..|d| - 1];
      assert p[0] == d[0];
      LeadingDigitPositive(p);
    }
  }

  /** Printing the value of a decimal digit string without leading zeros
      gives the string back: decimal notation is unique. */
  lemma {:induction false} DecimalDigitsUnique(d: string)
    requires |d| >= 1 && forall j :: 0 <= j < |d| ==> IsDigit(d[j], 10)
    requires |d| > 1 ==> d[0] != '0'
    ensures Digits(DigitsValue(d, 10), 10) == d
  {
    var last := d[|d| - 1];
    assert IsDigit(last, 10);
    var b := DigitValue(last).value;
    assert DigitChar(b) == last;
    if |d| == 1 {
      assert DigitsValue(d, 10) == b;
    } else {
      var p := d[..|d| - 1];
      assert p[0] == d[0];
      DecimalDigitsUnique(p);
      LeadingDigitPositive(p);
      var a := DigitsValue(p, 10);
      var v := a * 10 + b;
      assert DigitsValue(d, 10) == v;
      assert v / 10 == a && v % 10 == b;
      assert Digits(v, 10) == Digits(a, 10) + [DigitChar(b)];
      assert d == p + [last];
    }
  }

  /** Upper-casing changes neither whitespace, signs nor digit values. */
  lemma UpperCharKeepsMeaning(c: char)
    ensures JsString.IsWhitespace(JsString.UpperChar(c)) == JsString.IsWhitespace(c)
    ensures DigitValue(JsString.UpperChar(c)) == DigitValue(c)
    ensures (JsString.UpperChar(c) == '-') == (c == '-')
    ensures (JsString.UpperChar(c) == '+') == (c == '+')
    ensures (JsString.UpperChar(c) == '0') == (c == '0')
    ensures (JsString.UpperChar(c) == 'x' || JsString.UpperChar(c) == 'X') == (c == 'x' || c == 'X')
  {
  }

  lemma {:induction false} SkipWhitespaceUpper(s: string, i: nat)
    requires i <= |s|
    ensures JsString.SkipWhitespace(JsString.ToUpper(s), i) == JsString.SkipWhitespace(s, i)
    decreases |s| - i
  {
    if i < |s| {
      UpperCharKeepsMeaning(s[i]);
      SkipWhitespaceUpper(s, i + 1);
    }
  }

  lemma {:induction false} DigitRunUpper(s: string, i: nat, radix: nat)
    requires i <= |s|
    ensures DigitRun(JsString.ToUpper(s), i, radix) == DigitRun(s, i, radix)
    decreases |s| - i
  {
    if i < |s| {
      UpperCharKeepsMeaning(s[i]);
      DigitRunUpper(s, i + 1, radix);
    }
  }

  lemma {:induction false} DigitsValueUpper(d: string, radix: nat)
    requires forall j :: 0 <= j < |d| ==> IsDigit(d[j], radix)
    ensures forall j :: 0 <= j < |d| ==> IsDigit(JsString.ToUpper(d)[j], radix)
    ensures DigitsValue(JsString.ToUpper(d), radix) == DigitsValue(d, radix)
  {
    var u := JsString.ToUpper(d);
    forall j | 0 <= j < |d| ensures IsDigit(u[j], radix) {
      UpperCharKeepsMeaning(d[j]);
    }
    if d != [] {
      var p := d[..|d| - 1];
      assert JsString.ToUpper(p) == u[..|u| - 1];
      DigitsValueUpper(p, radix);
      UpperCharKeepsMeaning(d[|d| - 1]);
    }
  }

  /** `parseInt` does not care about the letter case of its input: the
      upper-case hexadecimal text the demos print parses like the
      lower-case text `toString(16)` produced. */
  lemma ParseIntIgnoresCase(s: string, radix: nat)
    ensures ParseInt(JsString.ToUpper(s), radix) == ParseInt(s, radix)
  {
    var u := JsString.ToUpper(s);
    SkipWhitespaceUpper(s, 0);
    var i := JsString.SkipWhitespace(s, 0);
    SignEndUpper(s, i);
    HexPrefixUpper(s, SignEnd(s, i), radix);
    assert IsNegative(u) == IsNegative(s) by {
      if i < |s| { UpperCharKeepsMeaning(s[i]); }
    }
    assert DigitsStart(u, radix) == DigitsStart(s, radix);
    assert DigitsBase(u, radix) == DigitsBase(s, radix);
    ReadDigitsUpper(s, DigitsStart(s, radix), DigitsBase(s, radix), IsNegative(s));
  }

  lemma SignEndUpper(s: string, i: nat)
    requires i <= |s|
    ensures SignEnd(JsString.ToUpper(s), i) == SignEnd(s, i)
  {
    if i < |s| { UpperCharKeepsMeaning(s[i]); }
  }

  lemma HexPrefixUpper(s: string, j: nat, radix: nat)
    ensures HasHexPrefix(JsString.ToUpper(s), j, radix) == HasHexPrefix(s, j, radix)
  {
    if j + 2 <= |s| {
      UpperCharKeepsMeaning(s[j]);
      UpperCharKeepsMeaning(s[j + 1]);
    }
  }

  lemma ReadDigitsUpper(s: string, start: nat, base: nat, negative: bool)
    requires start <= |s|
    ensures ReadDigits(JsString.ToUpper(s), start, base, negative) == ReadDigits(s, start, base, negative)
  {
    var u := JsString.ToUpper(s);
    DigitRunUpper(s, start, base);
    var end := DigitRun(s, start, base);
    if end > start {
      assert u[start..end] == JsString.ToUpper(s[start..end]);
      DigitsValueUpper(s[start..end], base);
    }
  }

  /** First UTF-16 code unit of a code point, as `charCodeAt(0)` returns it
      for each element of `Array.from(s)`: the code point itself in the
      Basic Multilingual Plane, the high surrogate above it. */
  function FirstCodeUnit(c: char): (u: nat)
    ensures u < 0x10000
    ensures c as int < 0x10000 ==> u == c as int
    ensures c as int >= 0x10000 ==> 0xD800 <= u < 0xDC00
  {
    if c as int < 0x10000 then c as int else 0xD800 + (c as int - 0x10000) / 0x400
  }

  /** `b ** e` on BigInts. */
  function Pow(b: int, e: nat): int {
    if e == 0 then 1 else b * Pow(b, e - 1)
  }

  /** A power of a non-negative base is non-negative. */
  lemma {:induction false} PowNonNegative(b: int, e: nat)
    ensures b >= 0 ==> Pow(b, e) >= 0
  {
    if e > 0 {
      PowNonNegative(b, e - 1);
    }
  }

  /** BigInt `a % b`: the remainder of division truncated toward zero, which
      takes the sign of `a`. */
  function TruncRem(a: int, b: int): (r: int)
    requires b != 0
    ensures a >= 0 ==> 0 <= r < (if b > 0 then b else -b)
    ensures a < 0 ==> -(if b > 0 then b else -b) < r <= 0
    ensures a >= 0 && b > 0 ==> r == a % b
  {
    var m := (if a < 0 then -a else a) % (if b > 0 then b else -b);
    if a < 0 then -m else m
  }
}
