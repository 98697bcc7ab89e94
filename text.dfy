/**
 * String helpers shared by the model: ASCII character classes and case
 * mapping, decimal rendering and parsing of integers, Python's `str.split`
 * and `str.join`, and path components in the manner of `pathlib`.
 */
module Text {

  import opened Optional

  predicate IsDigit(c: char) { '0' <= c <= '9' }

  predicate IsLetter(c: char) { 'A' <= c <= 'Z' || 'a' <= c <= 'z' }

  predicate AllDigits(s: string) { forall i :: 0 <= i < |s| ==> IsDigit(s[i]) }

  function LowerChar(c: char): char {
    if 'A' <= c <= 'Z' then (c as int + 32) as char else c
  }

  function UpperChar(c: char): char {
    if 'a' <= c <= 'z' then (c as int - 32) as char else c
  }

  /** `str.lower()` on the ASCII range. */
  function Lower(s: string): (r: string)
    ensures |r| == |s|
    ensures forall i :: 0 <= i < |s| ==> r[i] == LowerChar(s[i])
  {
    seq(|s|, i requires 0 <= i < |s| => LowerChar(s[i]))
  }

  /** `str.upper()` on the ASCII range. */
  function Upper(s: string): (r: string)
    ensures |r| == |s|
    ensures forall i :: 0 <= i < |s| ==> r[i] == UpperChar(s[i])
  {
    seq(|s|, i requires 0 <= i < |s| => UpperChar(s[i]))
  }

  lemma LowerIdempotent(s: string)
    ensures Lower(Lower(s)) == Lower(s)
  {
  }

  lemma LowerOfUpper(s: string)
    ensures Lower(Upper(s)) == Lower(s)
  {
  }

  predicate StartsWith(s: string, prefix: string) {
    |prefix| <= |s| && s[..|prefix|] == prefix
  }

  predicate EndsWith(s: string, suffix: string) {
    |suffix| <= |s| && s[|s| - |suffix|..] == suffix
  }

  // ---------------------------------------------------------------------
  // Decimal numbers

  function DigitChar(d: nat): (c: char)
    requires d < 10
    ensures IsDigit(c)
  {
    ('0' as int + d) as char
  }

  function DigitValue(c: char): nat
    requires IsDigit(c)
  {
    c as int - '0' as int
  }

  /** The value of a string of decimal digits, as `int(s)` reads it. */
  function DigitsValue(s: string): nat
    requires AllDigits(s)
  {
    if s == [] then 0 else DigitsValue(s[..|s| - 1]) * 10 + DigitValue(s[|s| - 1])
  }

  /** `str(n)` for a non-negative integer. */
  function NatToString(n: nat): (s: string)
    ensures |s| >= 1 && AllDigits(s)
    decreases n
  {
    if n < 10 then [DigitChar(n)] else NatToString(n / 10) + [DigitChar(n % 10)]
  }

  /** `str(i)` for any integer. */
  function IntToString(i: int): string {
    if i < 0 then "-" + NatToString(-i) else NatToString(i)
  }

  lemma {:induction false} NatToStringValue(n: nat)
    ensures DigitsValue(NatToString(n)) == n
    decreases n
  {
    var s := NatToString(n);
    if n >= 10 {
      NatToStringValue(n / 10);
      assert s[..|s| - 1] == NatToString(n / 10);
    }
  }

  /** `int(str(i)) == i`. */
  lemma ParseIntOfIntToString(i: int)
    ensures ParseInt(IntToString(i)) == Some(i)
  {
    if i < 0 {
      NatToStringValue(-i);
      var s := IntToString(i);
      assert s[1..] == NatToString(-i);
    } else {
      NatToStringValue(i);
      assert IsDigit(NatToString(i)[0]);
    }
  }

  /** A zero-padded integer reads back as itself. */
  lemma ParseIntPadInt(i: int, width: nat)
    ensures ParseInt(PadInt(i, width)) == Some(i)
  {
    if i < 0 {
      var z := ZeroPad(-i, if width == 0 then 0 else width - 1);
      ZeroPadValue(-i, if width == 0 then 0 else width - 1);
      ParseIntNegative(z);
    } else {
      ZeroPadValue(i, width);
      ParseIntDigits(ZeroPad(i, width));
    }
  }

  /** `int("-" + s)` of plain digits is minus their value. */
  lemma ParseIntNegative(s: string)
    requires |s| >= 1 && AllDigits(s)
    ensures ParseInt("-" + s) == Some(-(DigitsValue(s) as int))
  {
    assert ("-" + s)[1..] == s;
  }

  lemma NatToStringInjective(m: nat, n: nat)
    requires NatToString(m) == NatToString(n)
    ensures m == n
  {
    NatToStringValue(m);
    NatToStringValue(n);
  }

  function Zeros(k: nat): (z: string)
    ensures |z| == k && AllDigits(z)
    ensures forall i :: 0 <= i < k ==> z[i] == '0'
  {
    if k == 0 then [] else "0" + Zeros(k - 1)
  }

  /** `f"{n:0{width}d}"` for a non-negative integer. */
  function ZeroPad(n: nat, width: nat): (s: string)
    ensures AllDigits(s) && |s| >= width && |s| >= 1
  {
    var digits := NatToString(n);
    if |digits| >= width then digits else Zeros(width - |digits|) + digits
  }

  /** `f"{i:0{width}d}"`: the sign counts towards the width. */
  function PadInt(i: int, width: nat): string {
    if i < 0 then "-" + ZeroPad(-i, if width == 0 then 0 else width - 1) else ZeroPad(i, width)
  }

  /** A padded integer holds only digits and possibly a leading minus sign. */
  lemma PadIntChars(i: int, width: nat)
    ensures forall k :: 0 <= k < |PadInt(i, width)| ==> IsDigit(PadInt(i, width)[k]) || PadInt(i, width)[k] == '-'
  {
    if i < 0 {
      var z := ZeroPad(-i, if width == 0 then 0 else width - 1);
      assert PadInt(i, width) == "-" + z;
      assert forall k :: 1 <= k < |PadInt(i, width)| ==> PadInt(i, width)[k] == z[k - 1];
    }
  }

  lemma {:induction false} LeadingZeroValue(s: string)
    requires AllDigits(s)
    ensures AllDigits("0" + s) && DigitsValue("0" + s) == DigitsValue(s)
    decreases |s|
  {
    if s != [] {
      LeadingZeroValue(s[..|s| - 1]);
      assert ("0" + s)[..|s|] == "0" + s[..|s| - 1];
    }
  }

  lemma {:induction false} ZerosPrefixValue(k: nat, s: string)
    requires AllDigits(s)
    ensures AllDigits(Zeros(k) + s) && DigitsValue(Zeros(k) + s) == DigitsValue(s)
    decreases k
  {
    if k > 0 {
      ZerosPrefixValue(k - 1, s);
      var t := Zeros(k - 1) + s;
      assert Zeros(k) == "0" + Zeros(k - 1);
      assert Zeros(k) + s == "0" + t;
      LeadingZeroValue(t);
    } else {
      assert Zeros(k) + s == s;
    }
  }

  lemma ZeroPadValue(n: nat, width: nat)
    ensures DigitsValue(ZeroPad(n, width)) == n
  {
    var digits := NatToString(n);
    NatToStringValue(n);
    if |digits| < width {
      ZerosPrefixValue(width - |digits|, digits);
      assert ZeroPad(n, width) == Zeros(width - |digits|) + digits;
    } else {
      assert ZeroPad(n, width) == digits;
    }
  }

  lemma ZeroPadWidth(n: nat, width: nat)
    requires n < Pow10(width) && width >= 1
    ensures |ZeroPad(n, width)| == width
  {
    NatToStringLength(n, width);
  }

  function Pow10(k: nat): (p: nat)
    ensures p >= 1
  {
    if k == 0 then 1 else 10 * Pow10(k - 1)
  }

  lemma {:induction false} NatToStringLength(n: nat, width: nat)
    requires n < Pow10(width) && width >= 1
    ensures |NatToString(n)| <= width
    decreases width
  {
    if n >= 10 {
      assert width >= 2;
      NatToStringLength(n / 10, width - 1);
    }
  }

  // ---------------------------------------------------------------------
  // Python's int() and float(), restricted to plain ASCII spellings

  /**
   * `int(s)` for strings that are an optional sign followed by one or more
   * ASCII digits; `None` for every other string. Python's `int()` also reads
   * surrounding whitespace, `_` between digits and non-ASCII digits, which
   * this function refuses.
   */
  function ParseInt(s: string): (r: Option<int>)
  {
    if |s| >= 1 && (s[0] == '-' || s[0] == '+') then
      var body := s[1..];
      if |body| >= 1 && AllDigits(body) then
        var v: int := DigitsValue(body);
        Some(if s[0] == '-' then -v else v)
      else None
    else if |s| >= 1 && AllDigits(s) then Some(DigitsValue(s) as int)
    else None
  }

  function IndexOfChar(s: string, c: char): (k: nat)
    ensures k <= |s|
    ensures k < |s| ==> s[k] == c
    ensures forall i :: 0 <= i < k ==> s[i] != c
  {
    if s == [] then 0 else if s[0] == c then 0 else 1 + IndexOfChar(s[1..], c)
  }

  /**
   * The value of an unsigned decimal `digits [ '.' digits ]`, with at least
   * one digit overall; `None` for anything else.
   */
  function UnsignedDecimal(s: string): (r: Option<real>)
  {
    var k := IndexOfChar(s, '.');
    var whole := s[..k];
    var frac := if k < |s| then s[k + 1..] else "";
    if AllDigits(whole) && AllDigits(frac) && |whole| + |frac| >= 1 then
      Some(FixedValue(whole, frac))
    else None
  }

  /** The value of the decimal `whole.frac`. */
  function FixedValue(whole: string, frac: string): real
    requires AllDigits(whole) && AllDigits(frac)
  {
    DigitsValue(whole) as real + DigitsValue(frac) as real / Pow10(|frac|) as real
  }

  /**
   * `float(s)` for strings that are an optional sign and a plain decimal;
   * `None` for every other string. Python's `float()` also reads surrounding
   * whitespace, `_` between digits, exponents, "inf" and "nan", which this
   * function refuses.
   */
  function ParseFloat(s: string): (r: Option<real>)
  {
    if |s| >= 1 && (s[0] == '-' || s[0] == '+') then
      match UnsignedDecimal(s[1..])
      case Some(v) => Some(if s[0] == '-' then -v else v)
      case None => None
    else UnsignedDecimal(s)
  }

  /** A plain run of digits reads as a decimal without fraction. */
  lemma UnsignedDecimalDigits(s: string)
    requires |s| >= 1 && AllDigits(s)
    ensures UnsignedDecimal(s) == Some(DigitsValue(s) as real)
    ensures ParseFloat(s) == Some(DigitsValue(s) as real)
  {
    IndexOfAbsent(s, '.');
    assert s[..|s|] == s;
    FixedValueWhole(s);
    assert UnsignedDecimal(s) == Some(FixedValue(s, ""));
    assert IsDigit(s[0]);
  }

  lemma FixedValueWhole(whole: string)
    requires AllDigits(whole)
    ensures FixedValue(whole, "") == DigitsValue(whole) as real
  {
    assert DigitsValue("") == 0 && Pow10(0) == 1;
  }

  /** A character that does not occur is found at the end. */
  lemma {:induction false} IndexOfAbsent(s: string, c: char)
    requires forall i :: 0 <= i < |s| ==> s[i] != c
    ensures IndexOfChar(s, c) == |s|
    decreases |s|
  {
    if s != [] {
      assert s[0] != c;
      IndexOfAbsent(s[1..], c);
    }
  }

  lemma ParseIntDigits(s: string)
    requires |s| >= 1 && AllDigits(s)
    ensures ParseInt(s) == Some(DigitsValue(s) as int)
  {
  }

  lemma ParseFloatFixed(whole: string, frac: string)
    requires |whole| >= 1 && AllDigits(whole) && AllDigits(frac)
    ensures ParseFloat(whole + "." + frac) == Some(FixedValue(whole, frac))
  {
    var s := whole + "." + frac;
    assert s[0] == whole[0];
    UnsignedDecimalFixed(whole, frac);
  }

  lemma UnsignedDecimalFixed(whole: string, frac: string)
    requires AllDigits(whole) && AllDigits(frac) && |whole| >= 1
    ensures UnsignedDecimal(whole + "." + frac) == Some(FixedValue(whole, frac))
  {
    var s := whole + "." + frac;
    var k := IndexOfChar(s, '.');
    assert k == |whole| by {
      assert forall i :: 0 <= i < |whole| ==> whole[i] != '.';
      assert s == whole + ("." + frac);
      IndexOfPrefix(whole, '.', "." + frac);
    }
    assert s[..k] == whole;
    assert s[k + 1..] == frac;
  }

  lemma {:induction false} IndexOfPrefix(a: string, c: char, b: string)
    requires forall i :: 0 <= i < |a| ==> a[i] != c
    requires |b| >= 1 && b[0] == c
    ensures IndexOfChar(a + b, c) == |a|
    decreases |a|
  {
    if a != [] {
      IndexOfPrefix(a[1..], c, b);
      assert (a + b)[1..] == a[1..] + b;
    } else {
      assert a + b == b;
    }
  }

  // ---------------------------------------------------------------------
  // str.split / str.join

  /** `s.split(sep)` for a one-character separator. */
  function Split(s: string, sep: char): (parts: seq<string>)
    ensures |parts| >= 1
  {
    if s == [] then [""]
    else
      var rest := Split(s[1..], sep);
      if s[0] == sep then [""] + rest else [[s[0]] + rest[0]] + rest[1..]
  }

  /** `sep.join(parts)`. */
  function Join(parts: seq<string>, sep: string): string {
    if parts == [] then ""
    else if |parts| == 1 then parts[0]
    else parts[0] + sep + Join(parts[1..], sep)
  }

  lemma {:induction false} SplitNoSep(s: string, sep: char)
    requires forall i :: 0 <= i < |s| ==> s[i] != sep
    ensures Split(s, sep) == [s]
    decreases |s|
  {
    if s != [] {
      SplitNoSep(s[1..], sep);
      assert [s[0]] + s[1..] == s;
    }
  }

  lemma {:induction false} SplitPrefix(a: string, sep: char, b: string)
    requires forall i :: 0 <= i < |a| ==> a[i] != sep
    ensures Split(a + [sep] + b, sep) == [a] + Split(b, sep)
    decreases |a|
  {
    if a == [] {
      assert a + [sep] + b == [sep] + b;
      assert ([sep] + b)[1..] == b;
    } else {
      SplitPrefix(a[1..], sep, b);
      assert (a + [sep] + b)[1..] == a[1..] + [sep] + b;
      assert [a[0]] + a[1..] == a;
    }
  }

  /** Splitting what three separator-free parts were joined from gives the parts back. */
  lemma SplitJoin3(a: string, b: string, c: string, sep: char)
    requires forall i :: 0 <= i < |a| ==> a[i] != sep
    requires forall i :: 0 <= i < |b| ==> b[i] != sep
    requires forall i :: 0 <= i < |c| ==> c[i] != sep
    ensures Split(a + [sep] + b + [sep] + c, sep) == [a, b, c]
  {
    assert a + [sep] + b + [sep] + c == a + [sep] + (b + [sep] + c);
    SplitPrefix(a, sep, b + [sep] + c);
    SplitPrefix(b, sep, c);
    SplitNoSep(c, sep);
  }

  /** Splitting what separator-free parts were joined from gives the parts back. */
  lemma {:induction false} SplitJoin(parts: seq<string>, sep: char)
    requires |parts| >= 1
    requires forall k, i :: 0 <= k < |parts| && 0 <= i < |parts[k]| ==> parts[k][i] != sep
    ensures Split(Join(parts, [sep]), sep) == parts
    decreases |parts|
  {
    if |parts| == 1 {
      SplitNoSep(parts[0], sep);
    } else {
      SplitJoin(parts[1..], sep);
      SplitPrefix(parts[0], sep, Join(parts[1..], [sep]));
      assert [parts[0]] + parts[1..] == parts;
    }
  }

  // ---------------------------------------------------------------------
  // Paths, as pathlib.PurePosixPath treats them

  function LastIndexOfChar(s: string, c: char): (k: int)
    ensures -1 <= k < |s|
    ensures k >= 0 ==> s[k] == c
    ensures forall i :: k < i < |s| ==> s[i] != c
  {
    if s == [] then -1
    else if s[|s| - 1] == c then |s| - 1
    else LastIndexOfChar(s[..|s| - 1], c)
  }

  lemma {:induction false} LastIndexOfCharSplit(a: string, c: char, b: string)
    requires forall i :: 0 <= i < |b| ==> b[i] != c
    ensures LastIndexOfChar(a + [c] + b, c) == |a|
    decreases |b|
  {
    var s := a + [c] + b;
    if b != [] {
      LastIndexOfCharSplit(a, c, b[..|b| - 1]);
      assert s[..|s| - 1] == a + [c] + b[..|b| - 1];
    }
  }

  /** The file name of `dir/name` is `name`, for a name without a slash. */
  lemma FileNameOfJoin(dir: string, name: string)
    requires 1 <= |name| && forall i :: 0 <= i < |name| ==> name[i] != '/'
    ensures FileName(dir + "/" + name) == name
  {
    var p := dir + "/" + name;
    assert StripTrailingSlashes(p) == p;
    LastIndexOfCharSplit(dir, '/', name);
    assert p[|dir| + 1..] == name;
  }

  function StripTrailingSlashes(p: string): (r: string)
    ensures |r| <= |p|
  {
    if |p| > 1 && p[|p| - 1] == '/' then StripTrailingSlashes(p[..|p| - 1]) else p
  }

  /** `Path(p).name` for a normalised path: the last component. */
  function FileName(p: string): string {
    var q := StripTrailingSlashes(p);
    q[LastIndexOfChar(q, '/') + 1..]
  }

  /**
   * `Path(p).parent`, as a string, for a normalised path (no `//`, no `.`
   * component): "." for a bare name.
   */
  function Parent(p: string): string {
    var q := StripTrailingSlashes(p);
    var k := LastIndexOfChar(q, '/');
    if k < 0 then "." else if k == 0 then "/" else q[..k]
  }

  /** `Path(p).stem`: the name without its final suffix. */
  function Stem(p: string): string {
    var name := FileName(p);
    var k := LastIndexOfChar(name, '.');
    if 0 < k < |name| - 1 then name[..k] else name
  }

  /**
   * `str(Path(dir) / name)` for a normalised directory (no `//`, no `.`
   * component) and a single-component name.
   */
  function JoinPath(dir: string, name: string): string {
    if dir == "" || dir == "." then name
    else if dir[|dir| - 1] == '/' then dir + name
    else dir + "/" + name
  }

  /** The text after the last occurrence of `sep`, as `s.split(sep)[-1]` gives it. */
  function AfterLast(s: string, sep: string): (r: string)
    requires |sep| >= 1
    ensures |r| <= |s|
    decreases |s|
  {
    if |s| < |sep| then s
    else if s[|s| - |sep|..] == sep then ""
    else
      var r := AfterLast(s[..|s| - 1], sep);
      r + [s[|s| - 1]]
  }
}
