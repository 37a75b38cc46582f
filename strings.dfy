/** The few JavaScript string and number built-ins the forms and generators rely on:
    `String(n)` for integers, `String.prototype.split` and `Array.prototype.join`
    with a separator, ASCII `toUpperCase`, and `parseInt` without a radix. */
module Strings {
  import opened Wrappers

  predicate IsDigit(c: char) { '0' <= c <= '9' }

  function DigitChar(d: nat): (c: char)
    requires d < 10
    ensures IsDigit(c) && c as int - '0' as int == d
  {
    ('0' as int + d) as char
  }

  /** Decimal text of a natural number, as `String(n)` or `${n}` gives it below 10^21
      (from there JavaScript writes an exponent). */
  function NatToString(n: nat): (s: string)
    ensures |s| >= 1
    ensures forall i :: 0 <= i < |s| ==> IsDigit(s[i])
    ensures s[0] == '0' <==> n == 0
    ensures |s| == 1 <==> n < 10
    decreases n
  {
    if n < 10 then [DigitChar(n)] else NatToString(n / 10) + [DigitChar(n % 10)]
  }

  /** Decimal text of an integer, with a leading '-' for negative numbers. */
  function IntToString(n: int): (s: string)
    ensures |s| >= 1
    ensures s[0] == '-' <==> n < 0
  {
    if n < 0 then "-" + NatToString(-n) else NatToString(n)
  }

  // ---------------------------------------------------------------- split and join

  /** `s.split(sep)` for a one-character separator: the maximal separator-free
      pieces between separators, so "" splits into [""] and "-" into ["", ""]. */
  function Split(s: string, sep: char): (parts: seq<string>)
    ensures |parts| >= 1
    ensures forall i :: 0 <= i < |parts| ==> sep !in parts[i]
    decreases |s|
  {
    if s == [] then [""]
    else
      var rest := Split(s[1..], sep);
      if s[0] == sep then [""] + rest else [[s[0]] + rest[0]] + rest[1..]
  }

  /** `parts.join(sep)`: the parts with `sep` between neighbours. */
  function Join(parts: seq<string>, sep: string): string
  {
    if |parts| == 0 then ""
    else if |parts| == 1 then parts[0]
    else parts[0] + sep + Join(parts[1..], sep)
  }

  /** Joining the pieces of a split with the same separator gives back the text. */
  lemma {:induction false} JoinOfSplit(s: string, sep: char)
    ensures Join(Split(s, sep), [sep]) == s
    decreases |s|
  {
    if s != [] {
      var rest := Split(s[1..], sep);
      JoinOfSplit(s[1..], sep);
      if s[0] == sep {
        assert Join([""] + rest, [sep]) == "" + [sep] + Join(rest, [sep]);
        assert s == [s[0]] + s[1..];
      } else if |rest| == 1 {
        assert Split(s, sep) == [[s[0]] + rest[0]];
        assert s == [s[0]] + s[1..];
      } else {
        var parts := Split(s, sep);
        assert parts[1..] == rest[1..];
        assert Join(parts, [sep]) == [s[0]] + rest[0] + [sep] + Join(rest[1..], [sep]);
        assert Join(rest, [sep]) == rest[0] + [sep] + Join(rest[1..], [sep]);
        assert s == [s[0]] + s[1..];
      }
    }
  }

  /** A separator-free piece followed by the separator splits off as one part. */
  lemma {:induction false} SplitAfterPiece(a: string, sep: char, b: string)
    requires sep !in a
    ensures Split(a + [sep] + b, sep) == [a] + Split(b, sep)
    decreases |a|
  {
    var s := a + [sep] + b;
    if a == [] {
      assert s[1..] == b;
    } else {
      assert s[1..] == a[1..] + [sep] + b;
      SplitAfterPiece(a[1..], sep, b);
      assert [a[0]] + a[1..] == a;
    }
  }

  /** A separator-free text does not split. */
  lemma {:induction false} SplitOfPiece(a: string, sep: char)
    requires sep !in a
    ensures Split(a, sep) == [a]
    decreases |a|
  {
    if a != [] {
      SplitOfPiece(a[1..], sep);
      assert [a[0]] + a[1..] == a;
    }
  }

  /** Splitting a join of separator-free parts gives back the parts. */
  lemma {:induction false} SplitOfJoin(parts: seq<string>, sep: char)
    requires |parts| >= 1
    requires forall i :: 0 <= i < |parts| ==> sep !in parts[i]
    ensures Split(Join(parts, [sep]), sep) == parts
    decreases |parts|
  {
    if |parts| == 1 {
      SplitOfPiece(parts[0], sep);
    } else {
      SplitOfJoin(parts[1..], sep);
      SplitAfterPiece(parts[0], sep, Join(parts[1..], [sep]));
      assert [parts[0]] + parts[1..] == parts;
    }
  }

  /** Appending a part extends the joined text by one separator and that part. */
  lemma {:induction false} JoinAppend(parts: seq<string>, sep: string, last: string)
    requires |parts| >= 1
    ensures Join(parts + [last], sep) == Join(parts, sep) + sep + last
    decreases |parts|
  {
    if |parts| > 1 {
      assert (parts + [last])[1..] == parts[1..] + [last];
      JoinAppend(parts[1..], sep, last);
    }
  }

  // ---------------------------------------------------------------- upper case

  function UpperChar(c: char): char
  {
    if 'a' <= c <= 'z' then (c as int - 32) as char else c
  }

  /** `toUpperCase` restricted to ASCII letters: every other character is kept. */
  function AsciiUpper(s: string): (r: string)
    ensures |r| == |s|
    ensures forall i :: 0 <= i < |r| ==> !('a' <= r[i] <= 'z')
    ensures forall i :: 0 <= i < |r| ==> 'a' <= s[i] <= 'z' || r[i] == s[i]
    ensures forall i :: 0 <= i < |s| && 'a' <= s[i] <= 'z' ==> r[i] as int == s[i] as int - 32
  {
    seq(|s|, i requires 0 <= i < |s| => UpperChar(s[i]))
  }

  /** Text without lower-case ASCII letters is its own upper case. */
  lemma AsciiUpperOfUpper(s: string)
    requires forall i :: 0 <= i < |s| ==> !('a' <= s[i] <= 'z')
    ensures AsciiUpper(s) == s
  {
  }

  // ---------------------------------------------------------------- parseInt

  /** The white space `parseInt` skips: tab, vertical tab, form feed, the byte-order
      mark, every space separator of Unicode category Zs, and the four line terminators. */
  predicate IsJsSpace(c: char)
  {
    c == ' ' || c == '\t' || c == '\n' || c == '\r' || c == '\U{B}' || c == '\U{C}'
    || c == '\U{A0}' || c == '\U{FEFF}' || c == '\U{2028}' || c == '\U{2029}'
    || c == '\U{1680}' || ('\U{2000}' <= c <= '\U{200A}') || c == '\U{202F}' || c == '\U{205F}'
    || c == '\U{3000}'
  }

  function TrimStart(s: string): (r: string)
    ensures |r| <= |s| && r == s[|s| - |r|..]
    ensures r == [] || !IsJsSpace(r[0])
    decreases |s|
  {
    if s != [] && IsJsSpace(s[0]) then TrimStart(s[1..]) else s
  }

  predicate IsRadix(radix: nat) { radix == 10 || radix == 16 }

  function DigitValue(c: char, radix: nat): (d: Option<nat>)
    requires IsRadix(radix)
    ensures d.Some? ==> d.value < radix
  {
    if '0' <= c <= '9' then Some(c as int - '0' as int)
    else if radix == 16 && 'a' <= c <= 'f' then Some(c as int - 'a' as int + 10)
    else if radix == 16 && 'A' <= c <= 'F' then Some(c as int - 'A' as int + 10)
    else None
  }

  predicate AllDigits(z: string, radix: nat)
    requires IsRadix(radix)
  {
    forall i :: 0 <= i < |z| ==> DigitValue(z[i], radix).Some?
  }

  /** The longest prefix of `s` made of digits of the radix. */
  function DigitPrefix(s: string, radix: nat): (z: string)
    requires IsRadix(radix)
    ensures z <= s && AllDigits(z, radix)
    ensures |z| < |s| ==> DigitValue(s[|z|], radix).None?
    decreases |s|
  {
    if s == [] || DigitValue(s[0], radix).None? then [] else [s[0]] + DigitPrefix(s[1..], radix)
  }

  /** The number a digit string denotes in the radix, most significant digit first. */
  function DigitsValue(z: string, radix: nat): nat
    requires IsRadix(radix) && AllDigits(z, radix)
    decreases |z|
  {
    if z == [] then 0
    else DigitsValue(z[..|z| - 1], radix) * radix + DigitValue(z[|z| - 1], radix).value
  }

  /** The unsigned part of `parseInt`: hexadecimal after a "0x"/"0X" prefix, decimal
      otherwise, up to the first non-digit; `None` when there is no digit at all. */
  function ParseMagnitude(u: string): Option<nat>
  {
    var hex := |u| >= 2 && u[0] == '0' && (u[1] == 'x' || u[1] == 'X');
    var radix := if hex then 16 else 10;
    var z := DigitPrefix(if hex then u[2..] else u, radix);
    if z == [] then None else Some(DigitsValue(z, radix))
  }

  /** `parseInt(s)` with no radix argument: skip leading white space, take an optional
      sign, then read the magnitude. `None` stands for NaN. */
  function ParseInt(s: string): (r: Option<int>)
  {
    var t := TrimStart(s);
    var negative := |t| > 0 && t[0] == '-';
    var u := if |t| > 0 && (t[0] == '-' || t[0] == '+') then t[1..] else t;
    match ParseMagnitude(u)
    case None => None
    case Some(v) => Some(if negative then -(v as int) else v as int)
  }

  lemma {:induction false} DigitPrefixOfDigits(s: string)
    requires forall i :: 0 <= i < |s| ==> IsDigit(s[i])
    ensures DigitPrefix(s, 10) == s
    decreases |s|
  {
    if s != [] {
      DigitPrefixOfDigits(s[1..]);
      assert [s[0]] + s[1..] == s;
    }
  }

  lemma {:induction false} DigitsValueOfNat(n: nat)
    ensures AllDigits(NatToString(n), 10) && DigitsValue(NatToString(n), 10) == n
    decreases n
  {
    var s := NatToString(n);
    if n >= 10 {
      DigitsValueOfNat(n / 10);
      assert s[..|s| - 1] == NatToString(n / 10);
    }
  }

  lemma MagnitudeOfNat(n: nat)
    ensures ParseMagnitude(NatToString(n)) == Some(n)
  {
    var u := NatToString(n);
    assert |u| >= 2 ==> IsDigit(u[1]);
    DigitPrefixOfDigits(u);
    DigitsValueOfNat(n);
  }

  /** `parseInt` reads back the decimal text of every integer, numbers being exact integers
      here; with JavaScript's doubles this holds up to 2^53 in magnitude. */
  lemma ParseIntOfIntToString(n: int)
    ensures ParseInt(IntToString(n)) == Some(n)
  {
    var m: nat := if n < 0 then -n else n;
    var s := IntToString(n);
    assert IsDigit(NatToString(m)[0]);
    assert !IsJsSpace(s[0]);
    assert TrimStart(s) == s;
    if n < 0 {
      assert s[1..] == NatToString(m);
    }
    MagnitudeOfNat(m);
  }
}
