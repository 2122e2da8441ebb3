/** String helpers shared by the model: decimal rendering and parsing of
    integers, the global replacement used for `?` keys, upper-casing,
    lexicographic comparison and the `slice(0, -2)` trim. */
module Text {
  import opened Wrappers

  predicate IsDigit(c: char) { '0' <= c <= '9' }

  function DigitChar(d: int): (c: char)
    requires 0 <= d < 10
    ensures IsDigit(c) && c as int - '0' as int == d
  {
    "0123456789"[d]
  }

  /** Decimal digits of a natural number, without leading zeros. */
  function NatToString(n: nat): (s: string)
    ensures |s| >= 1
    ensures forall i :: 0 <= i < |s| ==> IsDigit(s[i])
    decreases n
  {
    if n < 10 then [DigitChar(n)] else NatToString(n / 10) + [DigitChar(n % 10)]
  }

  /** `String(i)` of an integer: an optional minus sign and the digits. */
  function IntToString(i: int): string
  {
    if i < 0 then "-" + NatToString(-i) else NatToString(i)
  }

  function DigitValue(c: char): nat
    requires IsDigit(c)
  {
    c as int - '0' as int
  }

  /** Value of a string of digits. */
  function DigitsValue(s: string): nat
    requires forall i :: 0 <= i < |s| ==> IsDigit(s[i])
    decreases |s|
  {
    if |s| == 0 then 0 else DigitsValue(s[..|s| - 1]) * 10 + DigitValue(s[|s| - 1])
  }

  predicate AllDigits(s: string) { |s| > 0 && forall i :: 0 <= i < |s| ==> IsDigit(s[i]) }

  /** Reads a decimal integer token (`-` followed by digits, or digits). */
  function ParseInt(s: string): (r: Option<int>)
    ensures r.Some? ==> (AllDigits(s) || (|s| > 1 && s[0] == '-' && AllDigits(s[1..])))
  {
    if AllDigits(s) then Some(DigitsValue(s))
    else if |s| > 1 && s[0] == '-' && AllDigits(s[1..]) then Some(0 - DigitsValue(s[1..]) as int)
    else None
  }

  lemma {:induction false} DigitsValueOfNat(n: nat)
    ensures DigitsValue(NatToString(n)) == n
    decreases n
  {
    var s := NatToString(n);
    if n >= 10 {
      DigitsValueOfNat(n / 10);
      assert s[..|s| - 1] == NatToString(n / 10);
      assert DigitValue(s[|s| - 1]) == n % 10;
      assert DigitsValue(s) == (n / 10) * 10 + n % 10;
    } else {
      assert s[..0] == "";
    }
  }

  /** The digits of a natural number read back as its value. */
  lemma ParseIntOfNat(n: nat)
    ensures AllDigits(NatToString(n)) && ParseInt(NatToString(n)) == Some(n)
  {
    DigitsValueOfNat(n);
  }

  /** A minus sign and digits read as the digits' value negated. */
  lemma ParseIntOfMinus(t: string)
    requires AllDigits(t)
    ensures ParseInt("-" + t) == Some(0 - DigitsValue(t) as int)
  {
    var s := "-" + t;
    assert s[1..] == t;
    assert !AllDigits(s) by { assert !IsDigit(s[0]); }
  }

  /** The rendering of a negative integer reads back as it. */
  lemma ParseIntOfNegative(i: int)
    requires i < 0
    ensures ParseInt(IntToString(i)) == Some(i)
  {
    var t := NatToString(-i);
    assert IntToString(i) == "-" + t;
    assert AllDigits(t);
    DigitsValueOfNat(-i);
    ParseIntOfMinus(t);
  }

  /** Parsing the rendering of an integer gives the integer back. */
  lemma ParseIntOfIntToString(i: int)
    ensures ParseInt(IntToString(i)) == Some(i)
  {
    if i < 0 {
      ParseIntOfNegative(i);
    } else {
      ParseIntOfNat(i);
    }
  }

  function Pow10(k: nat): (p: nat)
    ensures p >= 1
  {
    if k == 0 then 1 else 10 * Pow10(k - 1)
  }

  /** Index of the first `.` of `s`, or `|s|` when there is none. */
  function DotIndex(s: string): (k: nat)
    ensures k <= |s|
    ensures forall i :: 0 <= i < k ==> s[i] != '.'
    ensures k < |s| ==> s[k] == '.'
    decreases |s|
  {
    if |s| == 0 || s[0] == '.' then 0 else 1 + DotIndex(s[1..])
  }

  predicate Digits(s: string) { forall i :: 0 <= i < |s| ==> IsDigit(s[i]) }

  /** An unsigned decimal: digits with an optional `.` and fraction digits,
      at least one digit in all; `5.` and `.5` included. */
  function UnsignedDecimal(s: string): (r: Option<real>)
    ensures r.Some? ==> r.value >= 0.0
  {
    var k := DotIndex(s);
    if k == |s| then
      if AllDigits(s) then Some(DigitsValue(s) as real) else None
    else
      var w, f := s[..k], s[k + 1..];
      if Digits(w) && Digits(f) && |w| + |f| > 0 then
        Some(DigitsValue(w) as real + DigitsValue(f) as real / Pow10(|f|) as real)
      else None
  }

  /** `Number(s)` of a plain decimal token: an optional `+` or `-` sign,
      then an unsigned decimal. */
  function ParseDecimal(s: string): (r: Option<real>)
    ensures r.Some? && r.value < 0.0 ==> |s| > 0 && s[0] == '-'
    ensures |s| > 0 && s[0] == '-' ==> r == (if UnsignedDecimal(s[1..]).Some? then Some(-UnsignedDecimal(s[1..]).value) else None)
  {
    if |s| > 0 && s[0] == '-' then
      var u := UnsignedDecimal(s[1..]);
      if u.Some? then Some(-u.value) else None
    else if |s| > 0 && s[0] == '+' then UnsignedDecimal(s[1..])
    else UnsignedDecimal(s)
  }

  lemma {:induction false} DotIndexOfDigits(s: string)
    requires Digits(s)
    ensures DotIndex(s) == |s|
    decreases |s|
  {
    if |s| > 0 {
      DotIndexOfDigits(s[1..]);
    }
  }

  /** The digits of a natural number read back as its value. */
  lemma UnsignedDecimalOfNat(n: nat)
    ensures UnsignedDecimal(NatToString(n)) == Some(n as real)
  {
    var t := NatToString(n);
    DotIndexOfDigits(t);
    DigitsValueOfNat(n);
    assert AllDigits(t);
  }

  /** The digits of a natural number, unsigned, read as its value. */
  lemma ParseDecimalOfNat(n: nat)
    ensures ParseDecimal(NatToString(n)) == Some(n as real)
  {
    var s := NatToString(n);
    UnsignedDecimalOfNat(n);
    assert s[0] != '-' && s[0] != '+' by { assert IsDigit(s[0]); }
  }

  /** The rendering of a negative integer reads as its value. */
  lemma ParseDecimalOfNegative(i: int)
    requires i < 0
    ensures ParseDecimal(IntToString(i)) == Some(i as real)
  {
    var s := "-" + NatToString(-i);
    assert IntToString(i) == s;
    assert s[0] == '-' && s[1..] == NatToString(-i);
    UnsignedDecimalOfNat(-i);
    assert (-i) as real == -(i as real);
  }

  /** `Number` of an integer's rendering has the integer's value. */
  lemma ParseDecimalOfIntToString(i: int)
    ensures ParseDecimal(IntToString(i)) == Some(i as real)
  {
    if i < 0 {
      ParseDecimalOfNegative(i);
    } else {
      ParseDecimalOfNat(i);
    }
  }

  /** A fraction is read as `Number` reads it. */
  lemma ParseDecimalFraction()
    ensures ParseDecimal("0.5") == Some(0.5)
  {
    assert DotIndex("0.5") == 1;
    assert "0.5"[..1] == "0" && "0.5"[2..] == "5";
    assert DigitsValue("0") == 0 by { assert "0"[..0] == ""; }
    assert DigitsValue("5") == 5 by { assert "5"[..0] == ""; }
  }

  /** A `+` sign is accepted, as `Number` accepts it. */
  lemma ParseDecimalPlus()
    ensures ParseDecimal("+2") == Some(2.0)
  {
    assert "+2"[1..] == "2";
    assert DotIndex("2") == 1;
    assert DigitsValue("2") == 2 by { assert "2"[..0] == ""; }
  }

  /** `.5` is a number; a dot or a sign alone is not. */
  lemma ParseDecimalEdges()
    ensures ParseDecimal(".5") == Some(0.5)
    ensures ParseDecimal(".") == None && ParseDecimal("-") == None
  {
    assert DotIndex(".5") == 0;
    assert ".5"[..0] == "" && ".5"[1..] == "5";
    assert DigitsValue("5") == 5 by { assert "5"[..0] == ""; }
    assert DotIndex(".") == 0;
    assert "."[..0] == "" && "."[1..] == "";
    assert "-"[1..] == "";
  }

  /** `s.replace(/c/g, r)`: every occurrence of `c` replaced by `r`. */
  function ReplaceAll(s: string, c: char, r: string): string
    decreases |s|
  {
    if |s| == 0 then ""
    else ReplaceAll(s[..|s| - 1], c, r) + (if s[|s| - 1] == c then r else [s[|s| - 1]])
  }

  lemma {:induction false} ReplaceAllWithout(s: string, c: char, r: string)
    requires c !in s
    ensures ReplaceAll(s, c, r) == s
    decreases |s|
  {
    if |s| > 0 {
      ReplaceAllWithout(s[..|s| - 1], c, r);
      assert s == s[..|s| - 1] + [s[|s| - 1]];
    }
  }

  lemma {:induction false} ReplaceAllRemoves(s: string, c: char, r: string)
    requires c !in r
    ensures c !in ReplaceAll(s, c, r)
    decreases |s|
  {
    if |s| > 0 {
      ReplaceAllRemoves(s[..|s| - 1], c, r);
    }
  }

  lemma {:induction false} ReplaceAllAppend(a: string, b: string, c: char, r: string)
    ensures ReplaceAll(a + b, c, r) == ReplaceAll(a, c, r) + ReplaceAll(b, c, r)
    decreases |b|
  {
    if |b| > 0 {
      var b' := b[..|b| - 1];
      assert (a + b)[..|a + b| - 1] == a + b';
      ReplaceAllAppend(a, b', c, r);
    } else {
      assert a + b == a;
    }
  }

  function Occurrences(s: string, c: char): nat
    decreases |s|
  {
    if |s| == 0 then 0 else Occurrences(s[..|s| - 1], c) + (if s[|s| - 1] == c then 1 else 0)
  }

  /** Each occurrence of `c` grows the string by `|r| - 1` characters. */
  lemma {:induction false} ReplaceAllLength(s: string, c: char, r: string)
    ensures |ReplaceAll(s, c, r)| == |s| + Occurrences(s, c) * (|r| - 1)
    decreases |s|
  {
    if |s| > 0 {
      var p := s[..|s| - 1];
      ReplaceAllLength(p, c, r);
      var o := Occurrences(p, c);
      if s[|s| - 1] == c {
        assert Occurrences(s, c) == o + 1;
        assert (o + 1) * (|r| - 1) == o * (|r| - 1) + (|r| - 1);
      } else {
        assert Occurrences(s, c) == o;
      }
    }
  }

  function UpperChar(c: char): char
  {
    if 'a' <= c <= 'z' then (c as int - 'a' as int + 'A' as int) as char else c
  }

  /** `toUpperCase` on the ASCII letters. */
  function ToUpper(s: string): (t: string)
    ensures |t| == |s|
    ensures forall i :: 0 <= i < |s| ==> t[i] == UpperChar(s[i])
  {
    seq(|s|, i requires 0 <= i < |s| => UpperChar(s[i]))
  }

  /** `s.slice(0, -2)`: drops the last two characters (all of a shorter string). */
  function DropLastTwo(s: string): (t: string)
    ensures |s| >= 2 ==> t + s[|s| - 2..] == s
    ensures |s| < 2 ==> t == ""
  {
    if |s| < 2 then "" else s[..|s| - 2]
  }

  /** Lexicographic order on code units, standing for `localeCompare(...) <= 0`. */
  predicate Leq(a: string, b: string)
    decreases |a|
  {
    |a| == 0 || (|b| > 0 && (a[0] < b[0] || (a[0] == b[0] && Leq(a[1..], b[1..]))))
  }

  lemma {:induction false} LeqTotal(a: string, b: string)
    ensures Leq(a, b) || Leq(b, a)
    decreases |a|
  {
    if |a| > 0 && |b| > 0 && a[0] == b[0] {
      LeqTotal(a[1..], b[1..]);
    }
  }

  lemma {:induction false} LeqTransitive(a: string, b: string, c: string)
    requires Leq(a, b) && Leq(b, c)
    ensures Leq(a, c)
    decreases |a|
  {
    if |a| > 0 && a[0] == b[0] && b[0] == c[0] {
      LeqTransitive(a[1..], b[1..], c[1..]);
    }
  }

  lemma {:induction false} LeqAntisymmetric(a: string, b: string)
    requires Leq(a, b) && Leq(b, a)
    ensures a == b
    decreases |a|
  {
    if |a| > 0 {
      LeqAntisymmetric(a[1..], b[1..]);
      assert a == [a[0]] + a[1..] && b == [b[0]] + b[1..];
    }
  }
}
