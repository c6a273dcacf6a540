/** Character-level helpers shared by the date formats, the column-width
    measure and the SUM formula: decimal digits, zero padding, Python's
    `str(int)` and `str.upper`, and Python's ordering of strings. */
module Strings {
  import opened Results

  predicate IsDigit(c: char) {
    '0' <= c <= '9'
  }

  predicate AllDigits(s: string) {
    forall i :: 0 <= i < |s| ==> IsDigit(s[i])
  }

  /** The digit character for a value below ten. */
  function DigitChar(d: nat): (c: char)
    requires d < 10
    ensures IsDigit(c) && c as int - '0' as int == d
  {
    ('0' as int + d) as char
  }

  /** The value of a digit character; inverse of DigitChar. */
  function DigitValue(c: char): (d: nat)
    requires IsDigit(c)
    ensures d < 10 && DigitChar(d) == c
  {
    c as int - '0' as int
  }

  function Pow10(w: nat): (p: nat)
    ensures p >= 1
  {
    if w == 0 then 1 else 10 * Pow10(w - 1)
  }

  /** `n` written with exactly `w` decimal digits, zero-padded on the left:
      the shape of `%d`, `%m` (w = 2) and `%Y` (w = 4) in strftime. */
  function PadDigits(n: nat, w: nat): (s: string)
    requires n < Pow10(w)
    ensures |s| == w && AllDigits(s)
  {
    if w == 0 then "" else PadDigits(n / 10, w - 1) + [DigitChar(n % 10)]
  }

  /** The number a string of decimal digits denotes (the empty string is 0). */
  function ParseNat(s: string): (n: nat)
    requires AllDigits(s)
    ensures n < Pow10(|s|)
  {
    if s == [] then 0 else 10 * ParseNat(s[..|s| - 1]) + DigitValue(s[|s| - 1])
  }

  lemma {:induction false} ParsePadDigits(n: nat, w: nat)
    requires n < Pow10(w)
    ensures ParseNat(PadDigits(n, w)) == n
  {
    if w > 0 {
      var s := PadDigits(n, w);
      assert s[..|s| - 1] == PadDigits(n / 10, w - 1);
      ParsePadDigits(n / 10, w - 1);
    }
  }

  /** Reading a digit string and writing it back at the same width gives the
      string again: PadDigits and ParseNat are inverse on width-w strings. */
  lemma {:induction false} PadParseDigits(s: string)
    requires AllDigits(s)
    ensures PadDigits(ParseNat(s), |s|) == s
  {
    if s != [] {
      var prefix := s[..|s| - 1];
      PadParseDigits(prefix);
      var n := ParseNat(s);
      assert n / 10 == ParseNat(prefix);
      assert n % 10 == DigitValue(s[|s| - 1]);
      assert s == prefix + [s[|s| - 1]];
    }
  }

  /** Python's `str(n)` for a non-negative integer: the decimal digits,
      without leading zeros. */
  function NatToString(n: nat): (s: string)
    ensures 1 <= |s| && AllDigits(s)
  {
    if n < 10 then [DigitChar(n)] else NatToString(n / 10) + [DigitChar(n % 10)]
  }

  /** `str(n)` of a positive number starts with a non-zero digit. */
  lemma {:induction false} NatToStringLead(n: nat)
    requires n >= 1
    ensures NatToString(n)[0] != '0'
  {
    if n >= 10 {
      NatToStringLead(n / 10);
      assert NatToString(n)[0] == NatToString(n / 10)[0];
    }
  }

  /** `int(str(n)) == n`. */
  lemma {:induction false} ParseNatToString(n: nat)
    ensures ParseNat(NatToString(n)) == n
  {
    var s := NatToString(n);
    if n < 10 {
      assert s[..0] == [];
    } else {
      ParseNatToString(n / 10);
      assert s[..|s| - 1] == NatToString(n / 10);
    }
  }

  /** A digit string with a non-zero first digit denotes a positive number. */
  lemma {:induction false} ParseNatPositive(t: string)
    requires 1 <= |t| && AllDigits(t) && t[0] != '0'
    ensures ParseNat(t) >= 1
    decreases |t|
  {
    if |t| == 1 {
      assert t[..0] == [];
    } else {
      var prefix := t[..|t| - 1];
      assert prefix[0] == t[0];
      ParseNatPositive(prefix);
    }
  }

  /** `str(int(t)) == t` for a digit string without a leading zero. */
  lemma {:induction false} NatToStringParse(t: string)
    requires 1 <= |t| && AllDigits(t) && t[0] != '0'
    ensures NatToString(ParseNat(t)) == t
    decreases |t|
  {
    if |t| == 1 {
      assert t[..0] == [];
    } else {
      var prefix := t[..|t| - 1];
      assert prefix[0] == t[0];
      ParseNatPositive(prefix);
      NatToStringParse(prefix);
      var n := ParseNat(t);
      assert n / 10 == ParseNat(prefix) && n % 10 == DigitValue(t[|t| - 1]);
      assert t == prefix + [t[|t| - 1]];
    }
  }

  /** The lower-case letters `str.upper` maps to a capital by subtracting 32:
      ASCII a-z and the Latin-1 letters U+00E0..U+00FE except the division sign. */
  predicate IsLower(c: char) {
    'a' <= c <= 'z' || ('\U{00E0}' <= c <= '\U{00FE}' && c != '\U{00F7}')
  }

  function UpperChar(c: char): (u: char)
    ensures !IsLower(u)
    ensures IsLower(c) ==> u as int == c as int - 32
    ensures !IsLower(c) ==> u == c
  {
    if IsLower(c) then (c as int - 32) as char else c
  }

  /** `str.upper` restricted to the letters IsLower names. */
  function Upper(s: string): (r: string)
    ensures |r| == |s|
    ensures forall i :: 0 <= i < |s| ==> r[i] == UpperChar(s[i])
  {
    seq(|s|, i requires 0 <= i < |s| => UpperChar(s[i]))
  }

  /** Upper-casing twice is upper-casing once, and no lower-case letter is left. */
  lemma UpperIdempotent(s: string)
    ensures Upper(Upper(s)) == Upper(s)
    ensures forall i :: 0 <= i < |s| ==> !IsLower(Upper(s)[i])
  {
  }

  /** Python's `<` on `str`: lexicographic by code point, a proper prefix first. */
  predicate TextBefore(s: string, t: string)
    decreases |s|
  {
    if s == [] then t != []
    else if t == [] then false
    else if s[0] != t[0] then s[0] < t[0]
    else TextBefore(s[1..], t[1..])
  }

  /** The position of the first `c` in `s`, if any. */
  function IndexOf(s: string, c: char): (r: Option<nat>)
    ensures r.None? <==> c !in s
    ensures r.Some? ==> r.value < |s| && s[r.value] == c && c !in s[..r.value]
  {
    if s == [] then None
    else if s[0] == c then Some(0)
    else match IndexOf(s[1..], c)
      case None => None
      case Some(k) =>
        assert s[..k + 1] == [s[0]] + s[1..][..k];
        Some(k + 1)
  }
}
