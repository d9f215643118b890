/** Text primitives behind dlog's stream output: the digits a stream writes
    for an integer in base 10 or 16 (upper case, as `std::uppercase` asks),
    left padding to a field width, and the cut a C string makes at its first
    NUL character. */
module Text {
  import opened Wrappers

  predicate IsRadix(radix: nat) {
    2 <= radix <= 16
  }

  /** The upper-case digit for `d`. */
  function DigitChar(d: nat): (c: char)
    requires d < 16
    ensures ('0' <= c <= '9') || ('A' <= c <= 'F')
    ensures DigitValue(c) == d
  {
    if d < 10 then ('0' as int + d) as char else ('A' as int + d - 10) as char
  }

  /** The value of a digit character; the partner of `DigitChar`. */
  function DigitValue(c: char): nat {
    if '0' <= c <= '9' then c as int - '0' as int
    else if 'A' <= c <= 'F' then c as int - 'A' as int + 10
    else 0
  }

  predicate IsDigit(c: char, radix: nat) {
    (('0' <= c <= '9') || ('A' <= c <= 'F')) && DigitValue(c) < radix
  }

  predicate AllDigits(s: string, radix: nat) {
    forall i :: 0 <= i < |s| ==> IsDigit(s[i], radix)
  }

  /** The digits of `n` in `radix`, most significant first, without leading
      zeros (zero itself is the single digit "0"). */
  function NatToDigits(n: nat, radix: nat): (r: string)
    requires IsRadix(radix)
    ensures r != [] && AllDigits(r, radix)
    ensures |r| > 1 ==> r[0] != '0'
    decreases n
  {
    if n < radix then [DigitChar(n)]
    else
      SplitLastDigit(n, radix);
      var front := NatToDigits(n / radix, radix);
      var r := front + [DigitChar(n % radix)];
      assert forall i :: 0 <= i < |front| ==> r[i] == front[i];
      r
  }

  /** Division by the radix splits off the last digit and makes progress. */
  lemma SplitLastDigit(n: nat, radix: nat)
    requires IsRadix(radix) && radix <= n
    ensures 0 < n / radix < n && n % radix < radix
    ensures (n / radix) * radix + n % radix == n
  {
  }

  /** The number a string of digits denotes; the partner of `NatToDigits`. */
  function DigitsToNat(s: string, radix: nat): nat {
    if s == [] then 0 else DigitsToNat(s[..|s| - 1], radix) * radix + DigitValue(s[|s| - 1])
  }

  /** Reading back the digits of `n` gives `n`. */
  lemma {:induction false} DigitsRoundTrip(n: nat, radix: nat)
    requires IsRadix(radix)
    ensures DigitsToNat(NatToDigits(n, radix), radix) == n
    decreases n
  {
    var s := NatToDigits(n, radix);
    if n < radix {
      assert s[..0] == [];
    } else {
      SplitLastDigit(n, radix);
      DigitsRoundTrip(n / radix, radix);
      assert s[..|s| - 1] == NatToDigits(n / radix, radix);
      assert s[|s| - 1] == DigitChar(n % radix);
    }
  }

  /** What a stream writes for an integer in decimal mode: a minus sign for a
      negative value, then the decimal digits of its magnitude. The text loses
      nothing: it reads back to the same integer. */
  function IntToDecimal(i: int): (r: string)
    ensures ParseDecimal(r) == Some(i)
  {
    if i < 0 then
      var digits := NatToDigits(-i, 10);
      DigitsRoundTrip(-i, 10);
      var r := "-" + digits;
      assert r[1..] == digits;
      r
    else
      var digits := NatToDigits(i, 10);
      DigitsRoundTrip(i, 10);
      assert IsDigit(digits[0], 10);
      digits
  }

  /** Reads decimal text back into the integer; the partner of `IntToDecimal`. */
  function ParseDecimal(s: string): Option<int> {
    if |s| > 1 && s[0] == '-' && AllDigits(s[1..], 10) then Some(0 - DigitsToNat(s[1..], 10))
    else if s != [] && AllDigits(s, 10) then Some(DigitsToNat(s, 10))
    else None
  }

  /** The field a stream writes when the width exceeds the text: `fill`
      characters on the left, then the text itself. */
  function PadLeft(s: string, fill: char, width: nat): (r: string)
    ensures |r| == if |s| < width then width else |s|
    ensures r[|r| - |s|..] == s
    ensures forall i :: 0 <= i < |r| - |s| ==> r[i] == fill
  {
    if |s| < width then seq(width - |s|, _ => fill) + s else s
  }

  /** The characters a C string holds: everything before its first NUL, or
      all of `s` when it holds none. */
  function CStr(s: string): (r: string)
    ensures r <= s
    ensures '\0' !in r
    ensures |r| < |s| ==> s[|r|] == '\0'
  {
    if s == [] || s[0] == '\0' then [] else [s[0]] + CStr(s[1..])
  }

  /** A string without NUL characters passes through the C-string cut
      unchanged, and the cut is idempotent. */
  lemma CStrOfPlainText(s: string)
    ensures '\0' !in s ==> CStr(s) == s
    ensures CStr(CStr(s)) == CStr(s)
  {
  }
}
