/**
 * `formatDuration` of the player: a whole number of seconds shown as
 * minutes, a colon and the seconds padded to two digits ("3:07").
 * `ParseDuration` reads such a label back, and FormatDurationRoundTrip
 * proves that it recovers the seconds.
 */
module Duration {
  import opened Wrappers

  predicate IsDigit(c: char) {
    '0' <= c <= '9'
  }

  predicate IsDigits(s: string) {
    forall i :: 0 <= i < |s| ==> IsDigit(s[i])
  }

  function DigitChar(d: nat): (c: char)
    requires d < 10
    ensures IsDigit(c) && c as int - '0' as int == d
  {
    ('0' as int + d) as char
  }

  /** The value of one character read as a decimal digit (0 for any other character). */
  function DigitValue(c: char): nat {
    if IsDigit(c) then c as int - '0' as int else 0
  }

  /** The number a string of decimal digits denotes (leading zeros allowed). */
  function DigitsValue(s: string): nat {
    if s == [] then 0 else DigitsValue(s[..|s| - 1]) * 10 + DigitValue(s[|s| - 1])
  }

  /** `n.toString()` for a non-negative integer: its decimal digits, without leading zeros. */
  function NatToString(n: nat): (r: string)
    ensures 1 <= |r| && IsDigits(r)
    ensures DigitsValue(r) == n
    ensures n > 0 ==> r[0] != '0'
    ensures |r| == 1 <==> n < 10
  {
    if n < 10 then
      [DigitChar(n)]
    else
      var prefix := NatToString(n / 10);
      var r := prefix + [DigitChar(n % 10)];
      assert r[..|r| - 1] == prefix;
      r
  }

  /** `s.padStart(width, fill)` with a one-character fill. */
  function PadStart(s: string, width: nat, fill: char): (r: string)
    ensures |r| == if |s| >= width then |s| else width
    ensures r[|r| - |s|..] == s
    ensures forall i :: 0 <= i < |r| - |s| ==> r[i] == fill
    decreases width - |s|
  {
    if |s| >= width then
      s
    else
      var longer := [fill] + s;
      var r := PadStart(longer, width, fill);
      assert r[|r| - |s|..] == r[|r| - |longer|..][1..];
      r
  }

  /** The two-character seconds field `secs.toString().padStart(2, '0')` denotes `secs`. */
  lemma SecondsField(secs: nat)
    requires secs < 60
    ensures var f := PadStart(NatToString(secs), 2, '0');
            |f| == 2 && IsDigits(f) && DigitsValue(f) == secs
  {
    var digits := NatToString(secs);
    var f := PadStart(digits, 2, '0');
    if secs < 10 {
      assert f == ['0'] + digits;
      assert f[..1] == ['0'];
    } else {
      assert |digits| == 2;
      assert f == digits;
    }
  }

  /** A label `minutes + ":" + field` splits back into its two parts. */
  lemma LabelParts(minutes: string, field: string)
    requires |field| == 2
    ensures var r := minutes + ":" + field;
            |r| == |minutes| + 3 && r[|r| - 3] == ':' &&
            r[..|r| - 3] == minutes && r[|r| - 2..] == field
  {
  }

  /** Reads a "m:ss" label back into seconds; `None` for anything else. */
  function ParseDuration(text: string): Option<nat> {
    if |text| < 4 || text[|text| - 3] != ':' then
      None
    else
      var minutes := text[..|text| - 3];
      var secs := text[|text| - 2..];
      if IsDigits(minutes) && IsDigits(secs) && DigitsValue(secs) < 60
      then Some(DigitsValue(minutes) * 60 + DigitsValue(secs))
      else None
  }

  /** Any label whose two fields denote `m` and `f < 60` parses as `m * 60 + f`. */
  lemma ParseLabel(r: string, m: nat, f: nat)
    requires |r| >= 4 && r[|r| - 3] == ':' && f < 60
    requires IsDigits(r[..|r| - 3]) && DigitsValue(r[..|r| - 3]) == m
    requires IsDigits(r[|r| - 2..]) && DigitsValue(r[|r| - 2..]) == f
    ensures ParseDuration(r) == Some(m * 60 + f)
  {
  }

  /**
   * `formatDuration(seconds)`: `Math.floor(seconds / 60)` in decimal, a colon,
   * then `seconds % 60` padded to two digits.
   */
  function FormatDuration(seconds: nat): string {
    NatToString(seconds / 60) + ":" + PadStart(NatToString(seconds % 60), 2, '0')
  }

  lemma FormatDurationRoundTrip(seconds: nat)
    ensures ParseDuration(FormatDuration(seconds)) == Some(seconds)
  {
    var minutes, secs := seconds / 60, seconds % 60;
    var m := NatToString(minutes);
    var f := PadStart(NatToString(secs), 2, '0');
    SecondsField(secs);
    DivMod60(seconds, minutes, secs);
    LabelRoundTrip(FormatDuration(seconds), m, f, minutes, secs, seconds);
  }

  /** A label built from a digit string for `minutes` and a two-digit field for `secs` parses back. */
  lemma LabelRoundTrip(r: string, m: string, f: string, minutes: nat, secs: nat, total: nat)
    requires IsDigits(m) && DigitsValue(m) == minutes && 1 <= |m|
    requires |f| == 2 && IsDigits(f) && DigitsValue(f) == secs && secs < 60
    requires r == m + ":" + f && total == minutes * 60 + secs
    ensures ParseDuration(r) == Some(total)
  {
    LabelParts(m, f);
    ParseLabel(r, minutes, secs);
  }

  lemma DivMod60(n: nat, m: nat, f: nat)
    requires m == n / 60 && f == n % 60
    ensures m * 60 + f == n
  {
  }

  /** The label the player shows before a track has loaded and after a reset. */
  lemma ZeroLabel()
    ensures FormatDuration(0) == "0:00"
  {
    var zero := NatToString(0);
    assert zero == ['0'];
    var field := PadStart(zero, 2, '0');
    assert field == PadStart(['0', '0'], 2, '0');
    assert field == ['0', '0'];
    assert FormatDuration(0) == zero + ":" + field;
  }
}
