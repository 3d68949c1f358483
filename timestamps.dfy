/** Timestamps as the task tool writes them (`yyyyMMdd'T'HHmmss'Z'`) and
    as the service passes due dates back to it (ISO 8601, `yyyy-MM-dd'T'HH:mm:ss'Z'`). */
module Timestamps {
  import opened Wrappers

  /** An instant, broken into calendar fields. */
  datatype Timestamp = Timestamp(year: nat, month: nat, day: nat, hour: nat, minute: nat, second: nat)

  predicate IsLeapYear(y: nat) {
    (y % 4 == 0 && y % 100 != 0) || y % 400 == 0
  }

  function DaysInMonth(y: nat, m: nat): nat {
    if m == 2 then (if IsLeapYear(y) then 29 else 28)
    else if m == 4 || m == 6 || m == 9 || m == 11 then 30
    else 31
  }

  /** A real date with a four-digit year. */
  predicate Valid(t: Timestamp) {
    && t.year <= 9999
    && 1 <= t.month <= 12
    && 1 <= t.day <= DaysInMonth(t.year, t.month)
    && t.hour < 24 && t.minute < 60 && t.second < 60
  }

  /** `Date.distantPast`, 0001-01-01 00:00:00. */
  const DistantPast: Timestamp := Timestamp(1, 1, 1, 0, 0, 0)

  /** The fields from most to least significant; comparing these
      lexicographically compares the instants. */
  function Fields(t: Timestamp): (r: seq<int>)
    ensures |r| == 6
  {
    [t.year, t.month, t.day, t.hour, t.minute, t.second]
  }

  // ---------------------------------------------------------------------
  // Digit strings

  predicate IsDigit(c: char) {
    '0' <= c <= '9'
  }

  predicate AllDigits(s: string) {
    forall i | 0 <= i < |s| :: IsDigit(s[i])
  }

  function Pow10(n: nat): (r: nat)
    ensures r >= 1
  {
    if n == 0 then 1 else 10 * Pow10(n - 1)
  }

  /** The number a string of decimal digits denotes. */
  function DigitsValue(s: string): nat
    requires AllDigits(s)
  {
    if s == [] then 0
    else DigitsValue(s[..|s| - 1]) * 10 + (s[|s| - 1] as int - '0' as int)
  }

  /** `n` written with exactly `width` decimal digits, zero-padded on the left. */
  function Digits(n: nat, width: nat): (s: string)
    ensures |s| == width && AllDigits(s)
  {
    if width == 0 then []
    else Digits(n / 10, width - 1) + [('0' as int + n % 10) as char]
  }

  lemma {:induction false} DigitsValueOfDigits(n: nat, width: nat)
    requires n < Pow10(width)
    ensures DigitsValue(Digits(n, width)) == n
  {
    if width > 0 {
      var s := Digits(n, width);
      assert s[..|s| - 1] == Digits(n / 10, width - 1);
      assert n / 10 < Pow10(width - 1);
      DigitsValueOfDigits(n / 10, width - 1);
    }
  }

  lemma {:induction false} DigitsOfDigitsValue(s: string)
    requires AllDigits(s)
    ensures DigitsValue(s) < Pow10(|s|)
    ensures Digits(DigitsValue(s), |s|) == s
  {
    if s != [] {
      var p, d := s[..|s| - 1], s[|s| - 1] as int - '0' as int;
      assert AllDigits(p);
      DigitsOfDigitsValue(p);
      var v := DigitsValue(p);
      assert DigitsValue(s) == v * 10 + d;
      assert (v * 10 + d) / 10 == v && (v * 10 + d) % 10 == d;
      assert v * 10 + d < 10 * Pow10(|p|);
      assert s == p + [s[|s| - 1]];
    }
  }

  /** The value of the digit field `s[lo..hi]`, when it is all digits. */
  function Field(s: string, lo: nat, hi: nat): (r: Option<nat>)
    requires lo <= hi <= |s|
    ensures r.Some? <==> AllDigits(s[lo..hi])
  {
    if AllDigits(s[lo..hi]) then Some(DigitsValue(s[lo..hi])) else None
  }

  // ---------------------------------------------------------------------
  // The compact pattern yyyyMMdd'T'HHmmss'Z'

  function FormatCompact(t: Timestamp): (s: string)
    ensures |s| == 16
  {
    Digits(t.year, 4) + Digits(t.month, 2) + Digits(t.day, 2) + "T"
      + Digits(t.hour, 2) + Digits(t.minute, 2) + Digits(t.second, 2) + "Z"
  }

  /** The date a `DateFormatter` with the compact pattern reads from `s`, or
      None when `s` does not match the pattern or names no real date. */
  function ParseCompact(s: string): Option<Timestamp> {
    if |s| != 16 || s[8] != 'T' || s[15] != 'Z' then None
    else
      var y, mo, d := Field(s, 0, 4), Field(s, 4, 6), Field(s, 6, 8);
      var h, mi, se := Field(s, 9, 11), Field(s, 11, 13), Field(s, 13, 15);
      if y.None? || mo.None? || d.None? || h.None? || mi.None? || se.None? then None
      else
        var t := Timestamp(y.value, mo.value, d.value, h.value, mi.value, se.value);
        if Valid(t) then Some(t) else None
  }

  /** Every real date is read back from its compact form. */
  lemma CompactRoundTrip(t: Timestamp)
    requires Valid(t)
    ensures ParseCompact(FormatCompact(t)) == Some(t)
  {
    var s := FormatCompact(t);
    assert s[0..4] == Digits(t.year, 4);
    assert s[4..6] == Digits(t.month, 2);
    assert s[6..8] == Digits(t.day, 2);
    assert s[9..11] == Digits(t.hour, 2);
    assert s[11..13] == Digits(t.minute, 2);
    assert s[13..15] == Digits(t.second, 2);
    DigitsValueOfDigits(t.year, 4);
    DigitsValueOfDigits(t.month, 2);
    DigitsValueOfDigits(t.day, 2);
    DigitsValueOfDigits(t.hour, 2);
    DigitsValueOfDigits(t.minute, 2);
    DigitsValueOfDigits(t.second, 2);
  }

  /** Whatever the pattern accepts is exactly the compact form of a real date. */
  lemma CompactAcceptsOnlyFormatted(s: string)
    requires ParseCompact(s).Some?
    ensures Valid(ParseCompact(s).value)
    ensures FormatCompact(ParseCompact(s).value) == s
  {
    var t := ParseCompact(s).value;
    DigitsOfDigitsValue(s[0..4]);
    DigitsOfDigitsValue(s[4..6]);
    DigitsOfDigitsValue(s[6..8]);
    DigitsOfDigitsValue(s[9..11]);
    DigitsOfDigitsValue(s[11..13]);
    DigitsOfDigitsValue(s[13..15]);
    assert s == s[0..4] + s[4..6] + s[6..8] + [s[8]] + s[9..11] + s[11..13] + s[13..15] + [s[15]];
  }

  // ---------------------------------------------------------------------
  // ISO 8601 internet date-time, as ISO8601DateFormatter writes it

  function FormatIso8601(t: Timestamp): (s: string)
    ensures |s| == 20
  {
    Digits(t.year, 4) + "-" + Digits(t.month, 2) + "-" + Digits(t.day, 2) + "T"
      + Digits(t.hour, 2) + ":" + Digits(t.minute, 2) + ":" + Digits(t.second, 2) + "Z"
  }

  /** Reads back what FormatIso8601 writes. */
  function ParseIso8601(s: string): Option<Timestamp> {
    if |s| != 20 || s[4] != '-' || s[7] != '-' || s[10] != 'T' || s[13] != ':' || s[16] != ':' || s[19] != 'Z' then None
    else
      var y, mo, d := Field(s, 0, 4), Field(s, 5, 7), Field(s, 8, 10);
      var h, mi, se := Field(s, 11, 13), Field(s, 14, 16), Field(s, 17, 19);
      if y.None? || mo.None? || d.None? || h.None? || mi.None? || se.None? then None
      else
        var t := Timestamp(y.value, mo.value, d.value, h.value, mi.value, se.value);
        if Valid(t) then Some(t) else None
  }

  lemma Iso8601RoundTrip(t: Timestamp)
    requires Valid(t)
    ensures ParseIso8601(FormatIso8601(t)) == Some(t)
  {
    var s := FormatIso8601(t);
    assert s[0..4] == Digits(t.year, 4);
    assert s[5..7] == Digits(t.month, 2);
    assert s[8..10] == Digits(t.day, 2);
    assert s[11..13] == Digits(t.hour, 2);
    assert s[14..16] == Digits(t.minute, 2);
    assert s[17..19] == Digits(t.second, 2);
    DigitsValueOfDigits(t.year, 4);
    DigitsValueOfDigits(t.month, 2);
    DigitsValueOfDigits(t.day, 2);
    DigitsValueOfDigits(t.hour, 2);
    DigitsValueOfDigits(t.minute, 2);
    DigitsValueOfDigits(t.second, 2);
  }
}
