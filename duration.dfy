/**
 * The elapsed-time label of the recorder. Every timer tick writes
 * `String(floor(t / 60)).padStart(2, '0') + ":" + String(t % 60).padStart(2, '0')`
 * into the duration element (action.js, startTimer). This module defines that
 * label, proves what its two fields hold, and gives its inverse.
 */
module Duration {
  import opened Wrappers

  predicate IsDigit(c: char) {
    '0' <= c <= '9'
  }

  predicate IsDigits(s: string) {
    forall i :: 0 <= i < |s| ==> IsDigit(s[i])
  }

  function DigitValue(c: char): (d: nat)
    requires IsDigit(c)
    ensures d < 10
  {
    c as int - '0' as int
  }

  function DigitChar(d: nat): (c: char)
    requires d < 10
    ensures IsDigit(c) && DigitValue(c) == d
  {
    ('0' as int + d) as char
  }

  /** The number a string of decimal digits denotes, most significant digit first. */
  function Value(s: string): nat
    requires IsDigits(s)
  {
    if s == [] then 0 else 10 * Value(s[..|s| - 1]) + DigitValue(s[|s| - 1])
  }

  /** The shortest decimal form: at least one digit, no leading zero except in "0". */
  predicate Canonical(s: string) {
    IsDigits(s) && 1 <= |s| && (|s| > 1 ==> s[0] != '0')
  }

  /** `String(n)` for a non-negative integer. */
  function DecimalString(n: nat): string {
    if n < 10 then [DigitChar(n)] else DecimalString(n / 10) + [DigitChar(n % 10)]
  }

  /** `s.padStart(width, fill)` with a one-character fill. */
  function PadStart(s: string, width: nat, fill: char): string {
    if |s| < width then seq(width - |s|, _ => fill) + s else s
  }

  /** The label the tick callback writes once `recordingTime` equals `t`. */
  function Format(t: nat): string {
    PadStart(DecimalString(t / 60), 2, '0') + ":" + PadStart(DecimalString(t % 60), 2, '0')
  }

  /**
   * Reads a label back: minutes (at least two digits, no superfluous leading
   * zero), a colon, and exactly two digits of seconds below 60.
   */
  function Parse(s: string): Option<nat> {
    if |s| < 5 || s[|s| - 3] != ':' then None
    else
      var m, sec := s[..|s| - 3], s[|s| - 2..];
      if !IsDigits(m) || !IsDigits(sec) || (|m| > 2 && m[0] == '0') || Value(sec) >= 60 then None
      else Some(60 * Value(m) + Value(sec))
  }

  // ---------------------------------------------------------------------------
  // Digit strings

  /** `String(n)` is the shortest decimal form of n; it has one digit exactly when n is below 10. */
  lemma {:induction false} DecimalStringCanonical(n: nat)
    ensures Canonical(DecimalString(n)) && Value(DecimalString(n)) == n
    ensures |DecimalString(n)| == 1 <==> n < 10
  {
    if n >= 10 {
      DecimalStringCanonical(n / 10);
      var p, s := DecimalString(n / 10), DecimalString(n);
      assert s[..|s| - 1] == p;
    }
  }

  /** `padStart` fills on the left up to the width and never truncates: the input is the result's suffix. */
  lemma PadStartPads(s: string, width: nat, fill: char)
    ensures var r := PadStart(s, width, fill);
      |r| == (if |s| < width then width else |s|)
      && r[|r| - |s|..] == s
      && forall i :: 0 <= i < |r| - |s| ==> r[i] == fill
  {
  }

  lemma {:induction false} ZerosValue(k: nat)
    ensures IsDigits(seq(k, _ => '0')) && Value(seq(k, _ => '0')) == 0
  {
    var z := seq(k, _ => '0');
    if k > 0 {
      assert z[..k - 1] == seq(k - 1, _ => '0');
      ZerosValue(k - 1);
    }
  }

  /** Leading zeros do not change the value of a digit string. */
  lemma {:induction false} LeadingZerosValue(k: nat, s: string)
    requires IsDigits(s)
    ensures IsDigits(seq(k, _ => '0') + s)
    ensures Value(seq(k, _ => '0') + s) == Value(s)
  {
    var z := seq(k, _ => '0');
    if s == [] {
      assert z + s == z;
      ZerosValue(k);
    } else {
      var p := s[..|s| - 1];
      LeadingZerosValue(k, p);
      assert (z + s)[..|z + s| - 1] == z + p;
    }
  }

  /** Padding with '0' keeps a digit string's value. */
  lemma PadValue(s: string, width: nat)
    requires IsDigits(s)
    ensures IsDigits(PadStart(s, width, '0')) && Value(PadStart(s, width, '0')) == Value(s)
  {
    if |s| < width {
      LeadingZerosValue(width - |s|, s);
    }
  }

  lemma {:induction false} LeadingDigitPositive(s: string)
    requires IsDigits(s) && 1 <= |s| && s[0] != '0'
    ensures Value(s) >= 1
  {
    if |s| > 1 {
      LeadingDigitPositive(s[..|s| - 1]);
    }
  }

  /** `String` inverts `Value` on canonical digit strings. */
  lemma {:induction false} DecimalOfCanonical(s: string)
    requires Canonical(s)
    ensures DecimalString(Value(s)) == s
  {
    if |s| == 1 {
      assert DigitChar(DigitValue(s[0])) == s[0];
    } else {
      var p := s[..|s| - 1];
      assert p[0] == s[0];
      LeadingDigitPositive(p);
      DecimalOfCanonical(p);
      var n := Value(s);
      assert n / 10 == Value(p) && n % 10 == DigitValue(s[|s| - 1]);
      assert DigitChar(DigitValue(s[|s| - 1])) == s[|s| - 1];
      assert s == p + [s[|s| - 1]];
    }
  }

  /** A two-or-more digit field without a superfluous leading zero is reproduced by `padStart(2, '0')`. */
  lemma PadTwoOfField(m: string)
    requires IsDigits(m) && |m| >= 2 && (|m| > 2 ==> m[0] != '0')
    ensures PadStart(DecimalString(Value(m)), 2, '0') == m
  {
    if m[0] != '0' {
      DecimalOfCanonical(m);
    } else {
      ZeroLedPair(m);
    }
  }

  /** A two-digit field "0d" holds the one-digit number d. */
  lemma ZeroLedPair(m: string)
    requires IsDigits(m) && |m| == 2 && m[0] == '0'
    ensures DecimalString(Value(m)) == [m[1]]
  {
    assert m[..|m| - 1] == [m[0]];
    assert Value([m[0]]) == 0 by {
      assert [m[0]][..0] == [];
    }
    assert Value(m) == DigitValue(m[1]);
    assert DigitChar(DigitValue(m[1])) == m[1];
  }

  // ---------------------------------------------------------------------------
  // The label

  /**
   * The label is the minutes field, ':' and the seconds field. The seconds
   * field is exactly two digits denoting t mod 60; the minutes field denotes
   * floor(t / 60), is at least two characters and is as long as that number
   * needs (never truncated).
   */
  lemma FormatFields(t: nat)
    ensures |Format(t)| >= 5 && Format(t)[|Format(t)| - 3] == ':'
    ensures var r := Format(t);
      IsDigits(r[..|r| - 3]) && Value(r[..|r| - 3]) == t / 60
      && |r[..|r| - 3]| == (if t / 60 < 10 then 2 else |DecimalString(t / 60)|)
      && IsDigits(r[|r| - 2..]) && |r[|r| - 2..]| == 2 && Value(r[|r| - 2..]) == t % 60
  {
    var m := PadStart(DecimalString(t / 60), 2, '0');
    var sec := PadStart(DecimalString(t % 60), 2, '0');
    var r := Format(t);
    DecimalStringCanonical(t / 60);
    DecimalStringCanonical(t % 60);
    assert |DecimalString(t % 60)| <= 2 by {
      if t % 60 >= 10 {
        assert (t % 60) / 10 < 10;
      }
    }
    assert r == m + ":" + sec;
    assert r[..|r| - 3] == m;
    assert r[|r| - 2..] == sec;
    PadValue(DecimalString(t / 60), 2);
    PadValue(DecimalString(t % 60), 2);
  }

  /** Reading the label back gives the second count it was made from. */
  lemma ParseFormat(t: nat)
    ensures Parse(Format(t)) == Some(t)
  {
    var m := PadStart(DecimalString(t / 60), 2, '0');
    var sec := PadStart(DecimalString(t % 60), 2, '0');
    DecimalStringCanonical(t / 60);
    DecimalStringCanonical(t % 60);
    PadValue(DecimalString(t / 60), 2);
    PadValue(DecimalString(t % 60), 2);
    assert |DecimalString(t % 60)| <= 2 by {
      if t % 60 >= 10 {
        assert (t % 60) / 10 < 10;
      }
    }
    assert |m| > 2 ==> m[0] != '0';
    assert 60 * Value(m) + Value(sec) == t;
    ParseJoined(m, sec, t);
  }

  lemma ParseJoined(m: string, sec: string, t: nat)
    requires IsDigits(m) && IsDigits(sec) && |m| >= 2 && |sec| == 2
    requires (|m| > 2 ==> m[0] != '0') && Value(sec) < 60 && t == 60 * Value(m) + Value(sec)
    ensures Parse(m + ":" + sec) == Some(t)
  {
    var s := m + ":" + sec;
    assert |s| >= 5 && s[|s| - 3] == ':';
    assert s[..|s| - 3] == m;
    assert s[|s| - 2..] == sec;
    assert !(|m| > 2 && m[0] == '0');
  }

  /** Every label that reads back as t is the label of t: Format is onto the readable labels. */
  lemma FormatParse(s: string, t: nat)
    requires Parse(s) == Some(t)
    ensures Format(t) == s
  {
    var m, sec := s[..|s| - 3], s[|s| - 2..];
    assert IsDigits(m) && IsDigits(sec) && Value(sec) < 60 && t == 60 * Value(m) + Value(sec);
    DivMod60(t, Value(m), Value(sec));
    PadTwoOfField(m);
    PadTwoOfField(sec);
    SplitAtColon(s);
  }

  lemma SplitAtColon(s: string)
    requires |s| >= 3 && s[|s| - 3] == ':'
    ensures s == s[..|s| - 3] + ":" + s[|s| - 2..]
  {
  }

  lemma DivMod60(t: nat, q: nat, r: nat)
    requires r < 60 && t == 60 * q + r
    ensures t / 60 == q && t % 60 == r
  {
  }

  /** The label of 0 seconds, which a record start writes directly. */
  lemma FormatZero()
    ensures Format(0) == "00:00"
  {
    assert DecimalString(0) == "0";
  }

  /** Two labels a tick writes: minutes and seconds padded, and minutes past 99 kept whole. */
  lemma FormatExamples()
    ensures Format(125) == "02:05"
    ensures Format(6000) == "100:00"
  {
    assert DecimalString(0) == "0";
    assert DecimalString(2) == "2";
    assert DecimalString(5) == "5";
    assert DecimalString(10) == "10";
    assert DecimalString(100) == "100";
  }
}
