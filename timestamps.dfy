/** The run timestamp `datetime.now().strftime("%Y%m%d_%H%M%S")`. The clock
    is not modelled: the moment is an input. */
module Timestamps {

  /** A wall-clock reading at one-second resolution, as `datetime` holds it. */
  datatype Timestamp = Timestamp(year: nat, month: nat, day: nat, hour: nat, minute: nat, second: nat)

  /** The readings `datetime.now()` can produce, restricted to four-digit years. */
  predicate ValidTimestamp(t: Timestamp)
  {
    1000 <= t.year <= 9999 && 1 <= t.month <= 12 && 1 <= t.day <= 31 &&
    t.hour < 24 && t.minute < 60 && t.second < 60
  }

  function Pow10(w: nat): (p: nat)
    ensures p >= 1
  {
    if w == 0 then 1 else 10 * Pow10(w - 1)
  }

  function DigitChar(d: nat): char
    requires d < 10
  {
    "0123456789"[d]
  }

  function DigitValue(c: char): nat
  {
    if '0' <= c <= '9' then (c - '0') as nat else 0
  }

  /** `n` written in decimal, zero-padded to exactly `w` digits. */
  function Digits(n: nat, w: nat): (s: string)
    requires n < Pow10(w)
    ensures |s| == w
    ensures forall i :: 0 <= i < |s| ==> '0' <= s[i] <= '9'
  {
    if w == 0 then "" else Digits(n / 10, w - 1) + [DigitChar(n % 10)]
  }

  /** The number a string of decimal digits denotes. */
  function Value(s: string): nat
  {
    if s == [] then 0 else 10 * Value(s[..|s| - 1]) + DigitValue(s[|s| - 1])
  }

  lemma {:induction false} ValueOfDigits(n: nat, w: nat)
    requires n < Pow10(w)
    ensures Value(Digits(n, w)) == n
  {
    if w > 0 {
      var s := Digits(n, w);
      assert s[..|s| - 1] == Digits(n / 10, w - 1);
      ValueOfDigits(n / 10, w - 1);
      assert DigitValue(s[|s| - 1]) == n % 10;
    }
  }

  /** `strftime("%Y%m%d_%H%M%S")`. */
  function Strftime(t: Timestamp): (s: string)
    requires ValidTimestamp(t)
    ensures |s| == 15 && s[8] == '_'
  {
    Digits(t.year, 4) + Digits(t.month, 2) + Digits(t.day, 2) + "_" +
    Digits(t.hour, 2) + Digits(t.minute, 2) + Digits(t.second, 2)
  }

  /** Two different moments (to the second) never format alike. */
  lemma StrftimeInjective(t1: Timestamp, t2: Timestamp)
    requires ValidTimestamp(t1) && ValidTimestamp(t2)
    requires Strftime(t1) == Strftime(t2)
    ensures t1 == t2
  {
    var s1, s2 := Strftime(t1), Strftime(t2);
    assert s1[0..4] == Digits(t1.year, 4) && s2[0..4] == Digits(t2.year, 4);
    assert s1[4..6] == Digits(t1.month, 2) && s2[4..6] == Digits(t2.month, 2);
    assert s1[6..8] == Digits(t1.day, 2) && s2[6..8] == Digits(t2.day, 2);
    assert s1[9..11] == Digits(t1.hour, 2) && s2[9..11] == Digits(t2.hour, 2);
    assert s1[11..13] == Digits(t1.minute, 2) && s2[11..13] == Digits(t2.minute, 2);
    assert s1[13..15] == Digits(t1.second, 2) && s2[13..15] == Digits(t2.second, 2);
    ValueOfDigits(t1.year, 4); ValueOfDigits(t2.year, 4);
    ValueOfDigits(t1.month, 2); ValueOfDigits(t2.month, 2);
    ValueOfDigits(t1.day, 2); ValueOfDigits(t2.day, 2);
    ValueOfDigits(t1.hour, 2); ValueOfDigits(t2.hour, 2);
    ValueOfDigits(t1.minute, 2); ValueOfDigits(t2.minute, 2);
    ValueOfDigits(t1.second, 2); ValueOfDigits(t2.second, 2);
  }
}
