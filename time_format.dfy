/** The player's `mm:ss` time labels: whole minutes and remaining seconds,
    each written in decimal and zero-padded to at least two digits. */
module TimeFormat {

  predicate IsDigit(c: char)
  {
    '0' <= c <= '9'
  }

  predicate AllDigits(s: string)
  {
    forall i :: 0 <= i < |s| ==> IsDigit(s[i])
  }

  function DigitChar(d: nat): (c: char)
    requires d < 10
    ensures IsDigit(c)
  {
    (d + '0' as int) as char
  }

  /** Decimal digits of `n`, without leading zeros. */
  function Digits(n: nat): (r: string)
    ensures 1 <= |r| && AllDigits(r)
    ensures n < 10 <==> |r| == 1
    ensures 10 <= n < 100 ==> |r| == 2
    ensures n >= 10 ==> r[0] != '0'
    decreases n
  {
    if n < 10 then [DigitChar(n)] else Digits(n / 10) + [DigitChar(n % 10)]
  }

  /** The number a string of decimal digits denotes; the inverse of `Digits`. */
  function Value(s: string): nat
    requires AllDigits(s)
    decreases |s|
  {
    if s == [] then 0 else Value(s[..|s| - 1]) * 10 + (s[|s| - 1] as int - '0' as int)
  }

  /** Reading back the digits of `n` gives `n`. */
  lemma {:induction false} ValueOfDigits(n: nat)
    ensures Value(Digits(n)) == n
    decreases n
  {
    if n >= 10 {
      var front := Digits(n / 10);
      var s := front + [DigitChar(n % 10)];
      assert s[..|s| - 1] == front;
      ValueOfDigits(n / 10);
    } else {
      assert [DigitChar(n)][..0] == [];
    }
  }

  /** A leading zero does not change the value. */
  lemma {:induction false} ValueLeadingZero(t: string)
    requires AllDigits(t)
    ensures AllDigits("0" + t) && Value("0" + t) == Value(t)
    decreases |t|
  {
    var s := "0" + t;
    if t == [] {
      assert s[..0] == [];
    } else {
      assert s[..|s| - 1] == "0" + t[..|t| - 1];
      ValueLeadingZero(t[..|t| - 1]);
    }
  }

  /** The `:02d` format: decimal, padded with zeros to at least two digits
      and no further. */
  function Pad2(n: nat): (r: string)
    ensures |r| >= 2 && AllDigits(r)
    ensures n < 100 ==> |r| == 2
    ensures n >= 10 ==> r[0] != '0'
  {
    if n < 10 then "0" + Digits(n) else Digits(n)
  }

  /** Padding keeps the value. */
  lemma Pad2Value(n: nat)
    ensures Value(Pad2(n)) == n
  {
    ValueOfDigits(n);
    if n < 10 {
      ValueLeadingZero(Digits(n));
    }
  }

  /** `format_time` on a whole number of seconds. */
  function FormatTime(seconds: nat): (r: string)
    ensures |r| >= 5 && r[|r| - 3] == ':'
  {
    Pad2(seconds / 60) + ":" + Pad2(seconds % 60)
  }

  /** The label reads back as `seconds`: the digits before the colon are the
      minutes, the two after it the seconds below 60, the label is exactly
      five characters long below 100 minutes, and from 10 minutes on the
      minutes field has no leading zero. */
  lemma FormatTimeReadsBack(seconds: nat)
    ensures var r := FormatTime(seconds);
      |r| >= 5 && r[|r| - 3] == ':' &&
      AllDigits(r[..|r| - 3]) && AllDigits(r[|r| - 2..]) &&
      Value(r[|r| - 2..]) < 60 &&
      Value(r[..|r| - 3]) * 60 + Value(r[|r| - 2..]) == seconds &&
      (seconds < 6000 ==> |r| == 5) &&
      (seconds >= 600 ==> r[0] != '0')
  {
    var minutes, secs := Pad2(seconds / 60), Pad2(seconds % 60);
    var r := FormatTime(seconds);
    assert r[..|r| - 3] == minutes;
    assert r[|r| - 2..] == secs;
    Pad2Value(seconds / 60);
    Pad2Value(seconds % 60);
  }

  /** Three sample labels; from 100 minutes on the minutes field grows. */
  lemma FormatTimeExamples()
    ensures FormatTime(0) == "00:00"
    ensures FormatTime(754) == "12:34"
    ensures FormatTime(6000) == "100:00"
  {
  }
}
