/**
  The elapsed-time text shown while recording (js/screen.js:286-288):
  minutes are `floor(s / 60)` and seconds are `s % 60`, each written in
  decimal and left-padded with '0' to width 2, joined by ':'.
*/
module Timer {

  /** The decimal digit character for `d`. */
  function Digit(d: nat): (c: char)
    requires d < 10
    ensures '0' <= c <= '9' && (c as int) - ('0' as int) == d
  {
    "0123456789"[d]
  }

  predicate IsDigit(c: char) {
    '0' <= c <= '9'
  }

  /** The value of a digit character; 0 for any other character. */
  function DigitValue(c: char): nat {
    if IsDigit(c) then (c as int) - ('0' as int) else 0
  }

  /** `n.toString()` for a non-negative integer. */
  function NatToString(n: nat): (s: string)
    ensures |s| >= 1
    ensures forall i :: 0 <= i < |s| ==> IsDigit(s[i])
    ensures n < 10 <==> |s| == 1
    ensures n < 100 ==> |s| <= 2
    decreases n
  {
    if n < 10 then [Digit(n)] else NatToString(n / 10) + [Digit(n % 10)]
  }

  /** The number a string of decimal digits denotes (most significant first). */
  function ValueOf(s: string): nat {
    if s == [] then 0 else 10 * ValueOf(s[..|s| - 1]) + DigitValue(s[|s| - 1])
  }

  /** `s.padStart(width, fill)`: fill is prepended until the length reaches `width`. */
  function PadStart(s: string, width: nat, fill: char): (r: string)
    ensures |s| >= width ==> r == s
    ensures |s| < width ==> |r| == width
    decreases width - |s|
  {
    if |s| >= width then s else PadStart([fill] + s, width, fill)
  }

  /** Padding only prepends: the result ends with `s` and begins with fill characters. */
  lemma {:induction false} PadStartShape(s: string, width: nat, fill: char)
    ensures var r := PadStart(s, width, fill);
      && |r| >= |s| && r[|r| - |s|..] == s
      && forall i :: 0 <= i < |r| - |s| ==> r[i] == fill
    decreases width - |s|
  {
    if |s| < width {
      PadStartShape([fill] + s, width, fill);
      var r := PadStart(s, width, fill);
      assert r[|r| - |s|..] == r[|r| - |s| - 1..][1..];
    }
  }

  /** Zero-padding a digit string gives a digit string at least as long. */
  lemma PaddedDigits(s: string, width: nat)
    requires forall i :: 0 <= i < |s| ==> IsDigit(s[i])
    ensures var r := PadStart(s, width, '0');
      |r| >= |s| && forall i :: 0 <= i < |r| ==> IsDigit(r[i])
  {
    PadStartShape(s, width, '0');
    var r := PadStart(s, width, '0');
    forall i | |r| - |s| <= i < |r| ensures IsDigit(r[i]) {
      assert r[i] == r[|r| - |s|..][i - (|r| - |s|)];
    }
  }

  /** The text written to the timer element after `seconds` ticks; below
      100 minutes it is exactly five characters, "MM:SS". */
  function Format(seconds: nat): (t: string)
    ensures seconds < 6000 ==> |t| == 5
  {
    PadStart(NatToString(seconds / 60), 2, '0') + ":" + PadStart(NatToString(seconds % 60), 2, '0')
  }

  /** The timer text has at least two minute digits, then ':', then two
      second digits: every character but the ':' is a decimal digit. */
  lemma FormatShape(seconds: nat)
    ensures var t := Format(seconds);
      && |t| >= 5 && t[|t| - 3] == ':'
      && forall i :: 0 <= i < |t| && i != |t| - 3 ==> IsDigit(t[i])
  {
    var mins := NatToString(seconds / 60);
    var secs := NatToString(seconds % 60);
    PaddedDigits(mins, 2);
    PaddedDigits(secs, 2);
    var t := Format(seconds);
    var pm := PadStart(mins, 2, '0');
    assert t == pm + ":" + PadStart(secs, 2, '0');
    forall i | 0 <= i < |t| && i != |t| - 3 ensures IsDigit(t[i]) {
      if i < |pm| {
        assert t[i] == pm[i];
      } else {
        assert t[i] == PadStart(secs, 2, '0')[i - |pm| - 1];
      }
    }
  }

  /** Reads an `M...M:SS` timer text back into a number of seconds. */
  function ParseTimer(text: string): (n: nat)
    requires |text| >= 3
    ensures ValueOf(text[|text| - 2..]) < 60 ==>
      n / 60 == ValueOf(text[..|text| - 3]) && n % 60 == ValueOf(text[|text| - 2..])
  {
    60 * ValueOf(text[..|text| - 3]) + ValueOf(text[|text| - 2..])
  }

  lemma {:induction false} ValueOfNatToString(n: nat)
    ensures ValueOf(NatToString(n)) == n
    decreases n
  {
    if n >= 10 {
      var s := NatToString(n);
      assert s[..|s| - 1] == NatToString(n / 10);
      ValueOfNatToString(n / 10);
    }
  }

  /** A leading '0' does not change the value of a digit string. */
  lemma {:induction false} ValueOfLeadingZero(s: string)
    ensures ValueOf(['0'] + s) == ValueOf(s)
    decreases |s|
  {
    if s != [] {
      var t := ['0'] + s;
      assert t[..|t| - 1] == ['0'] + s[..|s| - 1];
      assert t[|t| - 1] == s[|s| - 1];
      ValueOfLeadingZero(s[..|s| - 1]);
    } else {
      assert ['0'][..0] == [];
    }
  }

  /** Left-padding with '0' does not change the value of a digit string. */
  lemma {:induction false} ValueOfPadded(s: string, width: nat)
    ensures ValueOf(PadStart(s, width, '0')) == ValueOf(s)
    decreases width - |s|
  {
    if |s| < width {
      ValueOfPadded(['0'] + s, width);
      ValueOfLeadingZero(s);
    }
  }

  /** A part below 100 is written with exactly two characters and keeps its value. */
  lemma TwoDigitPart(n: nat)
    requires n < 100
    ensures |PadStart(NatToString(n), 2, '0')| == 2
    ensures ValueOf(PadStart(NatToString(n), 2, '0')) == n
  {
    ValueOfPadded(NatToString(n), 2);
    ValueOfNatToString(n);
  }

  /** Reading the timer text back gives the elapsed seconds. */
  lemma FormatRoundTrip(seconds: nat)
    ensures ParseTimer(Format(seconds)) == seconds
  {
    var m, r := seconds / 60, seconds % 60;
    var mins := PadStart(NatToString(m), 2, '0');
    var secs := PadStart(NatToString(r), 2, '0');
    TwoDigitPart(r);
    ValueOfPadded(NatToString(m), 2);
    ValueOfNatToString(m);
    ParseJoined(mins, secs);
    assert Format(seconds) == mins + ":" + secs;
    assert 60 * m + r == seconds;
  }

  /** The text "<mins>:<secs>" reads back as `mins` minutes and `secs` seconds. */
  lemma ParseJoined(mins: string, secs: string)
    requires |mins| >= 2 && |secs| == 2
    ensures ParseTimer(mins + ":" + secs) == 60 * ValueOf(mins) + ValueOf(secs)
  {
    var t := mins + ":" + secs;
    assert t[..|t| - 3] == mins && t[|t| - 2..] == secs;
    assert ParseTimer(t) == 60 * ValueOf(t[..|t| - 3]) + ValueOf(t[|t| - 2..]);
  }

  /** No two counts show the same text. */
  lemma FormatInjective(a: nat, b: nat)
    requires Format(a) == Format(b)
    ensures a == b
  {
    FormatRoundTrip(a);
    FormatRoundTrip(b);
  }

  /** The text written when a recording starts is the text of zero elapsed seconds. */
  lemma FormatZero()
    ensures Format(0) == "00:00"
  {
    assert NatToString(0) == "0";
    assert PadStart("0", 2, '0') == "00";
  }
}
