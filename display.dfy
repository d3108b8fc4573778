/**
 * Values the renderer displays, identical in `App.tsx` and `App.jsx`:
 * `formatTime` (whole minutes and the remaining seconds, each in decimal
 * padded to two digits, joined by a colon) with a reader for such
 * strings, and the data-size label in kilobytes.
 */
module Display {
  import opened Wrappers
  import RecorderCore

  predicate IsDigit(c: char)
  {
    '0' <= c <= '9'
  }

  predicate AllDigits(s: string)
  {
    forall i :: 0 <= i < |s| ==> IsDigit(s[i])
  }

  function DigitChar(d: nat): (c: char)
    requires d < 10
    ensures IsDigit(c)
  {
    "0123456789"[d]
  }

  function DigitValue(c: char): (d: nat)
    requires IsDigit(c)
    ensures d < 10
  {
    (c as int) - ('0' as int)
  }

  /** `n.toString()` for a non-negative integer: its decimal digits,
      without leading zeros. */
  function Decimal(n: nat): (r: string)
    ensures |r| >= 1 && AllDigits(r)
  {
    if n < 10 then [DigitChar(n)] else Decimal(n / 10) + [DigitChar(n % 10)]
  }

  /** The number a string of decimal digits denotes. */
  function DigitsValue(s: string): nat
    requires AllDigits(s)
  {
    if s == [] then 0 else DigitsValue(s[..|s| - 1]) * 10 + DigitValue(s[|s| - 1])
  }

  /** Reading the decimal digits of `n` gives `n` back. */
  lemma {:induction false} DecimalRoundTrip(n: nat)
    ensures DigitsValue(Decimal(n)) == n
  {
    if n >= 10 {
      DecimalRoundTrip(n / 10);
      var s := Decimal(n);
      assert s[..|s| - 1] == Decimal(n / 10);
      assert DigitValue(DigitChar(n % 10)) == n % 10 by {
        assert "0123456789"[n % 10] as int - '0' as int == n % 10;
      }
    } else {
      assert DigitValue(DigitChar(n)) == n by {
        assert "0123456789"[n] as int - '0' as int == n;
      }
    }
  }

  /** One digit below 10, at most two below 100. */
  lemma {:induction false} DecimalLength(n: nat)
    ensures |Decimal(n)| == 1 <==> n < 10
    ensures |Decimal(n)| <= 2 <==> n < 100
  {
    if n >= 10 {
      DecimalLength(n / 10);
    }
  }

  /** A leading zero does not change the value. */
  lemma {:induction false} LeadingZero(s: string)
    requires AllDigits(s)
    ensures AllDigits("0" + s) && DigitsValue("0" + s) == DigitsValue(s)
  {
    var t := "0" + s;
    assert AllDigits(t);
    if s != [] {
      assert t[..|t| - 1] == "0" + s[..|s| - 1];
      LeadingZero(s[..|s| - 1]);
    } else {
      assert t[..|t| - 1] == [];
    }
  }

  /** `s.padStart(2, '0')`. */
  function Pad2(s: string): (r: string)
    ensures |r| == if |s| < 2 then 2 else |s|
  {
    if |s| == 0 then "00" else if |s| == 1 then "0" + s else s
  }

  /** `padStart` puts zeros, and nothing else, in front of the string. */
  lemma Pad2Shape(s: string)
    ensures Pad2(s) == seq(|Pad2(s)| - |s|, _ => '0') + s
  {
  }

  /** Padding a number's digits keeps its value and gives at least two digits. */
  lemma {:induction false} PaddedDecimal(n: nat)
    ensures var p := Pad2(Decimal(n));
      AllDigits(p) && |p| >= 2 && DigitsValue(p) == n
      && (|p| == 2 <==> n < 100)
  {
    DecimalRoundTrip(n);
    DecimalLength(n);
    LeadingZero(Decimal(n));
  }

  /** `formatTime(seconds)`: `mm:ss`, the minutes widening past 99. */
  function FormatTime(seconds: nat): (t: string)
    ensures |t| >= 5 && t[|t| - 3] == ':'
  {
    var ss := Pad2(Decimal(seconds % 60));
    assert |ss| == 2 by { DecimalLength(seconds % 60); }
    Pad2(Decimal(seconds / 60)) + ":" + ss
  }

  /** Reads `m…m:ss` back into a number of seconds. */
  function ParseTime(t: string): Option<nat>
  {
    if |t| >= 4 && t[|t| - 3] == ':' && AllDigits(t[..|t| - 3]) && AllDigits(t[|t| - 2..])
       && DigitsValue(t[|t| - 2..]) < 60
    then Some(DigitsValue(t[..|t| - 3]) * 60 + DigitsValue(t[|t| - 2..]))
    else None
  }

  /** The displayed time determines the elapsed seconds: reading it back
      gives them exactly. */
  lemma {:induction false} FormatTimeRoundTrip(seconds: nat)
    ensures ParseTime(FormatTime(seconds)) == Some(seconds)
  {
    var m, s := seconds / 60, seconds % 60;
    var shown := Pad2(Decimal(m)) + ":" + Pad2(Decimal(s));
    calc {
      ParseTime(FormatTime(seconds));
      ParseTime(shown);
      { ParseClock(m, s); }
      Some(m * 60 + s);
      Some(seconds);
    }
  }

  /** Reading back the display of `m` minutes and `s` seconds. */
  lemma {:induction false} ParseClock(m: nat, s: nat)
    requires s < 60
    ensures ParseTime(Pad2(Decimal(m)) + ":" + Pad2(Decimal(s))) == Some(m * 60 + s)
  {
    PaddedDecimal(m);
    PaddedDecimal(s);
    ParseJoined(Pad2(Decimal(m)), Pad2(Decimal(s)));
  }

  /** Reading back `mm + ":" + ss` for digit strings with a two-digit
      seconds field below 60. */
  lemma {:induction false} ParseJoined(mm: string, ss: string)
    requires AllDigits(mm) && |mm| >= 1 && AllDigits(ss) && |ss| == 2 && DigitsValue(ss) < 60
    ensures ParseTime(mm + ":" + ss) == Some(DigitsValue(mm) * 60 + DigitsValue(ss))
  {
    var t := mm + ":" + ss;
    assert t[..|t| - 3] == mm;
    assert t[|t| - 2..] == ss;
  }

  /** The display is the five characters `mm:ss` exactly below 100 minutes. */
  lemma FormatTimeLength(seconds: nat)
    ensures |FormatTime(seconds)| >= 5
    ensures |FormatTime(seconds)| == 5 <==> seconds < 6000
  {
    PaddedDecimal(seconds / 60);
    PaddedDecimal(seconds % 60);
  }

  /** `Math.round(total / 1024)` for a byte count: the nearest whole number
      of kilobytes, halves rounded up. */
  function Kilobytes(total: nat): (k: nat)
    ensures (k as real) - 0.5 <= (total as real) / 1024.0 < (k as real) + 0.5
  {
    var k := (total + 512) / 1024;
    assert 1024 * k <= total + 512 < 1024 * k + 1024;
    assert (k as real) - 0.5 <= (total as real) / 1024.0 by {
      assert 1024.0 * (k as real) <= (total as real) + 512.0;
    }
    assert (total as real) / 1024.0 < (k as real) + 0.5 by {
      assert (total as real) + 512.0 < 1024.0 * (k as real) + 1024.0;
    }
    k
  }

  /** There is only one such whole number: the label is determined by the
      total size. */
  lemma KilobytesUnique(total: nat, k: nat)
    requires (k as real) - 0.5 <= (total as real) / 1024.0 < (k as real) + 0.5
    ensures k == Kilobytes(total)
  {
    var j := Kilobytes(total);
    assert (k as real) - (j as real) < 1.0 && (j as real) - (k as real) < 1.0;
  }

  /** The data-size label: shown only while the chunk list is non-empty,
      with the rounded number of kilobytes of all chunks together. */
  function SizeLabel(data: seq<RecorderCore.Chunk>): (r: Option<nat>)
    ensures r.None? <==> data == []
  {
    if |data| > 0 then Some(Kilobytes(RecorderCore.TotalSize(data))) else None
  }

  /** The label shows the size of the file the final save would produce. */
  lemma SizeLabelMatchesDownload(data: seq<RecorderCore.Chunk>, path: Option<string>, iso: string)
    requires data != []
    ensures SizeLabel(data) ==
      Some(Kilobytes(|RecorderCore.FinalDownload(data, path, iso).value.content|))
  {
  }
}
