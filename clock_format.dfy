/**
 * `convertMillis`: a playback time in milliseconds shown as `<minutes>:<ss>`.
 * Minutes are whole minutes modulo 60 (an hour reads as `0:00`) and are not
 * padded; seconds are whole seconds modulo 60, always two digits.  An input
 * that `float()` rejects with ValueError yields the fallback `"00:00"`.
 */
module ClockFormat {

  import opened Wrappers
  import opened PyNum

  predicate IsDigit(c: char) {
    '0' <= c <= '9'
  }

  predicate AllDigits(s: string) {
    forall i :: 0 <= i < |s| ==> IsDigit(s[i])
  }

  function DigitChar(d: nat): (c: char)
    requires d < 10
    ensures IsDigit(c) && c as int - '0' as int == d
  {
    "0123456789"[d]
  }

  /** Python's `str(n)` for a non-negative int: decimal digits, no leading zero. */
  function Decimal(n: nat): (s: string)
    ensures |s| >= 1 && AllDigits(s)
    ensures n > 0 ==> s[0] != '0'
    ensures |s| == 1 <==> n < 10
    ensures n < 100 ==> |s| <= 2
  {
    if n < 10 then [DigitChar(n)] else Decimal(n / 10) + [DigitChar(n % 10)]
  }

  /** The number a string of decimal digits denotes (leading zeros allowed). */
  function DigitsValue(s: string): nat
    requires AllDigits(s)
  {
    if s == [] then 0 else DigitsValue(s[..|s| - 1]) * 10 + (s[|s| - 1] as int - '0' as int)
  }

  /** Reading back what `Decimal` wrote gives the number again. */
  lemma {:induction false} DecimalReadsBack(n: nat)
    ensures DigitsValue(Decimal(n)) == n
  {
    if n >= 10 {
      DecimalReadsBack(n / 10);
      var s := Decimal(n);
      assert s[..|s| - 1] == Decimal(n / 10);
    }
  }

  /** Whole seconds within the minute: `int(millis / 1000) % 60`. */
  function SecondsField(millis: real): (s: nat)
    ensures s < 60
  {
    Trunc(millis / 1000.0) % 60
  }

  /** Whole minutes within the hour: `int(millis / (1000 * 60)) % 60`. */
  function MinutesField(millis: real): (m: nat)
    ensures m < 60
  {
    Trunc(millis / 60000.0) % 60
  }

  /** The seconds field: a leading `0` below ten, so always two digits. */
  function TwoDigits(s: nat): (r: string)
    requires s < 60
    ensures |r| == 2 && AllDigits(r) && DigitsValue(r) == s
  {
    DecimalReadsBack(s);
    if s < 10 then
      var r := "0" + Decimal(s);
      assert r[..1] == "0";
      r
    else
      Decimal(s)
  }

  /**
   * convertMillis.  `None` stands for an argument `float()` rejects with
   * ValueError.  The fallback text is produced exactly for such arguments:
   * no number is shown as `"00:00"`, since minutes carry no leading zero.
   */
  function ConvertMillis(millis: Option<real>): (r: string)
    ensures millis.None? <==> r == "00:00"
  {
    match millis
    case None => "00:00"
    case Some(x) =>
      var m := Decimal(MinutesField(x));
      var r := m + ":" + TwoDigits(SecondsField(x));
      assert |m| == 2 ==> r[0] == m[0] && MinutesField(x) > 0;
      r
  }

  /** A clock reading `<minutes>:<seconds>` as two numbers. */
  datatype Clock = Clock(minutes: nat, seconds: nat)

  /**
   * Reads text of the shape `^\d+:\d{2}$` (one or more digits, a colon,
   * exactly two digits); `None` for any other text.
   */
  function ParseClock(t: string): Option<Clock> {
    if |t| >= 4 && t[|t| - 3] == ':' && AllDigits(t[..|t| - 3]) && AllDigits(t[|t| - 2..]) then
      Some(Clock(DigitsValue(t[..|t| - 3]), DigitsValue(t[|t| - 2..])))
    else
      None
  }

  /**
   * Every numeric input is shown as `<m>:<ss>` with the minutes and seconds
   * fields, both below 60, and the fallback reads as `0:00` too: the output
   * always has the clock shape.
   */
  lemma ConvertMillisReadsBack(millis: Option<real>)
    ensures millis.Some? ==>
      ParseClock(ConvertMillis(millis)) == Some(Clock(MinutesField(millis.value), SecondsField(millis.value)))
    ensures millis.None? ==> ParseClock(ConvertMillis(millis)) == Some(Clock(0, 0))
    ensures ParseClock(ConvertMillis(millis)).Some?
    ensures ParseClock(ConvertMillis(millis)).value.minutes < 60
    ensures ParseClock(ConvertMillis(millis)).value.seconds < 60
  {
    match millis
    case None =>
      var t := "00:00";
      assert t[..|t| - 3] == "00" && t[|t| - 2..] == "00";
      assert "00"[..1] == "0" && "0"[..0] == [];
    case Some(x) =>
      var m, s := MinutesField(x), SecondsField(x);
      var t := ConvertMillis(millis);
      DecimalReadsBack(m);
      assert t[..|t| - 3] == Decimal(m);
      assert t[|t| - 2..] == TwoDigits(s);
  }

  /** Adding a whole hour to a non-negative time does not change the text. */
  lemma HourWrapsAround(millis: real)
    requires 0.0 <= millis
    ensures ConvertMillis(Some(millis + 3600000.0)) == ConvertMillis(Some(millis))
  {
    var later := millis + 3600000.0;
    assert later / 60000.0 == millis / 60000.0 + 60 as real;
    TruncShift(millis / 60000.0, 60);
    PeriodMod(Trunc(millis / 60000.0), 1);
    assert MinutesField(later) == MinutesField(millis);
    assert later / 1000.0 == millis / 1000.0 + 3600 as real;
    TruncShift(millis / 1000.0, 3600);
    PeriodMod(Trunc(millis / 1000.0), 60);
    assert SecondsField(later) == SecondsField(millis);
  }

  lemma PeriodMod(a: int, k: nat)
    ensures (a + 60 * k) % 60 == a % 60
  {
  }

  /**
   * The text for a time whose fields are already known: only ConvertMillis's
   * own definition unfolded, used as a rewriting step in the examples below.
   */
  lemma ShownAs(millis: real, m: nat, s: nat)
    requires MinutesField(millis) == m && SecondsField(millis) == s
    ensures ConvertMillis(Some(millis)) == Decimal(m) + ":" + TwoDigits(s)
  {
  }

  /** Ordinary values: minutes unpadded, seconds padded to two digits. */
  lemma ConvertMillisExamples()
    ensures ConvertMillis(Some(0.0)) == "0:00"
    ensures ConvertMillis(Some(65000.0)) == "1:05"
  {
    assert ConvertMillis(Some(0.0)) == "0:00" by {
      assert Trunc(0.0) == 0;
      ShownAs(0.0, 0, 0);
    }
    assert ConvertMillis(Some(65000.0)) == "1:05" by {
      assert Trunc(65.0) == 65 && Trunc(65000.0 / 60000.0) == 1;
      ShownAs(65000.0, 1, 5);
    }
  }

  /** A position of 90 s in a 180 s track. */
  lemma ConvertMillisTrackExamples()
    ensures ConvertMillis(Some(90000.0)) == "1:30"
    ensures ConvertMillis(Some(180000.0)) == "3:00"
  {
    assert ConvertMillis(Some(90000.0)) == "1:30" by {
      assert Trunc(90.0) == 90 && Trunc(90000.0 / 60000.0) == 1;
      ShownAs(90000.0, 1, 30);
    }
    assert ConvertMillis(Some(180000.0)) == "3:00" by {
      assert Trunc(180.0) == 180 && Trunc(3.0) == 3;
      ShownAs(180000.0, 3, 0);
    }
  }

  /** Minutes wrap at 60: one hour reads as `0:00`, 61:40 as `1:40`. */
  lemma ConvertMillisHourExamples()
    ensures ConvertMillis(Some(3600000.0)) == "0:00"
    ensures ConvertMillis(Some(3700000.0)) == "1:40"
  {
    assert ConvertMillis(Some(3600000.0)) == "0:00" by {
      assert Trunc(3600.0) == 3600 && Trunc(60.0) == 60;
      ShownAs(3600000.0, 0, 0);
    }
    assert ConvertMillis(Some(3700000.0)) == "1:40" by {
      assert Trunc(3700.0) == 3700 && Trunc(3700000.0 / 60000.0) == 61;
      ShownAs(3700000.0, 1, 40);
    }
  }

  /**
   * Negative times are not guarded: truncation toward zero turns -1 ms into
   * `0:00`, and floor-modulo turns -65 s into `59:55`.  Unreadable input
   * gives the fallback.
   */
  lemma ConvertMillisEdgeExamples()
    ensures ConvertMillis(Some(-1.0)) == "0:00"
    ensures ConvertMillis(Some(-65000.0)) == "59:55"
    ensures ConvertMillis(None) == "00:00"
  {
    assert ConvertMillis(Some(-1.0)) == "0:00" by {
      assert Trunc(-1.0 / 1000.0) == 0 && Trunc(-1.0 / 60000.0) == 0;
      ShownAs(-1.0, 0, 0);
    }
    assert ConvertMillis(Some(-65000.0)) == "59:55" by {
      assert Trunc(-65.0) == -65 && Trunc(-65000.0 / 60000.0) == -1;
      ShownAs(-65000.0, 59, 55);
    }
  }
}
