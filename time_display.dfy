/** The two clock texts the recording pages show: the elapsed time of a
    recording as `mm:ss` (modules A and B) and the time left of a topic answer
    as `m:ss` (module C). */
module TimeDisplay {
  import opened Text

  lemma StrBelow100(n: nat)
    ensures n < 100 ==> 1 <= |Str(n)| <= 2
    ensures n < 10 <==> |Str(n)| == 1
  {
    if n >= 10 {
      assert Str(n) == Str(n / 10) + [DigitChar(n % 10)];
    }
  }

  /** A seconds field: `s.toString().padStart(2, '0')` for `s < 60`. */
  function SecondsField(s: nat): (p: string)
    requires s < 60
    ensures |p| == 2 && AllDigits(p) && Parse(p) == s
  {
    StrBelow100(s);
    ParsePadStart(Str(s), 2);
    ParseStr(s);
    PadStart(Str(s), 2, '0')
  }

  /** A minutes field padded to at least two digits. */
  function PaddedMinutes(m: nat): (p: string)
    ensures |p| >= 2 && AllDigits(p) && Parse(p) == m
    ensures m < 100 ==> |p| == 2
  {
    StrBelow100(m);
    ParsePadStart(Str(m), 2);
    ParseStr(m);
    PadStart(Str(m), 2, '0')
  }

  /** A minutes field without padding. */
  function PlainMinutes(m: nat): (p: string)
    ensures |p| >= 1 && AllDigits(p) && Parse(p) == m
    ensures m < 10 ==> |p| == 1
  {
    StrBelow100(m);
    ParseStr(m);
    Str(m)
  }

  /** A minutes field and a two-digit seconds field joined by ':'. */
  function Clock(minutes: string, seconds: string): (t: string)
    requires |seconds| == 2
    ensures |t| == |minutes| + 3 && t[|t| - 3] == ':'
  {
    minutes + ":" + seconds
  }

  /** Minutes padded to two digits, ':' and two-digit seconds. */
  function PaddedClock(m: nat, s: nat): (t: string)
    requires s < 60
    ensures |t| >= 5 && t[|t| - 3] == ':'
    ensures m < 100 ==> |t| == 5
  {
    Clock(PaddedMinutes(m), SecondsField(s))
  }

  /** Unpadded minutes, ':' and two-digit seconds. */
  function PlainClock(m: nat, s: nat): (t: string)
    requires s < 60
    ensures |t| >= 4 && t[|t| - 3] == ':'
    ensures m < 10 ==> |t| == 4
  {
    Clock(PlainMinutes(m), SecondsField(s))
  }

  /** The text `updateRecordingTime` writes for `elapsed` whole seconds:
      minutes and seconds, each left-padded with '0' to two digits. */
  function ElapsedText(elapsed: nat): (t: string)
    ensures |t| >= 5 && t[|t| - 3] == ':'
  {
    PaddedClock(elapsed / 60, elapsed % 60)
  }

  /** The text `updateTimerDisplay` writes for `remaining` seconds: minutes
      unpadded, seconds left-padded with '0' to two digits. */
  function RemainingText(remaining: nat): (t: string)
    ensures |t| >= 4 && t[|t| - 3] == ':'
  {
    PlainClock(remaining / 60, remaining % 60)
  }

  /** Reads a clock text back into a number of seconds. */
  function ClockSeconds(t: string): Option<nat>
  {
    match ParsePair(t, ':')
    case Some((m, s)) => if s < 60 then Some(m * 60 + s) else None
    case None => None
  }

  lemma ClockRoundTrip(minutes: string, seconds: string, m: nat, s: nat)
    requires AllDigits(minutes) && minutes != [] && Parse(minutes) == m
    requires |seconds| == 2 && AllDigits(seconds) && Parse(seconds) == s && s < 60
    ensures ClockSeconds(Clock(minutes, seconds)) == Some(m * 60 + s)
  {
    ParseJoined(minutes, ':', seconds);
  }

  lemma SplitSeconds(total: nat, m: nat, s: nat)
    requires m == total / 60 && s == total % 60
    ensures m * 60 + s == total && s < 60
  {
  }

  lemma PaddedClockRoundTrip(m: nat, s: nat)
    requires s < 60
    ensures ClockSeconds(PaddedClock(m, s)) == Some(m * 60 + s)
  {
    ClockRoundTrip(PaddedMinutes(m), SecondsField(s), m, s);
  }

  lemma PlainClockRoundTrip(m: nat, s: nat)
    requires s < 60
    ensures ClockSeconds(PlainClock(m, s)) == Some(m * 60 + s)
  {
    ClockRoundTrip(PlainMinutes(m), SecondsField(s), m, s);
  }

  lemma {:induction false} ElapsedTextRoundTrip(elapsed: nat)
    ensures ClockSeconds(ElapsedText(elapsed)) == Some(elapsed)
  {
    var m, s := elapsed / 60, elapsed % 60;
    PaddedClockRoundTrip(m, s);
    SplitSeconds(elapsed, m, s);
  }

  lemma {:induction false} RemainingTextRoundTrip(remaining: nat)
    ensures ClockSeconds(RemainingText(remaining)) == Some(remaining)
  {
    var m, s := remaining / 60, remaining % 60;
    PlainClockRoundTrip(m, s);
    SplitSeconds(remaining, m, s);
  }

  lemma MinutesBelow(total: nat, m: nat, bound: nat)
    requires m == total / 60 && total < bound * 60
    ensures m < bound
  {
  }

  /** Below 100 minutes the elapsed text is exactly `mm:ss`; below 10
      minutes the remaining-time text is exactly `m:ss`. */
  lemma ClockWidths(total: nat)
    ensures total < 6000 ==> |ElapsedText(total)| == 5
    ensures total < 600 ==> |RemainingText(total)| == 4
  {
    var m := total / 60;
    if total < 6000 {
      MinutesBelow(total, m, 100);
    }
    if total < 600 {
      MinutesBelow(total, m, 10);
    }
  }

  /** Minutes are never padded in the remaining-time text, in contrast with
      the elapsed-time text, which pads them to two digits. */
  lemma {:induction false} RemainingMinutesUnpadded(remaining: nat)
    requires remaining < 600
    ensures RemainingText(remaining)[0] == DigitChar(remaining / 60)
    ensures ElapsedText(remaining)[0] == '0'
  {
    var m, s := remaining / 60, remaining % 60;
    MinutesBelow(remaining, m, 10);
    StrBelow100(m);
    assert Str(m) == [DigitChar(m)];
    assert RemainingText(remaining) == PlainClock(m, s);
    assert PlainClock(m, s)[0] == PlainMinutes(m)[0];
    assert ElapsedText(remaining) == PaddedClock(m, s);
    assert PadStart(['0'] + Str(m), 2, '0') == ['0'] + Str(m);
    assert PaddedMinutes(m) == ['0', DigitChar(m)];
    assert PaddedClock(m, s)[0] == PaddedMinutes(m)[0];
  }
}
