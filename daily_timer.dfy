/**
  `DailyLeaderboardTimer`: the countdown to the next UTC midnight shown
  while the daily leaderboard is open. The current time is an input, as a
  `DateTime` tick count; whether the countdown text object exists (in the
  inspector, or found by its tag in `Start`) is a field.
 */
module DailyTimer {
  import opened Wrappers
  import opened Numbers
  import opened Clock

  const LABEL := "Daily Reset In: "

  /** `now.Date.AddDays(1) - now` in ticks; adding the day raises on the
      last day `DateTime` can represent. */
  function Remaining(now: int): (r: Result<int>)
    requires IsDateTime(now)
    ensures r.Thrown? <==> Date(now) + TICKS_PER_DAY > MAX_TICKS
    ensures r.Ok? ==> 0 < r.value <= TICKS_PER_DAY && r.value == Date(now) + TICKS_PER_DAY - now
    ensures r.Ok? ==> (now + r.value) % TICKS_PER_DAY == 0
  {
    match AddOneDay(Date(now))
    case Thrown => Thrown
    case Ok(tomorrow) => Ok(tomorrow - now)
  }

  /** The three numbers shown: `(int)TotalHours`, `Minutes`, `Seconds`. */
  datatype Countdown = Countdown(hours: nat, minutes: nat, seconds: nat)

  function CountdownOf(remaining: int): (c: Countdown)
    requires 0 < remaining <= TICKS_PER_DAY
    ensures c.hours <= 24 && c.minutes < 60 && c.seconds < 60
    ensures c.hours * 3600 + c.minutes * 60 + c.seconds == remaining / TICKS_PER_SECOND
    ensures c.hours == 24 <==> remaining == TICKS_PER_DAY
  {
    var totalSeconds := remaining / TICKS_PER_SECOND;
    assert remaining / TICKS_PER_MINUTE == totalSeconds / 60;
    assert remaining / TICKS_PER_HOUR == totalSeconds / 3600;
    Countdown(remaining / TICKS_PER_HOUR, (remaining / TICKS_PER_MINUTE) % 60, totalSeconds % 60)
  }

  /** The `D2` format: at least two digits, zero-padded. */
  function Pad2(n: nat): (s: string)
    ensures AllDigits(s) && |s| >= 2 && DigitsValue(s) == n
    ensures n < 100 ==> |s| == 2
    ensures n >= 10 ==> s == NatToString(n)
  {
    DigitsValueOfNatToString(n);
    if n < 10 then
      LeadingZero(NatToString(n));
      "0" + NatToString(n)
    else
      NatToString(n)
  }

  /** A leading zero does not change the value of a digit string. */
  lemma {:induction false} LeadingZero(s: string)
    requires AllDigits(s)
    ensures AllDigits("0" + s) && DigitsValue("0" + s) == DigitsValue(s)
  {
    if s != [] {
      var t := "0" + s;
      assert t[..|t| - 1] == "0" + s[..|s| - 1];
      LeadingZero(s[..|s| - 1]);
    }
  }

  function CountdownText(c: Countdown): string
  {
    LABEL + Pad2(c.hours) + ":" + Pad2(c.minutes) + ":" + Pad2(c.seconds)
  }

  /** The text `UpdateCountdown` writes at time `now`. */
  function UpdateCountdownText(now: int): Result<string>
    requires IsDateTime(now)
  {
    match Remaining(now)
    case Thrown => Thrown
    case Ok(r) => Ok(CountdownText(CountdownOf(r)))
  }

  /** The text is the label and exactly two digits for each of hours,
      minutes and seconds, joined by ':'; reading them back yields the
      whole seconds left until midnight. */
  lemma CountdownTextRoundTrip(now: int)
    requires IsDateTime(now) && UpdateCountdownText(now).Ok?
    ensures var t := UpdateCountdownText(now).value;
      |t| == |LABEL| + 8 && t[..|LABEL|] == LABEL && t[|LABEL| + 2] == ':' && t[|LABEL| + 5] == ':'
      && AllDigits(t[|LABEL|..|LABEL| + 2]) && AllDigits(t[|LABEL| + 3..|LABEL| + 5]) && AllDigits(t[|LABEL| + 6..])
      && DigitsValue(t[|LABEL|..|LABEL| + 2]) * 3600 + DigitsValue(t[|LABEL| + 3..|LABEL| + 5]) * 60
         + DigitsValue(t[|LABEL| + 6..]) == Remaining(now).value / TICKS_PER_SECOND
  {
    var c := CountdownOf(Remaining(now).value);
    var h, m, s := Pad2(c.hours), Pad2(c.minutes), Pad2(c.seconds);
    assert LABEL + h + ":" + m + ":" + s == UpdateCountdownText(now).value;
    TextLayout(h, m, s);
  }

  /** Where the three two-character fields sit in the countdown text. */
  lemma TextLayout(h: string, m: string, s: string)
    requires |h| == 2 && |m| == 2 && |s| == 2
    ensures var t := LABEL + h + ":" + m + ":" + s; var k := |LABEL|;
      |t| == k + 8 && t[..k] == LABEL && t[k + 2] == ':' && t[k + 5] == ':'
      && t[k..k + 2] == h && t[k + 3..k + 5] == m && t[k + 6..] == s
  {
    var t := LABEL + h + ":" + m + ":" + s;
    var k := |LABEL|;
    assert t == LABEL + (h + ":" + m + ":" + s);
    assert t[k..] == h + ":" + m + ":" + s;
  }

  /** At exact midnight the whole day is left: "24:00:00". */
  lemma MidnightShowsFullDay(now: int)
    requires IsDateTime(now) && now % TICKS_PER_DAY == 0 && now + TICKS_PER_DAY <= MAX_TICKS
    ensures Remaining(now) == Ok(TICKS_PER_DAY) && CountdownOf(TICKS_PER_DAY) == Countdown(24, 0, 0)
  {
  }

  class DailyLeaderboardTimer {
    var textAssigned: bool
    var textActive: bool
    var text: string
    var isCountingDown: bool

    constructor(textAssigned: bool)
      ensures this.textAssigned == textAssigned && !isCountingDown
    {
      this.textAssigned := textAssigned;
      textActive := true;
      text := "";
      isCountingDown := false;
    }

    /** `Start`: the text is looked up by its tag when unassigned, then
        hidden. */
    method Start(foundByTag: bool)
      modifies this`textAssigned, this`textActive
      ensures textAssigned == (old(textAssigned) || foundByTag)
      ensures textAssigned ==> !textActive
      ensures !textAssigned ==> textActive == old(textActive)
      ensures isCountingDown == old(isCountingDown) && text == old(text)
    {
      if !textAssigned && foundByTag {
        textAssigned := true;
      }
      if textAssigned {
        textActive := false;
      }
    }

    /** `UpdateCountdown`; `raised` when the date arithmetic overflows. */
    method UpdateCountdown(now: int) returns (raised: bool)
      requires IsDateTime(now)
      modifies this`text
      ensures raised <==> textAssigned && UpdateCountdownText(now).Thrown?
      ensures textAssigned && !raised ==> text == UpdateCountdownText(now).value
      ensures !(textAssigned && !raised) ==> text == old(text)
      ensures textAssigned == old(textAssigned) && textActive == old(textActive)
      ensures isCountingDown == old(isCountingDown)
    {
      if !textAssigned {
        return false;
      }
      var now0 := now;
      var midnight := now0 - now0 % TICKS_PER_DAY;
      if midnight + TICKS_PER_DAY > MAX_TICKS {
        return true;
      }
      var remaining := midnight + TICKS_PER_DAY - now0;
      var hours := remaining / TICKS_PER_HOUR;
      var minutes := (remaining / TICKS_PER_MINUTE) % 60;
      var seconds := (remaining / TICKS_PER_SECOND) % 60;
      text := LABEL + Pad2(hours) + ":" + Pad2(minutes) + ":" + Pad2(seconds);
      assert text == UpdateCountdownText(now).value;
      return false;
    }

    /** `StartDailyCountdown`: nothing without the text; otherwise counting
        starts, the text is shown and refreshed at once. */
    method StartDailyCountdown(now: int) returns (raised: bool)
      requires IsDateTime(now)
      modifies this`isCountingDown, this`textActive, this`text
      ensures !textAssigned ==> !raised && isCountingDown == old(isCountingDown) && textActive == old(textActive) && text == old(text)
      ensures textAssigned ==> (isCountingDown && textActive
        && (raised <==> UpdateCountdownText(now).Thrown?)
        && (!raised ==> text == UpdateCountdownText(now).value))
      ensures raised ==> text == old(text)
      ensures textAssigned == old(textAssigned)
    {
      if !textAssigned {
        return false;
      }
      isCountingDown := true;
      textActive := true;
      raised := UpdateCountdown(now);
    }

    /** `StopDailyCountdown`: counting stops and the text is hidden. */
    method StopDailyCountdown()
      modifies this`isCountingDown, this`textActive
      ensures !isCountingDown && text == old(text) && textAssigned == old(textAssigned)
      ensures textAssigned ==> !textActive
      ensures !textAssigned ==> textActive == old(textActive)
    {
      isCountingDown := false;
      if textAssigned {
        textActive := false;
      }
    }

    /** `Update`: the text is refreshed only while counting. */
    method Update(now: int) returns (raised: bool)
      requires IsDateTime(now)
      modifies this`text
      ensures !isCountingDown ==> !raised && text == old(text)
      ensures raised <==> isCountingDown && textAssigned && UpdateCountdownText(now).Thrown?
      ensures isCountingDown && textAssigned && !raised ==> text == UpdateCountdownText(now).value
      ensures !(isCountingDown && textAssigned && !raised) ==> text == old(text)
      ensures isCountingDown == old(isCountingDown) && textActive == old(textActive) && textAssigned == old(textAssigned)
    {
      raised := false;
      if isCountingDown {
        raised := UpdateCountdown(now);
      }
    }
  }
}
