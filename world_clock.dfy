/**
 * The market clocks: the table of exchanges, the `HH:MM` to minutes
 * conversion, and the open/closed rule evaluated each minute. The local
 * hour, minute and weekday that the time-zone formatter would produce are
 * inputs.
 */
module WorldClock {
  import opened Outcomes
  import opened JsString

  /** One exchange: its local opening hours and trading weekdays (0 is Sunday). */
  datatype Market = Market(name: string, acronym: string, timezone: string, open: string, close: string, days: seq<int>)

  const Weekdays: seq<int> := [1, 2, 3, 4, 5]

  const Markets: seq<Market> := [
    Market("New York", "NYSE", "America/New_York", "09:30", "16:00", Weekdays),
    Market("London", "LSE", "Europe/London", "08:00", "16:30", Weekdays),
    Market("Tokyo", "TSE", "Asia/Tokyo", "09:00", "15:00", Weekdays),
    Market("Paris", "CAC 40", "Europe/Paris", "09:00", "17:30", Weekdays),
    Market("Hong Kong", "HKEX", "Asia/Hong_Kong", "09:30", "16:00", Weekdays)
  ]

  predicate AllDigits(s: string)
  {
    forall k :: 0 <= k < |s| ==> IsDigit(s[k])
  }

  /**
   * `Number(s)` for the strings a clock field can hold: a digit string is
   * its decimal value, the empty string is 0, anything else is NaN (None).
   */
  function ToNumber(s: string): (r: Option<int>)
    ensures AllDigits(s) ==> r.Some? && r.value >= 0
    ensures s != [] && AllDigits(s) ==> r == Some(DigitsValue(s))
    ensures r.None? <==> !AllDigits(s)
  {
    if s == "" then Some(0)
    else if AllDigits(s) then Some(DigitsValue(s))
    else None
  }

  /** Two decimal digits read as a number, most significant first. */
  lemma TwoDigitValue(s: string)
    requires |s| == 2 && AllDigits(s)
    ensures DigitsValue(s) == 10 * (s[0] as int - '0' as int) + (s[1] as int - '0' as int)
    ensures DigitsValue(s) < 100
  {
    var first := s[..1];
    assert first[..0] == [] && first[0] == s[0];
    assert DigitsValue(first) == s[0] as int - '0' as int;
    assert s[..|s| - 1] == first;
  }

  /**
   * `const [h, m] = hhmm.split(':').map(Number)` then `h * 60 + m`; a
   * missing or non-numeric part makes the result NaN (None).
   */
  function ClockMinutes(hhmm: string): (r: Option<int>)
    ensures r.Some? <==>
      (|Split(hhmm, ':')| >= 2 && ToNumber(Split(hhmm, ':')[0]).Some? && ToNumber(Split(hhmm, ':')[1]).Some?)
    ensures r.Some? ==> r.value == ToNumber(Split(hhmm, ':')[0]).value * 60 + ToNumber(Split(hhmm, ':')[1]).value
  {
    var parts := Split(hhmm, ':');
    if |parts| < 2 then None
    else
      var hour, minute := ToNumber(parts[0]), ToNumber(parts[1]);
      if hour.None? || minute.None? then None else Some(hour.value * 60 + minute.value)
  }

  /** The value of one decimal digit. */
  function DigitValue(c: char): int
  {
    c as int - '0' as int
  }

  /** `HH:MM` with two digits on each side is hour * 60 + minute. */
  lemma ClockOfDigits(hhmm: string)
    requires ClockText(hhmm)
    ensures ClockMinutes(hhmm) == Some(ClockValue(hhmm))
  {
    var hh, mm := hhmm[..2], hhmm[3..];
    assert hhmm == hh + [':'] + mm;
    assert AllDigits(hh) && AllDigits(mm);
    assert ':' !in hh && ':' !in mm;
    SplitFirstPiece(hh, ':', mm);
    SplitNoSeparator(mm, ':');
    assert Split(hhmm, ':') == [hh, mm];
    TwoDigitValue(hh);
    TwoDigitValue(mm);
    assert ToNumber(hh) == Some(DigitsValue(hh));
    assert ToNumber(mm) == Some(DigitsValue(mm));
  }

  /** The rule: a trading day, and `open <= now < close`; NaN on either side compares false. */
  predicate IsOpen(market: Market, day: int, now: Option<int>)
  {
    var open, close := ClockMinutes(market.open), ClockMinutes(market.close);
    && day in market.days
    && now.Some? && open.Some? && close.Some?
    && now.value >= open.value
    && now.value < close.value
  }

  /**
   * For a market whose hours parse, the open minutes of a trading day are
   * exactly the half-open window: the opening minute is open and the closing
   * minute is closed.
   */
  lemma HalfOpenWindow(market: Market, day: int, t: int)
    requires ClockMinutes(market.open).Some? && ClockMinutes(market.close).Some?
    requires ClockMinutes(market.open).value < ClockMinutes(market.close).value
    requires day in market.days
    ensures IsOpen(market, day, Some(ClockMinutes(market.open).value))
    ensures !IsOpen(market, day, Some(ClockMinutes(market.close).value))
    ensures IsOpen(market, day, Some(t))
      <==> ClockMinutes(market.open).value <= t < ClockMinutes(market.close).value
  {
  }

  /** Off the market's days it is closed at every minute, and at NaN it is closed. */
  lemma ClosedOffDays(market: Market, day: int, now: Option<int>)
    requires day !in market.days || now.None?
    ensures !IsOpen(market, day, now)
  {
  }

  /** A clock string of the form `HH:MM`. */
  predicate ClockText(hhmm: string)
  {
    |hhmm| == 5 && hhmm[2] == ':' && IsDigit(hhmm[0]) && IsDigit(hhmm[1]) && IsDigit(hhmm[3]) && IsDigit(hhmm[4])
  }

  /** The minutes an `HH:MM` string stands for. */
  function ClockValue(hhmm: string): int
    requires ClockText(hhmm)
  {
    (10 * DigitValue(hhmm[0]) + DigitValue(hhmm[1])) * 60 + 10 * DigitValue(hhmm[3]) + DigitValue(hhmm[4])
  }

  /**
   * Every listed exchange trades Monday to Friday, its hours are `HH:MM`
   * strings, and its window is non-empty, opens after midnight and closes
   * within the day.
   */
  lemma ListedMarket(i: nat)
    requires i < |Markets|
    ensures Markets[i].days == Weekdays
    ensures ClockText(Markets[i].open) && ClockText(Markets[i].close)
    ensures 0 < ClockValue(Markets[i].open) < ClockValue(Markets[i].close) <= 24 * 60
  {
  }

  /** Hours written as `HH:MM` parse to the minutes they stand for. */
  lemma ParsedHours(market: Market)
    requires ClockText(market.open) && ClockText(market.close)
    ensures ClockMinutes(market.open) == Some(ClockValue(market.open))
    ensures ClockMinutes(market.close) == Some(ClockValue(market.close))
  {
    ClockOfDigits(market.open);
    ClockOfDigits(market.close);
  }

  /** So every listed exchange's hours parse, to those minutes, and open before they close. */
  lemma ListedHours(i: nat)
    requires i < |Markets|
    ensures ClockMinutes(Markets[i].open).Some? && ClockMinutes(Markets[i].close).Some?
    ensures 0 < ClockMinutes(Markets[i].open).value < ClockMinutes(Markets[i].close).value <= 24 * 60
  {
    ListedMarket(i);
    ParsedHours(Markets[i]);
  }

  /** Every listed exchange trades Monday to Friday only: Sunday and Saturday are closed. */
  lemma WeekendClosed(i: nat, now: Option<int>)
    requires i < |Markets|
    ensures !IsOpen(Markets[i], 0, now) && !IsOpen(Markets[i], 6, now)
  {
    var market := Markets[i];
    ListedMarket(i);
    assert 0 !in market.days && 6 !in market.days;
    ClosedOffDays(market, 0, now);
    ClosedOffDays(market, 6, now);
  }

  // ---------------------------------------------------------------------------
  // The formatter's parts and the hook's state

  /** A part of the formatted local time, as `formatToParts` reports it. */
  datatype DatePart = DatePart(kind: string, value: string)

  /** Index `k` holds the first part of that kind. */
  predicate FirstOfKind(parts: seq<DatePart>, kind: string, k: int)
  {
    0 <= k < |parts| && parts[k].kind == kind && forall j :: 0 <= j < k ==> parts[j].kind != kind
  }

  /** `parts.find(p => p.type === kind)?.value`. */
  function FindPart(parts: seq<DatePart>, kind: string): (r: Option<string>)
    ensures r.None? <==> forall k :: 0 <= k < |parts| ==> parts[k].kind != kind
    ensures r.Some? ==> exists k :: FirstOfKind(parts, kind, k) && parts[k].value == r.value
  {
    if parts == [] then None
    else if parts[0].kind == kind then
      assert FirstOfKind(parts, kind, 0);
      Some(parts[0].value)
    else
      var r := FindPart(parts[1..], kind);
      assert r.Some? ==> exists k :: FirstOfKind(parts, kind, k) && parts[k].value == r.value by {
        if r.Some? {
          var k :| FirstOfKind(parts[1..], kind, k) && parts[1..][k].value == r.value;
          assert parts[k + 1] == parts[1..][k];
          assert forall j :: 0 < j < k + 1 ==> parts[j] == parts[1..][j - 1];
          assert FirstOfKind(parts, kind, k + 1);
        }
      }
      r
  }

  /** `getPart`: the found value, or `'00'` when the part is missing or its value is empty. */
  function GetPart(parts: seq<DatePart>, kind: string): (value: string)
    ensures value != ""
    ensures FindPart(parts, kind).Some? && FindPart(parts, kind).value != "" ==> value == FindPart(parts, kind).value
    ensures FindPart(parts, kind).None? || FindPart(parts, kind).value == "" ==> value == "00"
  {
    var found := FindPart(parts, kind);
    if found.Some? && found.value != "" then found.value else "00"
  }

  /** The clock text: hour, a colon, minute. */
  function DisplayTime(parts: seq<DatePart>): string
  {
    GetPart(parts, "hour") + ":" + GetPart(parts, "minute")
  }

  /** `currentHour * 60 + currentMinute`, NaN when either part does not parse. */
  function CurrentMinutes(parts: seq<DatePart>): (now: Option<int>)
    ensures now.Some? <==> ParseInt(GetPart(parts, "hour")).Some? && ParseInt(GetPart(parts, "minute")).Some?
  {
    var hour, minute := ParseInt(GetPart(parts, "hour")), ParseInt(GetPart(parts, "minute"));
    if hour.Some? && minute.Some? then Some(hour.value * 60 + minute.value) else None
  }

  /**
   * When the formatter reports digit strings, the minutes the open flag is
   * computed from are the minutes of the displayed clock text, read the way
   * the exchange hours are read; for two-digit parts that is `HH:MM`.
   */
  lemma CurrentOnClockScale(parts: seq<DatePart>)
    requires GetPart(parts, "hour") != [] && AllDigits(GetPart(parts, "hour"))
    requires GetPart(parts, "minute") != [] && AllDigits(GetPart(parts, "minute"))
    ensures CurrentMinutes(parts).Some?
    ensures CurrentMinutes(parts).value == DigitsValue(GetPart(parts, "hour")) * 60 + DigitsValue(GetPart(parts, "minute"))
    ensures CurrentMinutes(parts) == ClockMinutes(DisplayTime(parts))
    ensures |GetPart(parts, "hour")| == 2 && |GetPart(parts, "minute")| == 2 ==>
      ClockText(DisplayTime(parts)) && CurrentMinutes(parts).value == ClockValue(DisplayTime(parts))
  {
    var hour, minute := GetPart(parts, "hour"), GetPart(parts, "minute");
    var now, clock := CurrentMinutes(parts), ClockMinutes(DisplayTime(parts));
    DigitsClock(hour, minute);
    assert now.Some? && clock.Some? && now.value == clock.value;
    if |hour| == 2 && |minute| == 2 {
      TwoDigitClock(hour, minute);
    }
  }

  /** `parseInt` and `Number` agree on digit strings, and so the clock text reads as its parts. */
  lemma DigitsClock(hour: string, minute: string)
    requires hour != [] && AllDigits(hour) && minute != [] && AllDigits(minute)
    ensures ParseInt(hour) == Some(DigitsValue(hour)) && ParseInt(minute) == Some(DigitsValue(minute))
    ensures ClockMinutes(hour + ":" + minute).Some?
    ensures ClockMinutes(hour + ":" + minute).value == DigitsValue(hour) * 60 + DigitsValue(minute)
  {
    var text := hour + ":" + minute;
    assert text == hour + [':'] + minute;
    assert ':' !in hour && ':' !in minute by {
      assert forall k :: 0 <= k < |hour| ==> IsDigit(hour[k]);
      assert forall k :: 0 <= k < |minute| ==> IsDigit(minute[k]);
    }
    SplitFirstPiece(hour, ':', minute);
    SplitNoSeparator(minute, ':');
    var pieces := Split(text, ':');
    assert pieces == [hour, minute];
    assert |pieces| == 2 && pieces[0] == hour && pieces[1] == minute;
    assert ToNumber(hour) == Some(DigitsValue(hour)) && ToNumber(minute) == Some(DigitsValue(minute));
  }

  /** Two-digit parts make an `HH:MM` clock text. */
  lemma TwoDigitClock(hour: string, minute: string)
    requires |hour| == 2 && AllDigits(hour) && |minute| == 2 && AllDigits(minute)
    ensures ClockText(hour + ":" + minute)
    ensures ClockValue(hour + ":" + minute) == DigitsValue(hour) * 60 + DigitsValue(minute)
  {
    var text := hour + ":" + minute;
    assert text[0] == hour[0] && text[1] == hour[1] && text[2] == ':' && text[3] == minute[0] && text[4] == minute[1];
    TwoDigitValue(hour);
    TwoDigitValue(minute);
  }

  /** A formatter that reports neither part reads as midnight, `00:00`. */
  lemma MissingPartsReadAsMidnight()
    ensures DisplayTime([]) == "00:00"
    ensures CurrentMinutes([]) == Some(0)
  {
    MissingPart("hour");
    MissingPart("minute");
    ZeroZero();
  }

  lemma MissingPart(kind: string)
    ensures GetPart([], kind) == "00"
  {
  }

  lemma ZeroZero()
    ensures ParseInt("00") == Some(0)
  {
    var z := "00";
    assert AllDigits(z);
    TwoDigitValue(z);
  }

  /** No listed exchange is open at local midnight. */
  lemma ClosedAtMidnight(i: nat, day: int)
    requires i < |Markets|
    ensures !IsOpen(Markets[i], day, Some(0))
  {
    var market := Markets[i];
    ListedHours(i);
  }

  /** The per-market hook: the displayed time and the open flag, refreshed each minute. */
  class MarketStatus {
    const market: Market
    var time: string
    var isOpen: bool

    constructor (market: Market)
      ensures this.market == market && time == "" && !isOpen
    {
      this.market := market;
      time, isOpen := "", false;
    }

    /** `updateStatus`: set the clock text, then the open flag for the local time given. */
    method UpdateStatus(parts: seq<DatePart>, day: int)
      modifies this
      ensures time == DisplayTime(parts)
      ensures isOpen == IsOpen(market, day, CurrentMinutes(parts))
    {
      time := GetPart(parts, "hour") + ":" + GetPart(parts, "minute");
      var currentHour := ParseInt(GetPart(parts, "hour"));
      var currentMinute := ParseInt(GetPart(parts, "minute"));
      var now: Option<int> := None;
      if currentHour.Some? && currentMinute.Some? {
        now := Some(currentHour.value * 60 + currentMinute.value);
      }
      isOpen := IsOpen(market, day, now);
    }
  }
}
