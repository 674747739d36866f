/**
 * The pure helpers of the InkHUD applet base class: signal-strength rating,
 * human-readable time, node-id formatting, the standard header's height
 * and the offsets used to draw thick text. The clock reading is a
 * parameter.
 */
module AppletHelpers {
  import opened Common

  // ---------------------------------------------------------------------
  // Signal strength
  // ---------------------------------------------------------------------

  datatype SignalStrength = SignalNone | SignalBad | SignalFair | SignalGood

  /** The rating as a rank, weakest first. */
  function Rank(s: SignalStrength): nat
  {
    match s
    case SignalNone => 0
    case SignalBad => 1
    case SignalFair => 2
    case SignalGood => 3
  }

  function SnrScore(snr: real): (r: nat)
    ensures r <= 2
  {
    if snr > -17.5 then 2 else if snr > -26.0 then 1 else 0
  }

  function RssiScore(rssi: real): (r: nat)
    ensures r <= 3
  {
    if rssi > -115.0 then 3 else if rssi > -120.0 then 2 else if rssi > -126.0 then 1 else 0
  }

  /**
   * getSignalStrength: the two scores are added and the sum rated. Stated
   * directly in terms of the two readings.
   */
  function GetSignalStrength(snr: real, rssi: real): (r: SignalStrength)
    ensures r == SignalGood <==> snr > -17.5 && rssi > -115.0
    ensures r == SignalFair <==>
      || (snr > -17.5 && -120.0 < rssi <= -115.0)
      || (-26.0 < snr <= -17.5 && rssi > -115.0)
    ensures r == SignalNone <==> snr <= -26.0 && rssi <= -126.0
  {
    var score := SnrScore(snr) + RssiScore(rssi);
    if score >= 5 then SignalGood
    else if score >= 4 then SignalFair
    else if score > 0 then SignalBad
    else SignalNone
  }

  /** A better reading of either kind never gives a worse rating. */
  lemma SignalStrengthMonotone(snr1: real, rssi1: real, snr2: real, rssi2: real)
    requires snr1 <= snr2 && rssi1 <= rssi2
    ensures Rank(GetSignalStrength(snr1, rssi1)) <= Rank(GetSignalStrength(snr2, rssi2))
  {
    assert SnrScore(snr1) <= SnrScore(snr2);
    assert RssiScore(rssi1) <= RssiScore(rssi2);
  }

  // ---------------------------------------------------------------------
  // Time strings
  // ---------------------------------------------------------------------

  const SecPerMin: nat := 60
  const SecPerHour: nat := 3600
  const SecPerDay: nat := 86400

  /** The epoch used when the build defines none: 1 October 2024, 00:00 GMT. */
  const DefaultBuildEpoch: u32 := 1727740800

  /** Clock readings before this are taken as unset: six 30-day months before the build. */
  function ValidAfterEpoch(buildEpoch: u32): (r: u32)
    ensures buildEpoch as int >= SecPerDay * 30 * 6 ==> r as int == buildEpoch as int - SecPerDay * 180
  {
    Sub32(buildEpoch, (SecPerDay * 30 * 6) as u32)
  }

  /** `%02u` for a value below 100. */
  function TwoDigits(n: nat): (r: string)
    requires n < 100
    ensures |r| == 2 && forall i :: 0 <= i < 2 ==> '0' <= r[i] <= '9'
    ensures DigitsValue(r) == n
  {
    var r := [DecimalDigit(n / 10), DecimalDigit(n % 10)];
    assert r[..1] == [DecimalDigit(n / 10)] && r[..1][..0] == [];
    assert DigitsValue(r[..1]) == n / 10;
    r
  }

  /** The hour on a 12-hour dial: 0 and 12 show as 12. */
  function Hour12(hour: nat): (r: nat)
    ensures 1 <= r <= 12 && r % 12 == hour % 12
  {
    if hour % 12 == 0 then 12 else hour % 12
  }

  /** "h:MM AM" / "h:MM PM" for an hour of the day and a minute. */
  function ClockText(hour: nat, min: nat): string
    requires min < 100
  {
    NatToString(Hour12(hour)) + ":" + TwoDigits(min) + " " + (if hour > 11 then "PM" else "AM")
  }

  /** The clock string for the time of day of `epochSeconds`. */
  function ClockString(epochSeconds: u32): (r: string)
  {
    var hms := (epochSeconds as int % SecPerDay + SecPerDay) % SecPerDay;
    ClockText(hms / SecPerHour, (hms % SecPerHour) / SecPerMin)
  }

  /** Reading a clock text back gives the 12-hour hour, the minute and the half of the day. */
  lemma ClockTextFields(hour: nat, min: nat)
    requires min < 100
    ensures var r := ClockText(hour, min);
      var h := NatToString(Hour12(hour));
      && |r| == |h| + 6 && r[..|h|] == h && r[|h|] == ':'
      && DigitsValue(h) == Hour12(hour)
      && DigitsValue(r[|h| + 1..|h| + 3]) == min
      && r[|h| + 3..] == (if hour > 11 then " PM" else " AM")
  {
    var h := NatToString(Hour12(hour));
    var m := TwoDigits(min);
    var ap := if hour > 11 then "PM" else "AM";
    var r := h + ":" + m + " " + ap;
    assert r[..|h|] == h;
    assert |r| == |h| + 6;
    assert forall i :: 0 <= i < 2 ==> r[|h| + 1..|h| + 3][i] == r[|h| + 1 + i] == m[i];
    assert r[|h| + 1..|h| + 3] == m;
    assert forall i :: 0 <= i < 3 ==> r[|h| + 3..][i] == r[|h| + 3 + i] == (" " + ap)[i];
    assert r[|h| + 3..] == " " + ap;
    DigitsValueOfNat(Hour12(hour));
  }

  /** The clock string shows the hour and minute of the UTC day, in the afternoon after 12:00. */
  lemma ClockStringOfDay(epochSeconds: u32)
    ensures var hms := epochSeconds as int % SecPerDay;
      && hms / SecPerHour < 24 && (hms % SecPerHour) / SecPerMin < 60
      && (hms / SecPerHour > 11 <==> hms >= 12 * SecPerHour)
      && ClockString(epochSeconds) == ClockText(hms / SecPerHour, (hms % SecPerHour) / SecPerMin)
  {
    var hms := epochSeconds as int % SecPerDay;
    assert (hms + SecPerDay) % SecPerDay == hms;
  }

  /**
   * getTimeString as written: the difference `epochNow - epochSeconds` is
   * taken in `uint32_t`, so it is never negative.
   */
  function GetTimeString(epochSeconds: u32, epochNow: u32, validAfter: u32): (r: string)
  {
    var diff := Sub32(epochNow, epochSeconds) as int;
    var daysAgo := diff / SecPerDay;
    var hoursAgo := diff / SecPerHour;
    if epochNow <= validAfter then ""
    else if daysAgo < -2 then ""
    else if daysAgo > 6 * 30 then ""
    else if daysAgo > 1 then NatToString(daysAgo) + " days ago"
    else if hoursAgo > 18 then "Yesterday"
    else ClockString(epochSeconds)
  }

  /** The four outcomes for a timestamp that is not in the future, by its age. */
  lemma TimeStringOfPast(epochSeconds: u32, epochNow: u32, validAfter: u32)
    requires epochNow > validAfter && epochSeconds <= epochNow
    ensures var age := epochNow as int - epochSeconds as int;
      var r := GetTimeString(epochSeconds, epochNow, validAfter);
      && (age >= 181 * SecPerDay ==> r == "")
      && (2 * SecPerDay <= age < 181 * SecPerDay ==> r == NatToString(age / SecPerDay) + " days ago")
      && (19 * SecPerHour <= age < 2 * SecPerDay ==> r == "Yesterday")
      && (age < 19 * SecPerHour ==> r == ClockString(epochSeconds))
  {
  }

  /** An unset clock gives no string at all. */
  lemma TimeStringNeedsClock(epochSeconds: u32, epochNow: u32, validAfter: u32)
    requires epochNow <= validAfter
    ensures GetTimeString(epochSeconds, epochNow, validAfter) == ""
  {
  }

  /**
   * The "in the future" guard cannot fire: a timestamp ahead of the clock
   * by any amount up to 2^32 - 181 days wraps to a huge age and is dropped,
   * even one only a second ahead.
   */
  lemma FutureTimestampBlank(epochSeconds: u32, epochNow: u32, validAfter: u32)
    requires epochNow > validAfter && epochSeconds > epochNow
    requires epochSeconds as int - epochNow as int <= TwoTo32 - 181 * SecPerDay
    ensures GetTimeString(epochSeconds, epochNow, validAfter) == ""
  {
  }

  /** C++ integer division, which truncates toward zero. */
  function TruncDiv(a: int, b: nat): (q: int)
    requires b > 0
    ensures a >= 0 ==> q == a / b
    ensures a < 0 ==> q == -((-a) / b)
  {
    if a >= 0 then a / b else -((-a) / b)
  }

  /** `(int32_t)` of a value taken modulo 2^32. */
  function ToInt32(v: int): (r: int)
    ensures -0x8000_0000 <= r < 0x8000_0000
    ensures -0x8000_0000 <= v < 0x8000_0000 ==> r == v
  {
    (v + 0x8000_0000) % TwoTo32 - 0x8000_0000
  }

  /**
   * getTimeString with the difference taken as a signed 32-bit value, as
   * the `daysAgo < -2` guard intends: a timestamp up to two days ahead of
   * the clock is shown, one further ahead is dropped.
   */
  function GetTimeStringSigned(epochSeconds: u32, epochNow: u32, validAfter: u32): (r: string)
  {
    var diff := ToInt32(epochNow as int - epochSeconds as int);
    var daysAgo := TruncDiv(diff, SecPerDay);
    var hoursAgo := TruncDiv(diff, SecPerHour);
    if epochNow <= validAfter then ""
    else if daysAgo < -2 then ""
    else if daysAgo > 6 * 30 then ""
    else if daysAgo > 1 then NatToString(daysAgo) + " days ago"
    else if hoursAgo > 18 then "Yesterday"
    else ClockString(epochSeconds)
  }

  /** The corrected version shows the time of a timestamp less than three days ahead of the clock. */
  lemma SignedShowsNearFuture(epochSeconds: u32, epochNow: u32, validAfter: u32)
    requires epochNow > validAfter && epochSeconds > epochNow
    requires epochSeconds as int - epochNow as int < 3 * SecPerDay
    ensures GetTimeStringSigned(epochSeconds, epochNow, validAfter) == ClockString(epochSeconds)
  {
  }

  /** ... drops one at least three days ahead (up to 2^31 seconds) ... */
  lemma SignedDropsFarFuture(epochSeconds: u32, epochNow: u32, validAfter: u32)
    requires epochSeconds > epochNow
    requires 3 * SecPerDay <= epochSeconds as int - epochNow as int <= 0x8000_0000
    ensures GetTimeStringSigned(epochSeconds, epochNow, validAfter) == ""
  {
  }

  /** ... and agrees with the original for every timestamp less than 2^31 seconds in the past. */
  lemma SignedAgreesOnPast(epochSeconds: u32, epochNow: u32, validAfter: u32)
    requires epochSeconds <= epochNow && epochNow as int - epochSeconds as int < 0x8000_0000
    ensures GetTimeStringSigned(epochSeconds, epochNow, validAfter) == GetTimeString(epochSeconds, epochNow, validAfter)
  {
  }

  // ---------------------------------------------------------------------
  // Node ids
  // ---------------------------------------------------------------------

  predicate IsHexDigit(c: char) { '0' <= c <= '9' || 'a' <= c <= 'f' }

  function HexDigit(d: nat): (c: char)
    requires d < 16
    ensures IsHexDigit(c) && HexDigitValue(c) == d
  {
    if d < 10 then ('0' as int + d) as char else ('a' as int + d - 10) as char
  }

  function HexDigitValue(c: char): nat
    requires IsHexDigit(c)
  {
    if c <= '9' then c as int - '0' as int else c as int - 'a' as int + 10
  }

  /** `%x`: lower-case hex digits, no padding. */
  function Hex(n: nat): (r: string)
    ensures |r| >= 1
    ensures forall i :: 0 <= i < |r| ==> IsHexDigit(r[i])
    ensures n >= 16 ==> r[0] != '0'
  {
    if n < 16 then [HexDigit(n)] else Hex(n / 16) + [HexDigit(n % 16)]
  }

  function HexValue(s: string): nat
    requires forall i :: 0 <= i < |s| ==> IsHexDigit(s[i])
  {
    if s == [] then 0 else HexValue(s[..|s| - 1]) * 16 + HexDigitValue(s[|s| - 1])
  }

  lemma {:induction false} HexRoundTrip(n: nat)
    ensures HexValue(Hex(n)) == n
  {
    if n >= 16 {
      var s := Hex(n);
      assert s[..|s| - 1] == Hex(n / 16);
      HexRoundTrip(n / 16);
    }
  }

  lemma {:induction false} HexLength(n: nat, k: nat)
    requires k >= 1 && n < Pow16(k)
    ensures |Hex(n)| <= k
  {
    if n >= 16 {
      HexLength(n / 16, k - 1);
    }
  }

  function Pow16(k: nat): (r: nat)
    ensures r >= 1
  {
    if k == 0 then 1 else 16 * Pow16(k - 1)
  }

  /**
   * hexifyNodeNum: "!" then the node number in lower-case hex without
   * padding; it fits the ten-byte buffer with its terminator, and the hex
   * reads back as the number.
   */
  function HexifyNodeNum(num: u32): (r: string)
    ensures 2 <= |r| <= 9 && r[0] == '!'
    ensures forall i :: 1 <= i < |r| ==> IsHexDigit(r[i])
    ensures HexValue(r[1..]) == num as int
    ensures num >= 16 ==> r[1] != '0'
    ensures num < 16 ==> |r| == 2
  {
    assert Pow16(8) == TwoTo32;
    HexLength(num as nat, 8);
    HexRoundTrip(num as nat);
    var r := "!" + Hex(num as nat);
    assert r[1..] == Hex(num as nat);
    r
  }

  // ---------------------------------------------------------------------
  // Header height and thick text
  // ---------------------------------------------------------------------

  /** The divider row of the standard header: two pixels of padding above and below the small font's line. */
  function HeaderDividerY(lineHeight: u8): int
  {
    2 + lineHeight as int + 2 - 1
  }

  /** getHeaderHeight: one more than the divider row, so the header covers the divider. */
  function HeaderHeight(lineHeight: u8): (r: nat)
    ensures r == lineHeight as int + 4
    ensures r == HeaderDividerY(lineHeight) + 1
  {
    HeaderDividerY(lineHeight) + 1
  }

  /**
   * printThick's range of offsets along one axis: thickness 1 prints at the
   * centre, 2 at the centre and one past it, more at half the thickness
   * either side. Coordinates are `int16_t`.
   */
  function ThickRange(center: int, thickness: u8): (r: (int, int))
    requires IsInt16(center) && thickness >= 1
    ensures IsInt16(r.0) && IsInt16(r.1)
  {
    if thickness == 1 then (center, center)
    else if thickness == 2 then (center, Wrap16(center + 1))
    else (Wrap16(center - thickness as int / 2), Wrap16(center + thickness as int / 2))
  }

  /**
   * Away from the edges of the int16 range the text is printed
   * `thickness` times along the axis, or one time more for an even
   * thickness above 2, always including the centre.
   */
  lemma ThickRangeCopies(center: int, thickness: u8)
    requires thickness >= 1
    requires -0x8000 + 0x80 <= center < 0x8000 - 0x80
    ensures var r := ThickRange(center, thickness);
      && r.0 <= center <= r.1
      && r.1 - r.0 + 1 == (if thickness <= 2 || thickness % 2 == 1 then thickness as int else thickness as int + 1)
  {
  }
}
