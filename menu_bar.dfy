/**
 * The menu-bar item of `MacTornApp`: a countdown label while flying, an
 * SF Symbol otherwise, chosen from the shown error and data.
 */
module MenuBar {
  import opened Wrappers
  import opened Decimal
  import opened TornModels
  import opened TimeFormat

  const Triangle := "exclamationmark.triangle.fill"
  const Globe := "globe"
  const BoltFill := "bolt.fill"
  const Bolt := "bolt"

  /** U+2708 AIRPLANE followed by the emoji variation selector. */
  const Plane := "\U{2708}\U{FE0F}"
  /** U+1F30D EARTH GLOBE EUROPE-AFRICA, the flag of an unknown place. */
  const World := "\U{1F30D}"

  /** What the menu bar shows: text, or an SF Symbol name. */
  datatype Label = TextLabel(text: string) | IconLabel(symbol: string)

  /** The icon, by priority: an error, then being abroad, then a full energy bar. */
  function MenuBarIcon(errorMsg: Option<string>, data: Option<TornResponse>): (icon: string)
    ensures icon == Triangle <==> errorMsg.Some?
    ensures icon == Globe <==>
      errorMsg.None? && data.Some? && data.value.travel.Some? && IsAbroad(data.value.travel.value)
    ensures icon == BoltFill <==>
      && errorMsg.None?
      && !(data.Some? && data.value.travel.Some? && IsAbroad(data.value.travel.value))
      && data.Some? && BarsOf(data.value).Some?
      && BarsOf(data.value).value.energy.current >= BarsOf(data.value).value.energy.maximum
    ensures icon in {Triangle, Globe, BoltFill, Bolt}
  {
    if errorMsg.Some? then Triangle
    else if data.Some? && data.value.travel.Some? && IsAbroad(data.value.travel.value) then Globe
    else if data.Some? && BarsOf(data.value).Some?
         && BarsOf(data.value).value.energy.current >= BarsOf(data.value).value.energy.maximum then BoltFill
    else Bolt
  }

  function LowerChar(c: char): char
  {
    if 'A' <= c <= 'Z' then (c as int - 'A' as int + 'a' as int) as char else c
  }

  /** `lowercased()`, for the letters A to Z. */
  function Lower(s: string): (t: string)
    ensures |t| == |s|
    ensures forall i :: 0 <= i < |s| ==> t[i] == LowerChar(s[i])
  {
    seq(|s|, i requires 0 <= i < |s| => LowerChar(s[i]))
  }

  lemma LowerIdempotent(s: string)
    ensures Lower(Lower(s)) == Lower(s)
  {
    assert forall i :: 0 <= i < |s| ==> LowerChar(LowerChar(s[i])) == LowerChar(s[i]);
  }

  /** The regional indicator symbol for an upper-case Latin letter. */
  function Indicator(c: char): (r: char)
    requires 'A' <= c <= 'Z'
    ensures 0x1F1E6 <= r as int <= 0x1F1FF
  {
    (0x1F1E6 + (c as int - 'A' as int)) as char
  }

  /** The emoji flag of a two-letter region code. */
  function Flag(code: string): (f: string)
    requires |code| == 2 && 'A' <= code[0] <= 'Z' && 'A' <= code[1] <= 'Z'
    ensures |f| == 2 && forall i :: 0 <= i < 2 ==> 0x1F1E6 <= f[i] as int <= 0x1F1FF
  {
    [Indicator(code[0]), Indicator(code[1])]
  }

  /** The places `flagForDestination` knows, in lower case. */
  const Places: set<string> :=
    {"mexico", "cayman islands", "canada", "hawaii", "united kingdom", "argentina",
     "switzerland", "japan", "china", "uae", "south africa", "torn"}

  /** The flag beside the countdown: by the lower-cased destination name, the globe for any other place. */
  function FlagForDestination(destination: string): (flag: string)
    ensures flag == World <==> Lower(destination) !in Places
    ensures flag != World ==> |flag| == 2 && forall i :: 0 <= i < 2 ==> 0x1F1E6 <= flag[i] as int <= 0x1F1FF
  {
    var d := Lower(destination);
    if d == "mexico" then Flag("MX")
    else if d == "cayman islands" then Flag("KY")
    else if d == "canada" then Flag("CA")
    else if d == "hawaii" then Flag("US")
    else if d == "united kingdom" then Flag("GB")
    else if d == "argentina" then Flag("AR")
    else if d == "switzerland" then Flag("CH")
    else if d == "japan" then Flag("JP")
    else if d == "china" then Flag("CN")
    else if d == "uae" then Flag("AE")
    else if d == "south africa" then Flag("ZA")
    else if d == "torn" then Flag("US")
    else World
  }

  /** The lookup ignores case: a destination and its lower-case form get the same flag. */
  lemma FlagIgnoresCase(destination: string)
    ensures FlagForDestination(Lower(destination)) == FlagForDestination(destination)
  {
    LowerIdempotent(destination);
  }

  /** `formatShortTime`: "0:00" for no time left, the clock text otherwise. */
  function FormatShortTime(seconds: int): (r: string)
    ensures 4 <= |r| && IsDigit(r[0])
  {
    if seconds <= 0 then "0:00" else Clock(seconds)
  }

  /**
   * The short countdown is the clock text of the seconds left, clamped at
   * zero: it reads back to that number, shows an hours field exactly when
   * there is a whole hour, and pads every later field to two digits.
   */
  lemma FormatShortTimeReadsBack(seconds: int)
    ensures seconds <= 0 ==> FormatShortTime(seconds) == "0:00"
    ensures FormatShortTime(seconds) == Clock(if seconds <= 0 then 0 else seconds)
    ensures ParseClock(FormatShortTime(seconds)) == Some(if seconds <= 0 then 0 else seconds)
    ensures |SplitColons(FormatShortTime(seconds))| == 3 <==> seconds >= 3600
    ensures forall k :: 1 <= k < |SplitColons(FormatShortTime(seconds))| ==>
      |SplitColons(FormatShortTime(seconds))[k]| == 2
  {
    ClockOfZero();
    ClockRoundTrip(if seconds <= 0 then 0 else seconds);
  }

  /**
   * `MenuBarLabel.body`: the airplane, the destination's flag and the
   * short countdown while flying; the icon otherwise.
   */
  function MenuBarLabel(errorMsg: Option<string>, data: Option<TornResponse>, travelSecondsRemaining: int): (l: Label)
    ensures l.TextLabel? <==> data.Some? && data.value.travel.Some? && IsTraveling(data.value.travel.value)
    ensures l.IconLabel? ==> l.symbol == MenuBarIcon(errorMsg, data)
    ensures l.TextLabel? ==>
      var flag := FlagForDestination(data.value.travel.value.destination);
      && |l.text| >= |Plane| + |flag|
      && l.text[..|Plane|] == Plane
      && l.text[|Plane|..|Plane| + |flag|] == flag
      && ParseClock(l.text[|Plane| + |flag|..])
         == Some(if travelSecondsRemaining <= 0 then 0 else travelSecondsRemaining)
  {
    if data.Some? && data.value.travel.Some? && IsTraveling(data.value.travel.value) then
      var flag := FlagForDestination(data.value.travel.value.destination);
      var time := FormatShortTime(travelSecondsRemaining);
      FormatShortTimeReadsBack(travelSecondsRemaining);
      var text := Plane + flag + time;
      assert text[..|Plane|] == Plane;
      assert text[|Plane|..|Plane| + |flag|] == flag;
      assert text[|Plane| + |flag|..] == time;
      TextLabel(text)
    else
      IconLabel(MenuBarIcon(errorMsg, data))
  }
}
