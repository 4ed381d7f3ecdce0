/** The compact status badges and their countdown text. */
module StatusBadgesView {
  import opened Wrappers
  import opened Decimal
  import opened TimeFormat
  import MenuBar

  /** `StatusBadgesView.formatTime`. */
  function FormatTime(seconds: int): (r: string)
    ensures 4 <= |r| && IsDigit(r[0])
  {
    if seconds <= 0 then "0:00" else Clock(seconds)
  }

  /**
   * "0:00" for no time left; otherwise a clock text that reads back to the
   * seconds, with an hours field exactly when there is a whole hour and
   * later fields two digits wide.
   */
  lemma FormatTimeReadsBack(seconds: int)
    ensures seconds <= 0 ==> FormatTime(seconds) == "0:00"
    ensures ParseClock(FormatTime(seconds)) == Some(if seconds <= 0 then 0 else seconds)
    ensures |SplitColons(FormatTime(seconds))| == 3 <==> seconds >= 3600
    ensures forall k :: 1 <= k < |SplitColons(FormatTime(seconds))| ==> |SplitColons(FormatTime(seconds))[k]| == 2
  {
    ClockOfZero();
    ClockRoundTrip(if seconds <= 0 then 0 else seconds);
  }

  /** The badge countdown and the menu-bar countdown agree on every input. */
  lemma AgreesWithShortTime(seconds: int)
    ensures FormatTime(seconds) == MenuBar.FormatShortTime(seconds)
  {
  }
}
