/**
 * The faction chain panel: a countdown coloured by how close the chain is
 * to timing out, or a cooldown notice.
 */
module ChainView {
  import opened Wrappers
  import opened Decimal
  import opened SwiftInt
  import opened TimeFormat
  import opened Palette

  /** `timeoutColor`: red under a minute, orange under three, green otherwise. */
  function TimeoutColor(timeoutRemaining: int): (c: Color)
    ensures c == Red <==> timeoutRemaining < 60
    ensures c == Orange <==> 60 <= timeoutRemaining < 180
    ensures c == Green <==> timeoutRemaining >= 180
  {
    if timeoutRemaining < 60 then Red
    else if timeoutRemaining < 180 then Orange
    else Green
  }

  /** `formatTime`: "%d:%02d" of Swift's truncating `seconds / 60` and `seconds % 60`. */
  function FormatTime(seconds: int): (r: string)
    ensures 4 <= |r|
    ensures seconds >= 0 ==> IsDigit(r[0])
  {
    MinSec(Quot(seconds, 60), Rem(seconds, 60))
  }

  /**
   * For a non-negative value the minutes field is the whole number of
   * minutes, however large, and the text reads back to the value (0 gives
   * "0:00"); a negative value gives a text with a minus sign that does not
   * read back at all.
   */
  lemma FormatTimeReadsBack(seconds: int)
    ensures ParseClock(FormatTime(seconds)) == if seconds >= 0 then Some(seconds) else None
    ensures seconds >= 0 ==> SplitColons(FormatTime(seconds)) == [NatStr(seconds / 60), Pad2(seconds % 60)]
    ensures FormatTime(0) == "0:00"
  {
    TruncatedMinSec(seconds);
    assert FormatTime(0) == "0:00" by {
      assert Quot(0, 60) == 0 && Rem(0, 60) == 0;
      assert NatStr(0) == "0";
    }
  }

  /** What the chain panel shows. */
  datatype ChainDisplay =
    | Active(color: Color, countdown: string)
    | CooldownNotice
    | Nothing

  /**
   * `body`: an active chain wins over a cooldown; neither shows nothing.
   * `Chain` itself is not part of this model, so its flags and remaining
   * seconds are parameters.
   */
  function Body(isActive: bool, isOnCooldown: bool, timeoutRemaining: int): (d: ChainDisplay)
    ensures d.Active? <==> isActive
    ensures d.CooldownNotice? <==> !isActive && isOnCooldown
    ensures d.Nothing? <==> !isActive && !isOnCooldown
    ensures d.Active? ==> d.color == TimeoutColor(timeoutRemaining)
    ensures d.Active? && timeoutRemaining >= 0 ==> ParseClock(d.countdown) == Some(timeoutRemaining)
  {
    if isActive then
      FormatTimeReadsBack(timeoutRemaining);
      Active(TimeoutColor(timeoutRemaining), FormatTime(timeoutRemaining))
    else if isOnCooldown then CooldownNotice
    else Nothing
  }
}
