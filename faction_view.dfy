/** The faction tab's chain row. */
module FactionView {
  import opened Wrappers
  import opened Decimal
  import opened SwiftInt
  import opened TimeFormat
  import opened Palette
  import ChainView

  /** `chainColor` of the chain's `timeout`. */
  function ChainColor(timeout: int): (c: Color)
    ensures c == Red <==> timeout < 60
    ensures c == Orange <==> 60 <= timeout < 180
    ensures c == Green <==> timeout >= 180
  {
    if timeout < 60 then Red
    else if timeout < 180 then Orange
    else Green
  }

  /** The faction tab and the chain panel colour the same seconds alike. */
  lemma ChainColorAgrees(timeout: int)
    ensures ChainColor(timeout) == ChainView.TimeoutColor(timeout)
  {
  }

  /** `formatTime`: "%d:%02d" of truncating `/ 60` and `% 60`. */
  function FormatTime(seconds: int): (r: string)
    ensures 4 <= |r|
    ensures seconds >= 0 ==> IsDigit(r[0])
  {
    MinSec(Quot(seconds, 60), Rem(seconds, 60))
  }

  /** A non-negative value reads back from its M:SS text, a negative one not at all. */
  lemma FormatTimeReadsBack(seconds: int)
    ensures ParseClock(FormatTime(seconds)) == if seconds >= 0 then Some(seconds) else None
    ensures seconds >= 0 ==> SplitColons(FormatTime(seconds)) == [NatStr(seconds / 60), Pad2(seconds % 60)]
  {
    TruncatedMinSec(seconds);
  }

  /** The faction tab and the chain panel print the same seconds alike. */
  lemma FormatTimeAgrees(seconds: int)
    ensures FormatTime(seconds) == ChainView.FormatTime(seconds)
  {
  }

  /** The chain row: its colour and countdown. */
  datatype ChainRow = ChainRow(color: Color, countdown: string)

  /**
   * The row is shown only for a chain that has started. `FactionChain` is
   * not part of this model, so its count and timeout are parameters.
   */
  function ChainRowOf(current: int, timeout: int): (row: Option<ChainRow>)
    ensures row.Some? <==> current > 0
    ensures row.Some? ==> row.value.color == ChainColor(timeout)
    ensures row.Some? && timeout >= 0 ==> ParseClock(row.value.countdown) == Some(timeout)
  {
    if current > 0 then
      FormatTimeReadsBack(timeout);
      Some(ChainRow(ChainColor(timeout), FormatTime(timeout)))
    else None
  }
}
