/**
 * The status tab: its header, the travel section and the cooldown items,
 * with their countdown texts.
 */
module StatusView {
  import opened Wrappers
  import opened Decimal
  import opened TornModels
  import opened TimeFormat
  import opened Palette

  const ReadyText := "Ready"
  const DefaultTitle := "Torn Status"

  /** `StatusView.formatTime`. */
  function FormatTime(seconds: int): (r: string)
    ensures r == ReadyText <==> seconds <= 0
    ensures seconds > 0 ==> 4 <= |r| && IsDigit(r[0])
  {
    if seconds <= 0 then ReadyText else Clock(seconds)
  }

  /** `CooldownItem.formattedTime` of the item's seconds. */
  function CooldownFormattedTime(seconds: int): (r: string)
    ensures r == ReadyText <==> seconds <= 0
    ensures seconds > 0 ==> 4 <= |r| && IsDigit(r[0])
  {
    if seconds <= 0 then ReadyText else Clock(seconds)
  }

  /**
   * "Ready" exactly when nothing is left; otherwise the clock text, which
   * reads back to the seconds left, in H:MM:SS form exactly when there is a
   * whole hour.
   */
  lemma FormatTimeReadsBack(seconds: int)
    ensures FormatTime(seconds) == ReadyText <==> seconds <= 0
    ensures seconds > 0 ==> ParseClock(FormatTime(seconds)) == Some(seconds)
    ensures seconds > 0 ==> (|SplitColons(FormatTime(seconds))| == 3 <==> seconds >= 3600)
  {
    SentinelOrClock(ReadyText, seconds);
  }

  lemma CooldownFormattedTimeReadsBack(seconds: int)
    ensures CooldownFormattedTime(seconds) == ReadyText <==> seconds <= 0
    ensures seconds > 0 ==> ParseClock(CooldownFormattedTime(seconds)) == Some(seconds)
    ensures seconds > 0 ==> (|SplitColons(CooldownFormattedTime(seconds))| == 3 <==> seconds >= 3600)
  {
    SentinelOrClock(ReadyText, seconds);
  }

  /** The view's formatter and the cooldown item's agree on every input. */
  lemma FormattersAgree(seconds: int)
    ensures FormatTime(seconds) == CooldownFormattedTime(seconds)
  {
  }

  /** The colour of a cooldown item's icon: orange while running, green when ready. */
  function CooldownIconColor(seconds: int): (c: Color)
    ensures c == Orange <==> seconds > 0
    ensures c == Green <==> seconds <= 0
  {
    if seconds > 0 then Orange else Green
  }

  /** A cooldown item's icon is green exactly when its text says "Ready". */
  lemma ReadyIsGreen(seconds: int)
    ensures CooldownIconColor(seconds) == Green <==> CooldownFormattedTime(seconds) == ReadyText
  {
    CooldownFormattedTimeReadsBack(seconds);
  }

  /** The travel section: its caption and, while flying, the countdown. */
  datatype TravelSummary = TravelSummary(caption: string, countdown: Option<string>)

  function TravelSection(data: Option<TornResponse>): (s: Option<TravelSummary>)
    ensures s.Some? <==>
      data.Some? && data.value.travel.Some?
      && (IsTraveling(data.value.travel.value) || IsAbroad(data.value.travel.value))
    ensures s.Some? ==>
      var t := data.value.travel.value;
      && (s.value.countdown.Some? <==> IsTraveling(t))
      && (s.value.countdown.Some? ==> ParseClock(s.value.countdown.value) == Some(t.timeLeft))
      && s.value.caption == (if IsTraveling(t) then "Traveling to " else "In ") + t.destination
  {
    if data.Some? && data.value.travel.Some?
       && (IsTraveling(data.value.travel.value) || IsAbroad(data.value.travel.value)) then
      var t := data.value.travel.value;
      FormatTimeReadsBack(t.timeLeft);
      if IsTraveling(t) then Some(TravelSummary("Traveling to " + t.destination, Some(FormatTime(t.timeLeft))))
      else Some(TravelSummary("In " + t.destination, None))
    else None
  }

  /** The header: the player's name and bracketed id, or the generic title. */
  datatype Header = Player(name: string, idTag: string) | Title(text: string)

  function HeaderSection(data: Option<TornResponse>): (h: Header)
    ensures h.Player? <==> data.Some? && data.value.name.Some? && data.value.playerId.Some?
    ensures h.Player? ==>
      && h.name == data.value.name.value
      && |h.idTag| >= 3 && h.idTag[0] == '[' && h.idTag[|h.idTag| - 1] == ']'
      && ParseInt(h.idTag[1..|h.idTag| - 1]) == Some(data.value.playerId.value)
    ensures h.Title? ==> h.text == DefaultTitle
  {
    if data.Some? && data.value.name.Some? && data.value.playerId.Some? then
      var id := data.value.playerId.value;
      var tag := "[" + IntStr(id) + "]";
      assert tag[1..|tag| - 1] == IntStr(id);
      ParseIntStr(id);
      Player(data.value.name.value, tag)
    else Title(DefaultTitle)
  }
}
