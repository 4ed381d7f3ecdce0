/**
 * The travel tab: the countdown of a flight, its progress, and which status
 * panel and quick-travel section are shown for the current travel state.
 */
module TravelView {
  import opened Wrappers
  import opened Decimal
  import opened TornModels
  import opened TimeFormat

  const ArrivedText := "Arrived!"

  /** `FlyingStatusView.formatTime`. */
  function FlyingFormatTime(seconds: int): (r: string)
    ensures r == ArrivedText <==> seconds <= 0
    ensures seconds > 0 ==> 4 <= |r| && IsDigit(r[0])
  {
    if seconds <= 0 then ArrivedText else Clock(seconds)
  }

  /** `TravelView.formatTime`, a second copy of the same formatter. */
  function FormatTime(seconds: int): (r: string)
    ensures r == ArrivedText <==> seconds <= 0
    ensures seconds > 0 ==> 4 <= |r| && IsDigit(r[0])
  {
    if seconds <= 0 then ArrivedText else Clock(seconds)
  }

  /**
   * "Arrived!" exactly when no time is left; otherwise the clock text,
   * which reads back to the seconds left and has the H:MM:SS form exactly
   * when there is a whole hour.
   */
  lemma FlyingFormatTimeReadsBack(seconds: int)
    ensures FlyingFormatTime(seconds) == ArrivedText <==> seconds <= 0
    ensures seconds > 0 ==> ParseClock(FlyingFormatTime(seconds)) == Some(seconds)
    ensures seconds > 0 ==> (|SplitColons(FlyingFormatTime(seconds))| == 3 <==> seconds >= 3600)
  {
    SentinelOrClock(ArrivedText, seconds);
  }

  lemma FormatTimeReadsBack(seconds: int)
    ensures FormatTime(seconds) == ArrivedText <==> seconds <= 0
    ensures seconds > 0 ==> ParseClock(FormatTime(seconds)) == Some(seconds)
    ensures seconds > 0 ==> (|SplitColons(FormatTime(seconds))| == 3 <==> seconds >= 3600)
  {
    SentinelOrClock(ArrivedText, seconds);
  }

  /** The two copies agree on every input. */
  lemma FormatTimeCopiesAgree(seconds: int)
    ensures FlyingFormatTime(seconds) == FormatTime(seconds)
  {
  }

  /**
   * `FlyingStatusView.progress`: the elapsed share of the flight, clamped
   * to [0, 1]; 0 when the flight has no positive duration.
   */
  function FlyingProgress(timestamp: int, departed: int, secondsRemaining: int): (p: real)
    ensures 0.0 <= p <= 1.0
    ensures timestamp <= departed ==> p == 0.0
    ensures departed < timestamp && 0 <= secondsRemaining <= timestamp - departed ==>
      p == (timestamp - departed - secondsRemaining) as real / (timestamp - departed) as real
  {
    var total := timestamp - departed;
    if total <= 0 then 0.0
    else
      var share := (total - secondsRemaining) as real / total as real;
      if share > 1.0 then 1.0 else if share < 0.0 then 0.0 else share
  }

  /** The panel `travelStatusSection` shows. */
  datatype StatusPanel =
    | Flying(destination: string, timestamp: int, departed: int)
    | Abroad(place: string)
    | InTorn

  function TravelStatusSection(travel: Option<Travel>): (p: StatusPanel)
    ensures p.Flying? <==> travel.Some? && IsTraveling(travel.value)
    ensures p.Abroad? <==> travel.Some? && IsAbroad(travel.value)
    ensures p.InTorn? <==> travel.None? || (!IsTraveling(travel.value) && !IsAbroad(travel.value))
    ensures p.Flying? ==> p == Flying(travel.value.destination, travel.value.timestamp, travel.value.departed)
    ensures p.Abroad? ==> p.place == travel.value.destination
  {
    match travel
    case None => InTorn
    case Some(t) =>
      if IsTraveling(t) then Flying(t.destination, t.timestamp, t.departed)
      else if IsAbroad(t) then Abroad(t.destination)
      else InTorn
  }

  /** The quick-travel section: absent, the single way home, or every destination. */
  datatype QuickTravel = Hidden | ReturnHome | DestinationGrid

  function QuickTravelSection(travel: Option<Travel>): (q: QuickTravel)
    ensures q != Hidden <==> travel.Some? && !IsTraveling(travel.value)
    ensures q == ReturnHome <==> travel.Some? && IsAbroad(travel.value)
  {
    match travel
    case Some(t) =>
      if IsTraveling(t) then Hidden
      else if IsAbroad(t) then ReturnHome
      else DestinationGrid
    case None => Hidden
  }

  /**
   * Quick travel is offered exactly when travel data is present and the
   * player is on the ground; the way home exactly when the status panel is
   * the abroad one, and the destination grid only with the in-Torn panel.
   */
  lemma QuickTravelMatchesStatus(travel: Option<Travel>)
    ensures QuickTravelSection(travel) != Hidden <==> travel.Some? && !IsTraveling(travel.value)
    ensures QuickTravelSection(travel) == ReturnHome <==> TravelStatusSection(travel).Abroad?
    ensures QuickTravelSection(travel) == DestinationGrid ==> TravelStatusSection(travel) == InTorn
    ensures TravelStatusSection(travel).Flying? ==> QuickTravelSection(travel) == Hidden
  {
    if travel.Some? {
      AbroadExcludesTraveling(travel.value);
    }
  }
}
