/** The recent-events list: its placeholder, the first five rows and their ages. */
module EventsView {
  import opened Wrappers
  import opened Decimal

  const Placeholder := "No recent events"
  const MaxRows := 5

  /** The seconds one unit of each age suffix stands for. */
  function UnitSeconds(unit: char): nat
  {
    if unit == 'm' then 60 else if unit == 'h' then 3600 else 86400
  }

  /** A count followed by its unit letter. */
  function WithUnit(n: nat, unit: char): (r: string)
    ensures |r| >= 2 && r[|r| - 1] == unit && r[..|r| - 1] == NatStr(n)
  {
    NatStr(n) + [unit]
  }

  /**
   * `timeAgo`: the age of an event at time `now` (epoch seconds; the view
   * reads the clock itself), in whole minutes, hours or days.
   */
  function TimeAgo(now: int, timestamp: int): (r: string)
    ensures r == "now" <==> now - timestamp < 60
    ensures now - timestamp >= 60 ==> |r| >= 2 && (r[|r| - 1] == 'm' || r[|r| - 1] == 'h' || r[|r| - 1] == 'd')
  {
    var diff := now - timestamp;
    if diff < 60 then "now"
    else if diff < 3600 then WithUnit(diff / 60, 'm')
    else if diff < 86400 then WithUnit(diff / 3600, 'h')
    else WithUnit(diff / 86400, 'd')
  }

  /**
   * "now" exactly for an age under a minute, future events included;
   * otherwise a count and a unit, the largest unit the age reaches, and the
   * count is the whole number of such units in the age.
   */
  lemma TimeAgoReadsBack(now: int, timestamp: int)
    ensures TimeAgo(now, timestamp) == "now" <==> now - timestamp < 60
    ensures now - timestamp >= 60 ==>
      var r := TimeAgo(now, timestamp);
      var unit := r[|r| - 1];
      && |r| >= 2 && ParseNat(r[..|r| - 1]).Some?
      && (unit == 'm' <==> now - timestamp < 3600)
      && (unit == 'h' <==> 3600 <= now - timestamp < 86400)
      && (unit == 'd' <==> now - timestamp >= 86400)
      && var n := ParseNat(r[..|r| - 1]).value;
      && n * UnitSeconds(unit) <= now - timestamp < (n + 1) * UnitSeconds(unit)
      && n >= 1
      && (unit == 'm' ==> n <= 59)
      && (unit == 'h' ==> n <= 23)
  {
    var diff := now - timestamp;
    var r := TimeAgo(now, timestamp);
    if diff >= 60 {
      var u: nat := if diff < 3600 then 60 else if diff < 86400 then 3600 else 86400;
      var n := diff / u;
      assert r == NatStr(n) + [r[|r| - 1]];
      assert r[..|r| - 1] == NatStr(n);
      ParseNatStr(n);
    }
  }

  /** What the list shows: the placeholder, or the rows of the first events. */
  datatype EventsDisplay<T> = Empty | Rows(shown: seq<T>)

  function EventsBody<T>(events: seq<T>): (d: EventsDisplay<T>)
    ensures d.Empty? <==> |events| == 0
    ensures d.Rows? ==> |d.shown| == if |events| < MaxRows then |events| else MaxRows
    ensures d.Rows? ==> d.shown <= events
  {
    if |events| == 0 then Empty
    else if |events| < MaxRows then Rows(events)
    else Rows(events[..MaxRows])
  }
}
