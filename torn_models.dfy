/**
 * The decoded snapshot of the Torn API's `user` endpoint and the values
 * derived from it. JSON decoding itself is not modelled: a `TornResponse`
 * is what `JSONDecoder` produced, every optional key an `Option`.
 */
module TornModels {
  import opened Wrappers

  /** A resource bar: the level shown and the optional regeneration data. */
  datatype Bar = Bar(
    current: int,
    maximum: int,
    increment: Option<real>,
    interval: Option<int>,
    ticktime: Option<int>,
    fulltime: Option<int>)

  datatype Bars = Bars(energy: Bar, nerve: Bar, life: Bar, happy: Bar)

  /** Seconds left on each consumable cooldown. */
  datatype Cooldowns = Cooldowns(drug: int, medical: int, booster: int)

  /** `timestamp` is the arrival time and `departed` the departure time, in epoch seconds. */
  datatype Travel = Travel(destination: string, timestamp: int, departed: int, timeLeft: int)

  /** The API's error envelope: `{"error": {"code": ..., "error": ...}}`. */
  datatype TornError = TornError(code: int, error: string)

  datatype TornResponse = TornResponse(
    name: Option<string>,
    playerId: Option<int>,
    energy: Option<Bar>,
    nerve: Option<Bar>,
    life: Option<Bar>,
    happy: Option<Bar>,
    cooldowns: Option<Cooldowns>,
    travel: Option<Travel>,
    error: Option<TornError>)

  /** `TornResponse.bars`: all four bars together, or nothing when any one is missing. */
  function BarsOf(r: TornResponse): (b: Option<Bars>)
    ensures b.Some? <==> r.energy.Some? && r.nerve.Some? && r.life.Some? && r.happy.Some?
    ensures b.Some? ==>
      b.value.energy == r.energy.value && b.value.nerve == r.nerve.value &&
      b.value.life == r.life.value && b.value.happy == r.happy.value
  {
    match (r.energy, r.nerve, r.life, r.happy)
    case (Some(e), Some(n), Some(l), Some(h)) => Some(Bars(e, n, l, h))
    case _ => None
  }

  const Home := "Torn"

  /** Landed somewhere other than Torn city. */
  predicate IsAbroad(t: Travel): (b: bool)
    ensures b ==> !IsTraveling(t)
  {
    t.destination != Home && t.timeLeft == 0
  }

  /** In the air, whatever the destination. */
  predicate IsTraveling(t: Travel) { t.timeLeft > 0 }

  lemma AbroadExcludesTraveling(t: Travel)
    ensures !(IsAbroad(t) && IsTraveling(t))
    ensures IsAbroad(t) || IsTraveling(t) || t.destination == Home || t.timeLeft < 0
  {
  }

  /** `Travel.arrivalDate`, as epoch seconds: the arrival time only while traveling. */
  function ArrivalDate(t: Travel): (d: Option<int>)
    ensures d.Some? <==> IsTraveling(t)
    ensures d.Some? ==> d.value == t.timestamp
  {
    if IsTraveling(t) then Some(t.timestamp) else None
  }

  const BaseUrl := "https://api.torn.com/user/"
  const Selections := "basic,bars,cooldowns,travel"
  const UrlPrefix := BaseUrl + "?selections=" + Selections + "&key="

  /**
   * The text `TornAPI.url(for:)` hands to `URL(string:)`; whether
   * Foundation accepts it is not modelled here.
   */
  function ApiUrl(apiKey: string): (u: string)
    ensures |u| == |UrlPrefix| + |apiKey|
    ensures u[..|UrlPrefix|] == UrlPrefix && u[|UrlPrefix|..] == apiKey
  {
    BaseUrl + "?selections=" + Selections + "&key=" + apiKey
  }

  /** The key a request URL carries, if it is one `ApiUrl` builds. */
  function KeyOfUrl(u: string): Option<string>
  {
    if |UrlPrefix| <= |u| && u[..|UrlPrefix|] == UrlPrefix then Some(u[|UrlPrefix|..]) else None
  }

  /** The key is carried verbatim, so distinct keys give distinct URLs. */
  lemma ApiUrlCarriesKey(k: string, k': string)
    ensures KeyOfUrl(ApiUrl(k)) == Some(k)
    ensures ApiUrl(k) == ApiUrl(k') ==> k == k'
  {
    assert KeyOfUrl(ApiUrl(k')) == Some(k');
  }

  /** A quick link to a page of the Torn website. */
  datatype KeyboardShortcut = KeyboardShortcut(
    id: string,
    name: string,
    url: string,
    keyEquivalent: string,
    modifiers: seq<string>)

  const CommandShift := ["command", "shift"]

  const Defaults: seq<KeyboardShortcut> := [
    KeyboardShortcut("home", "Home", "https://www.torn.com/", "h", CommandShift),
    KeyboardShortcut("items", "Items", "https://www.torn.com/item.php", "i", CommandShift),
    KeyboardShortcut("gym", "Gym", "https://www.torn.com/gym.php", "g", CommandShift),
    KeyboardShortcut("crimes", "Crimes", "https://www.torn.com/crimes.php", "c", CommandShift),
    KeyboardShortcut("mission", "Missions", "https://www.torn.com/missions.php", "m", CommandShift),
    KeyboardShortcut("travel", "Travel", "https://www.torn.com/travelagency.php", "t", CommandShift),
    KeyboardShortcut("hospital", "Hospital", "https://www.torn.com/hospitalview.php", "o", CommandShift),
    KeyboardShortcut("faction", "Faction", "https://www.torn.com/factions.php", "f", CommandShift)
  ]

  /** No string occurs twice. */
  predicate Distinct(s: seq<string>)
  {
    forall i, j :: 0 <= i < j < |s| ==> s[i] != s[j]
  }

  function Ids(list: seq<KeyboardShortcut>): (r: seq<string>)
    ensures |r| == |list| && forall i :: 0 <= i < |list| ==> r[i] == list[i].id
  {
    seq(|list|, i requires 0 <= i < |list| => list[i].id)
  }

  function Keys(list: seq<KeyboardShortcut>): (r: seq<string>)
    ensures |r| == |list| && forall i :: 0 <= i < |list| ==> r[i] == list[i].keyEquivalent
  {
    seq(|list|, i requires 0 <= i < |list| => list[i].keyEquivalent)
  }

  /** Eight shortcuts, no id or key used twice, each bound with command and shift. */
  lemma DefaultsWellFormed()
    ensures |Defaults| == 8
    ensures Distinct(Ids(Defaults)) && Distinct(Keys(Defaults))
    ensures forall i :: 0 <= i < |Defaults| ==> Defaults[i].modifiers == ["command", "shift"]
  {
    DefaultIdsDistinct();
    DefaultKeysDistinct();
  }

  lemma DefaultIdsDistinct()
    ensures Distinct(Ids(Defaults))
  {
    assert Ids(Defaults) == ["home", "items", "gym", "crimes", "mission", "travel", "hospital", "faction"];
  }

  lemma DefaultKeysDistinct()
    ensures Distinct(Keys(Defaults))
  {
    assert Keys(Defaults) == ["h", "i", "g", "c", "m", "t", "o", "f"];
  }
}
