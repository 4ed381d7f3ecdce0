/**
 * The poll, diff and notify cycle of the application state. A fetch
 * cycle starts synchronously (`BeginFetch`: the key and URL guards, the
 * loading flag, the request) and completes when its reply arrives
 * (`Complete`: one method per outcome). Notifications are edge-triggered
 * comparisons of the new snapshot with the previous one and are recorded,
 * in the order they are sent, in `sent`.
 */
module ViewModel {
  import opened Wrappers
  import opened Decimal
  import opened TornModels

  /** A notification `checkNotifications` sends, with the values its body text uses. */
  datatype Alert =
    | EnergyFull(maximum: int)
    | NerveFull(maximum: int)
    | DrugReady
    | MedicalReady
    | BoosterReady
    | Landed(destination: string)

  /** The body of an HTTP 200 reply: a decoded response, or the description of the decoding error. */
  datatype Payload = Decoded(response: TornResponse) | Undecodable(description: string)

  /** How a request ends: an error thrown (transport, or a non-HTTP response), or an HTTP status. */
  datatype Reply = Thrown(description: string) | Http(status: int, payload: Payload)

  /** The outcomes `fetchData` distinguishes. */
  datatype Outcome =
    | Success(response: TornResponse)
    | ApiError(message: string)
    | InvalidKey
    | HttpError(status: int)
    | Failed(description: string)

  const KeyRequired := "API Key required"
  const InvalidUrl := "Invalid URL"
  const InvalidKeyText := "Invalid API Key"

  /** The `switch` and `catch` of the completion task. */
  function Classify(reply: Reply): (o: Outcome)
    ensures o.Success? <==> reply.Http? && reply.status == 200 && reply.payload.Decoded? && reply.payload.response.error.None?
    ensures o.Success? ==> o.response == reply.payload.response
    ensures o.ApiError? <==> reply.Http? && reply.status == 200 && reply.payload.Decoded? && reply.payload.response.error.Some?
    ensures o.ApiError? ==> o.message == reply.payload.response.error.value.error
    ensures o.InvalidKey? <==> reply.Http? && (reply.status == 403 || reply.status == 404)
    ensures o.HttpError? <==> reply.Http? && reply.status != 200 && reply.status != 403 && reply.status != 404
    ensures o.HttpError? ==> o.status == reply.status
    ensures o.Failed? <==> reply.Thrown? || (reply.Http? && reply.status == 200 && reply.payload.Undecodable?)
  {
    match reply
    case Thrown(d) => Failed(d)
    case Http(status, payload) =>
      if status == 200 then
        match payload
        case Undecodable(d) => Failed(d)
        case Decoded(r) => if r.error.Some? then ApiError(r.error.value.error) else Success(r)
      else if status == 403 || status == 404 then InvalidKey
      else HttpError(status)
  }

  /** The error text an outcome leaves; a success clears it. */
  function ErrorText(o: Outcome): (e: Option<string>)
    ensures e.None? <==> o.Success?
  {
    match o
    case Success(_) => None
    case ApiError(m) => Some("API Error: " + m)
    case InvalidKey => Some(InvalidKeyText)
    case HttpError(status) => Some("HTTP Error: " + IntStr(status))
    case Failed(d) => Some(d)
  }

  /** The status code can be read back from the "HTTP Error: <code>" text. */
  lemma HttpErrorTextCarriesStatus(status: int)
    ensures var e := ErrorText(HttpError(status)).value;
      |e| > 12 && e[..12] == "HTTP Error: " && ParseInt(e[12..]) == Some(status)
  {
    var e := ErrorText(HttpError(status)).value;
    assert e[12..] == IntStr(status);
    ParseIntStr(status);
  }

  /** A bar becomes full: it was below its maximum and now is at or above it. */
  predicate Filled(before: Bar, after: Bar)
  {
    before.current < before.maximum && after.current >= after.maximum
  }

  /** A cooldown runs out: it was running and now reads zero. */
  predicate Elapsed(before: int, after: int)
  {
    before > 0 && after == 0
  }

  /** One alert if its condition holds, none otherwise. */
  function Opt(c: bool, a: Alert): (s: seq<Alert>)
    ensures |s| <= 1
  {
    if c then [a] else []
  }

  /** The energy and nerve notifications, at most one of each. */
  function BarAlerts(prev: Option<Bars>, cur: Option<Bars>): (s: seq<Alert>)
    ensures |s| <= 2
  {
    if prev.None? || cur.None? then []
    else
      Opt(Filled(prev.value.energy, cur.value.energy), EnergyFull(cur.value.energy.maximum))
      + Opt(Filled(prev.value.nerve, cur.value.nerve), NerveFull(cur.value.nerve.maximum))
  }

  function CooldownAlerts(prev: Option<Cooldowns>, cur: Option<Cooldowns>): (s: seq<Alert>)
    ensures |s| <= 3
  {
    if prev.None? || cur.None? then []
    else
      Opt(Elapsed(prev.value.drug, cur.value.drug), DrugReady)
      + Opt(Elapsed(prev.value.medical, cur.value.medical), MedicalReady)
      + Opt(Elapsed(prev.value.booster, cur.value.booster), BoosterReady)
  }

  /** The landing notification, if any. */
  function TravelAlerts(prev: Option<Travel>, cur: Option<Travel>): (s: seq<Alert>)
    ensures |s| <= 1
  {
    if prev.None? || cur.None? then []
    else Opt(IsTraveling(prev.value) && !IsTraveling(cur.value), Landed(cur.value.destination))
  }

  /** The values an alert carries are those of the response it was raised for. */
  predicate Carries(a: Alert, r: TornResponse)
  {
    match a
    case EnergyFull(m) => BarsOf(r).Some? && m == BarsOf(r).value.energy.maximum
    case NerveFull(m) => BarsOf(r).Some? && m == BarsOf(r).value.nerve.maximum
    case Landed(d) => r.travel.Some? && d == r.travel.value.destination
    case _ => true
  }

  /** What `checkNotifications` sends for a new response, given the previous snapshots. */
  function Alerts(prevBars: Option<Bars>, prevCooldowns: Option<Cooldowns>, prevTravel: Option<Travel>,
                  newData: TornResponse): (s: seq<Alert>)
    ensures |s| <= 6
  {
    BarAlerts(prevBars, BarsOf(newData))
    + CooldownAlerts(prevCooldowns, newData.cooldowns)
    + TravelAlerts(prevTravel, newData.travel)
  }

  /** The kinds of alert, numbered in the order `checkNotifications` tests them. */
  const EnergyKind: nat := 0
  const NerveKind: nat := 1
  const DrugKind: nat := 2
  const MedicalKind: nat := 3
  const BoosterKind: nat := 4
  const LandedKind: nat := 5

  /** The kind of an alert, which is its position in the emission order. */
  function Rank(a: Alert): nat
  {
    match a
    case EnergyFull(_) => EnergyKind
    case NerveFull(_) => NerveKind
    case DrugReady => DrugKind
    case MedicalReady => MedicalKind
    case BoosterReady => BoosterKind
    case Landed(_) => LandedKind
  }

  /** Each alert comes strictly later in the emission order than the one before it. */
  predicate InEmissionOrder(s: seq<Alert>)
  {
    forall i :: 0 < i < |s| ==> Rank(s[i - 1]) < Rank(s[i])
  }

  /** All ranks of `s` lie in `lo..hi`. */
  predicate RanksWithin(s: seq<Alert>, lo: nat, hi: nat)
  {
    forall i :: 0 <= i < |s| ==> lo <= Rank(s[i]) <= hi
  }

  lemma ConcatInOrder(a: seq<Alert>, b: seq<Alert>, lo: nat, mid: nat, hi: nat)
    requires InEmissionOrder(a) && InEmissionOrder(b)
    requires lo <= mid < hi
    requires RanksWithin(a, lo, mid) && RanksWithin(b, mid + 1, hi)
    ensures InEmissionOrder(a + b) && RanksWithin(a + b, lo, hi)
  {
    var s := a + b;
    forall i | 0 < i < |s| ensures Rank(s[i - 1]) < Rank(s[i]) {
      if i < |a| {
        assert s[i - 1] == a[i - 1] && s[i] == a[i];
      } else if i == |a| {
        assert s[i - 1] == a[i - 1] && s[i] == b[0];
      } else {
        assert s[i - 1] == b[i - 1 - |a|] && s[i] == b[i - |a|];
      }
    }
    forall i | 0 <= i < |s| ensures lo <= Rank(s[i]) <= hi {
      if i < |a| {
        assert s[i] == a[i];
      } else {
        assert s[i] == b[i - |a|];
      }
    }
  }

  /** The kinds (ranks) present in a sequence of alerts. */
  function Kinds(s: seq<Alert>): set<nat>
  {
    set a | a in s :: Rank(a)
  }

  lemma KindsConcat(a: seq<Alert>, b: seq<Alert>)
    ensures Kinds(a + b) == Kinds(a) + Kinds(b)
  {
    forall k | k in Kinds(a + b) ensures k in Kinds(a) + Kinds(b) {
      var x :| x in a + b && Rank(x) == k;
    }
  }

  function When(c: bool, k: nat): set<nat> { if c then {k} else {} }

  lemma OptFacts(c: bool, a: Alert)
    ensures InEmissionOrder(Opt(c, a)) && RanksWithin(Opt(c, a), Rank(a), Rank(a))
    ensures Kinds(Opt(c, a)) == When(c, Rank(a))
  {
    if c {
      assert Opt(c, a)[1..] == [];
    }
  }

  lemma BarAlertsFacts(prev: Option<Bars>, cur: Option<Bars>)
    ensures var s := BarAlerts(prev, cur); var both := prev.Some? && cur.Some?;
      && InEmissionOrder(s) && RanksWithin(s, EnergyKind, NerveKind)
      && Kinds(s) == When(both && Filled(prev.value.energy, cur.value.energy), EnergyKind)
                   + When(both && Filled(prev.value.nerve, cur.value.nerve), NerveKind)
  {
    if prev.Some? && cur.Some? {
      var e := Opt(Filled(prev.value.energy, cur.value.energy), EnergyFull(cur.value.energy.maximum));
      var n := Opt(Filled(prev.value.nerve, cur.value.nerve), NerveFull(cur.value.nerve.maximum));
      OptFacts(Filled(prev.value.energy, cur.value.energy), EnergyFull(cur.value.energy.maximum));
      OptFacts(Filled(prev.value.nerve, cur.value.nerve), NerveFull(cur.value.nerve.maximum));
      KindsConcat(e, n);
      ConcatInOrder(e, n, EnergyKind, EnergyKind, NerveKind);
    }
  }

  lemma CooldownAlertsFacts(prev: Option<Cooldowns>, cur: Option<Cooldowns>)
    ensures var s := CooldownAlerts(prev, cur); var both := prev.Some? && cur.Some?;
      && InEmissionOrder(s) && RanksWithin(s, DrugKind, BoosterKind)
      && Kinds(s) == When(both && Elapsed(prev.value.drug, cur.value.drug), DrugKind)
                   + When(both && Elapsed(prev.value.medical, cur.value.medical), MedicalKind)
                   + When(both && Elapsed(prev.value.booster, cur.value.booster), BoosterKind)
  {
    if prev.Some? && cur.Some? {
      var cd, cm, cb := Elapsed(prev.value.drug, cur.value.drug),
        Elapsed(prev.value.medical, cur.value.medical), Elapsed(prev.value.booster, cur.value.booster);
      var d, m, b := Opt(cd, DrugReady), Opt(cm, MedicalReady), Opt(cb, BoosterReady);
      OptFacts(cd, DrugReady);
      OptFacts(cm, MedicalReady);
      OptFacts(cb, BoosterReady);
      KindsConcat(d, m);
      KindsConcat(d + m, b);
      ConcatInOrder(d, m, DrugKind, DrugKind, MedicalKind);
      ConcatInOrder(d + m, b, DrugKind, MedicalKind, BoosterKind);
    }
  }

  lemma TravelAlertsFacts(prev: Option<Travel>, cur: Option<Travel>)
    ensures var s := TravelAlerts(prev, cur);
      && InEmissionOrder(s) && RanksWithin(s, LandedKind, LandedKind)
      && Kinds(s) == When(prev.Some? && cur.Some? && IsTraveling(prev.value) && !IsTraveling(cur.value), LandedKind)
  {
    if prev.Some? && cur.Some? {
      OptFacts(IsTraveling(prev.value) && !IsTraveling(cur.value), Landed(cur.value.destination));
    }
  }

  /**
   * Energy, nerve, drug, medical, booster, landed: each kind at most once
   * and always in this order.
   */
  lemma AlertsInOrder(pb: Option<Bars>, pc: Option<Cooldowns>, pt: Option<Travel>, r: TornResponse)
    ensures InEmissionOrder(Alerts(pb, pc, pt, r))
    ensures |Alerts(pb, pc, pt, r)| <= 6
  {
    var b := BarAlerts(pb, BarsOf(r));
    var c := CooldownAlerts(pc, r.cooldowns);
    var t := TravelAlerts(pt, r.travel);
    BarAlertsFacts(pb, BarsOf(r));
    CooldownAlertsFacts(pc, r.cooldowns);
    TravelAlertsFacts(pt, r.travel);
    ConcatInOrder(b, c, EnergyKind, NerveKind, BoosterKind);
    ConcatInOrder(b + c, t, EnergyKind, BoosterKind, LandedKind);
    assert Alerts(pb, pc, pt, r) == b + c + t;
    RanksDistinctBound(b + c + t);
  }

  /** A sequence whose ranks strictly increase has at most one entry per rank. */
  lemma {:induction false} RanksDistinctBound(s: seq<Alert>)
    requires InEmissionOrder(s)
    ensures |s| <= 6
  {
    if |s| > 6 {
      RankAtLeastIndex(s, 6);
    }
  }

  lemma {:induction false} RankAtLeastIndex(s: seq<Alert>, i: nat)
    requires InEmissionOrder(s) && i < |s|
    ensures i <= Rank(s[i])
    decreases i
  {
    if i > 0 {
      RankAtLeastIndex(s, i - 1);
      assert Rank(s[i - 1]) < Rank(s[i]);
    }
  }

  /** Each notification fires exactly when its own edge condition holds. */
  lemma AlertConditions(pb: Option<Bars>, pc: Option<Cooldowns>, pt: Option<Travel>, r: TornResponse)
    ensures EnergyKind in Kinds(Alerts(pb, pc, pt, r)) <==> pb.Some? && BarsOf(r).Some? && Filled(pb.value.energy, BarsOf(r).value.energy)
    ensures NerveKind in Kinds(Alerts(pb, pc, pt, r)) <==> pb.Some? && BarsOf(r).Some? && Filled(pb.value.nerve, BarsOf(r).value.nerve)
    ensures DrugKind in Kinds(Alerts(pb, pc, pt, r)) <==> pc.Some? && r.cooldowns.Some? && Elapsed(pc.value.drug, r.cooldowns.value.drug)
    ensures MedicalKind in Kinds(Alerts(pb, pc, pt, r)) <==> pc.Some? && r.cooldowns.Some? && Elapsed(pc.value.medical, r.cooldowns.value.medical)
    ensures BoosterKind in Kinds(Alerts(pb, pc, pt, r)) <==> pc.Some? && r.cooldowns.Some? && Elapsed(pc.value.booster, r.cooldowns.value.booster)
    ensures LandedKind in Kinds(Alerts(pb, pc, pt, r)) <==> pt.Some? && r.travel.Some? && IsTraveling(pt.value) && !IsTraveling(r.travel.value)
  {
    var b := BarAlerts(pb, BarsOf(r));
    var c := CooldownAlerts(pc, r.cooldowns);
    var t := TravelAlerts(pt, r.travel);
    assert Kinds(Alerts(pb, pc, pt, r)) == Kinds(b) + Kinds(c) + Kinds(t) by {
      assert Alerts(pb, pc, pt, r) == b + c + t;
      KindsConcat(b, c);
      KindsConcat(b + c, t);
    }
    BarConditions(pb, BarsOf(r));
    CooldownConditions(pc, r.cooldowns);
    TravelConditions(pt, r.travel);
    KindsByGroup(Kinds(Alerts(pb, pc, pt, r)), Kinds(b), Kinds(c), Kinds(t));
  }

  /** In a union of the three groups' kinds, each kind comes from its own group only. */
  lemma KindsByGroup(all: set<nat>, bars: set<nat>, cooldowns: set<nat>, travel: set<nat>)
    requires all == bars + cooldowns + travel
    requires bars <= {EnergyKind, NerveKind}
    requires cooldowns <= {DrugKind, MedicalKind, BoosterKind}
    requires travel <= {LandedKind}
    ensures EnergyKind in all <==> EnergyKind in bars
    ensures NerveKind in all <==> NerveKind in bars
    ensures DrugKind in all <==> DrugKind in cooldowns
    ensures MedicalKind in all <==> MedicalKind in cooldowns
    ensures BoosterKind in all <==> BoosterKind in cooldowns
    ensures LandedKind in all <==> LandedKind in travel
  {
  }

  lemma BarConditions(prev: Option<Bars>, cur: Option<Bars>)
    ensures Kinds(BarAlerts(prev, cur)) <= {EnergyKind, NerveKind}
    ensures EnergyKind in Kinds(BarAlerts(prev, cur)) <==> prev.Some? && cur.Some? && Filled(prev.value.energy, cur.value.energy)
    ensures NerveKind in Kinds(BarAlerts(prev, cur)) <==> prev.Some? && cur.Some? && Filled(prev.value.nerve, cur.value.nerve)
  {
    BarAlertsFacts(prev, cur);
  }

  lemma CooldownConditions(prev: Option<Cooldowns>, cur: Option<Cooldowns>)
    ensures Kinds(CooldownAlerts(prev, cur)) <= {DrugKind, MedicalKind, BoosterKind}
    ensures DrugKind in Kinds(CooldownAlerts(prev, cur)) <==> prev.Some? && cur.Some? && Elapsed(prev.value.drug, cur.value.drug)
    ensures MedicalKind in Kinds(CooldownAlerts(prev, cur)) <==> prev.Some? && cur.Some? && Elapsed(prev.value.medical, cur.value.medical)
    ensures BoosterKind in Kinds(CooldownAlerts(prev, cur)) <==> prev.Some? && cur.Some? && Elapsed(prev.value.booster, cur.value.booster)
  {
    CooldownAlertsFacts(prev, cur);
  }

  lemma TravelConditions(prev: Option<Travel>, cur: Option<Travel>)
    ensures Kinds(TravelAlerts(prev, cur)) <= {LandedKind}
    ensures LandedKind in Kinds(TravelAlerts(prev, cur)) <==> prev.Some? && cur.Some? && IsTraveling(prev.value) && !IsTraveling(cur.value)
  {
    TravelAlertsFacts(prev, cur);
  }

  /**
   * What each alert says: a full bar reports the bar's new maximum, a
   * landing the new destination; a cooldown alert carries nothing.
   */
  lemma AlertPayloads(pb: Option<Bars>, pc: Option<Cooldowns>, pt: Option<Travel>, r: TornResponse)
    ensures EnergyKind in Kinds(Alerts(pb, pc, pt, r)) ==>
      BarsOf(r).Some? && EnergyFull(BarsOf(r).value.energy.maximum) in Alerts(pb, pc, pt, r)
    ensures NerveKind in Kinds(Alerts(pb, pc, pt, r)) ==>
      BarsOf(r).Some? && NerveFull(BarsOf(r).value.nerve.maximum) in Alerts(pb, pc, pt, r)
    ensures DrugKind in Kinds(Alerts(pb, pc, pt, r)) ==> DrugReady in Alerts(pb, pc, pt, r)
    ensures MedicalKind in Kinds(Alerts(pb, pc, pt, r)) ==> MedicalReady in Alerts(pb, pc, pt, r)
    ensures BoosterKind in Kinds(Alerts(pb, pc, pt, r)) ==> BoosterReady in Alerts(pb, pc, pt, r)
    ensures LandedKind in Kinds(Alerts(pb, pc, pt, r)) ==>
      r.travel.Some? && Landed(r.travel.value.destination) in Alerts(pb, pc, pt, r)
  {
    AlertsCarry(pb, pc, pt, r);
    KindsCarried(Alerts(pb, pc, pt, r), r);
  }

  /** In alerts that carry the values of `r`, each kind present is present with those values. */
  lemma KindsCarried(s: seq<Alert>, r: TornResponse)
    requires forall a :: a in s ==> Carries(a, r)
    ensures EnergyKind in Kinds(s) ==> BarsOf(r).Some? && EnergyFull(BarsOf(r).value.energy.maximum) in s
    ensures NerveKind in Kinds(s) ==> BarsOf(r).Some? && NerveFull(BarsOf(r).value.nerve.maximum) in s
    ensures DrugKind in Kinds(s) ==> DrugReady in s
    ensures MedicalKind in Kinds(s) ==> MedicalReady in s
    ensures BoosterKind in Kinds(s) ==> BoosterReady in s
    ensures LandedKind in Kinds(s) ==> r.travel.Some? && Landed(r.travel.value.destination) in s
  {
    forall k | k in Kinds(s) ensures exists a :: a in s && Rank(a) == k && Carries(a, r) {
      var a :| a in s && Rank(a) == k;
    }
  }

  /** Every alert sent carries the values of the response it was raised for. */
  lemma AlertsCarry(pb: Option<Bars>, pc: Option<Cooldowns>, pt: Option<Travel>, r: TornResponse)
    ensures forall a :: a in Alerts(pb, pc, pt, r) ==> Carries(a, r)
  {
    var b := BarAlerts(pb, BarsOf(r));
    var c := CooldownAlerts(pc, r.cooldowns);
    var t := TravelAlerts(pt, r.travel);
    assert Alerts(pb, pc, pt, r) == b + c + t;
    BarAlertsCarry(pb, BarsOf(r));
    TravelAlertsCarry(pt, r.travel);
  }

  /** A bar notification reports the maximum of its bar as read now. */
  lemma BarAlertsCarry(prev: Option<Bars>, cur: Option<Bars>)
    ensures forall a :: a in BarAlerts(prev, cur) ==>
      cur.Some? && (a == EnergyFull(cur.value.energy.maximum) || a == NerveFull(cur.value.nerve.maximum))
  {
  }

  /** The landing notification reports the destination of the new travel state. */
  lemma TravelAlertsCarry(prev: Option<Travel>, cur: Option<Travel>)
    ensures forall a :: a in TravelAlerts(prev, cur) ==> cur.Some? && a == Landed(cur.value.destination)
  {
  }

  /** The first successful fetch has nothing to compare with and sends nothing. */
  lemma FirstFetchIsSilent(r: TornResponse)
    ensures Alerts(None, None, None, r) == []
  {
  }

  /** Fetching the same snapshot again sends nothing: a bar that stays full, for one, is not reported twice. */
  lemma UnchangedIsSilent(r: TornResponse)
    ensures Alerts(BarsOf(r), r.cooldowns, r.travel, r) == []
  {
  }

  lemma AppendAssoc<T>(a: seq<T>, b: seq<T>, c: seq<T>, d: seq<T>)
    ensures a + b + c + d == a + (b + c + d)
  {
    assert a + b + c == a + (b + c);
    assert a + (b + c) + d == a + (b + c + d);
  }

  class AppState {
    var apiKey: string
    var data: Option<TornResponse>
    /** Epoch seconds of the last successful fetch. */
    var lastUpdated: Option<int>
    var errorMsg: Option<string>
    var isLoading: bool
    var previousBars: Option<Bars>
    var previousCooldowns: Option<Cooldowns>
    var previousTravel: Option<Travel>
    /** Whether the 30-second timer subscription is held. */
    var timerActive: bool
    /** The notifications sent, in order. */
    var sent: seq<Alert>
    /** The URLs requested, in order. */
    var requested: seq<string>

    /**
     * Shown data is always a successful response, and the comparison
     * snapshots are the ones taken from it.
     */
    ghost predicate Valid()
      reads this
    {
      data.Some? ==>
        && data.value.error.None?
        && lastUpdated.Some?
        && previousBars == BarsOf(data.value)
        && previousCooldowns == data.value.cooldowns
        && previousTravel == data.value.travel
    }

    /** `init()` starts polling straight away. */
    constructor (apiKey: string, urlParses: bool)
      ensures Valid()
      ensures this.apiKey == apiKey && data.None? && lastUpdated.None?
      ensures previousBars.None? && previousCooldowns.None? && previousTravel.None?
      ensures timerActive && sent == []
      ensures apiKey == "" ==> errorMsg == Some(KeyRequired) && !isLoading && requested == []
      ensures apiKey != "" && !urlParses ==> errorMsg == Some(InvalidUrl) && !isLoading && requested == []
      ensures apiKey != "" && urlParses ==> errorMsg.None? && isLoading && requested == [ApiUrl(apiKey)]
    {
      this.apiKey := apiKey;
      data, lastUpdated, errorMsg, isLoading := None, None, None, false;
      previousBars, previousCooldowns, previousTravel := None, None, None;
      timerActive, sent, requested := false, [], [];
      new;
      var _ := StartPolling(urlParses);
    }

    /**
     * The synchronous part of `fetchData`: without a key or a usable URL it
     * only sets the error; otherwise it marks the cycle loading, clears the
     * error and issues the request.
     */
    method BeginFetch(urlParses: bool) returns (started: bool)
      requires Valid()
      modifies this`errorMsg, this`isLoading, this`requested
      ensures Valid()
      ensures started <==> apiKey != "" && urlParses
      ensures apiKey == "" ==> errorMsg == Some(KeyRequired) && isLoading == old(isLoading) && requested == old(requested)
      ensures apiKey != "" && !urlParses ==> errorMsg == Some(InvalidUrl) && isLoading == old(isLoading) && requested == old(requested)
      ensures started ==> errorMsg.None? && isLoading && requested == old(requested) + [ApiUrl(apiKey)]
    {
      if apiKey == "" {
        errorMsg := Some(KeyRequired);
        return false;
      }
      if !urlParses {
        errorMsg := Some(InvalidUrl);
        return false;
      }
      isLoading := true;
      errorMsg := None;
      requested := requested + [ApiUrl(apiKey)];
      started := true;
    }

    /** `checkNotifications`: compares against the previous snapshots and sends, in order. */
    method CheckNotifications(newData: TornResponse)
      modifies this`sent
      ensures sent == old(sent) + Alerts(previousBars, previousCooldowns, previousTravel, newData)
    {
      ghost var bs, cs, ts := BarAlerts(previousBars, BarsOf(newData)),
        CooldownAlerts(previousCooldowns, newData.cooldowns), TravelAlerts(previousTravel, newData.travel);
      NotifyBars(BarsOf(newData));
      NotifyCooldowns(newData.cooldowns);
      NotifyTravel(newData.travel);
      assert sent == old(sent) + bs + cs + ts;
      AppendAssoc(old(sent), bs, cs, ts);
    }

    /** The energy and nerve comparisons of `checkNotifications`. */
    method NotifyBars(cur: Option<Bars>)
      modifies this`sent
      ensures sent == old(sent) + BarAlerts(previousBars, cur)
    {
      if previousBars.Some? && cur.Some? {
        var prev, now := previousBars.value, cur.value;
        ghost var sent0 := sent;
        if prev.energy.current < prev.energy.maximum && now.energy.current >= now.energy.maximum {
          sent := sent + [EnergyFull(now.energy.maximum)];
        }
        ghost var sent1 := sent;
        if prev.nerve.current < prev.nerve.maximum && now.nerve.current >= now.nerve.maximum {
          sent := sent + [NerveFull(now.nerve.maximum)];
        }
        var e := Opt(Filled(prev.energy, now.energy), EnergyFull(now.energy.maximum));
        var n := Opt(Filled(prev.nerve, now.nerve), NerveFull(now.nerve.maximum));
        assert sent1 == sent0 + e && sent == sent1 + n;
        assert sent0 + e + n == sent0 + (e + n);
      }
    }

    /** The drug, medical and booster comparisons of `checkNotifications`. */
    method NotifyCooldowns(cur: Option<Cooldowns>)
      modifies this`sent
      ensures sent == old(sent) + CooldownAlerts(previousCooldowns, cur)
    {
      if previousCooldowns.Some? && cur.Some? {
        var prev, now := previousCooldowns.value, cur.value;
        ghost var sent0 := sent;
        if prev.drug > 0 && now.drug == 0 {
          sent := sent + [DrugReady];
        }
        ghost var sent1 := sent;
        if prev.medical > 0 && now.medical == 0 {
          sent := sent + [MedicalReady];
        }
        ghost var sent2 := sent;
        if prev.booster > 0 && now.booster == 0 {
          sent := sent + [BoosterReady];
        }
        var d := Opt(Elapsed(prev.drug, now.drug), DrugReady);
        var m := Opt(Elapsed(prev.medical, now.medical), MedicalReady);
        var b := Opt(Elapsed(prev.booster, now.booster), BoosterReady);
        assert sent1 == sent0 + d && sent2 == sent1 + m && sent == sent2 + b;
        AppendAssoc(sent0, d, m, b);
      }
    }

    /** The landing comparison of `checkNotifications`. */
    method NotifyTravel(cur: Option<Travel>)
      modifies this`sent
      ensures sent == old(sent) + TravelAlerts(previousTravel, cur)
    {
      if previousTravel.Some? && cur.Some? {
        if IsTraveling(previousTravel.value) && !IsTraveling(cur.value) {
          sent := sent + [Landed(cur.value.destination)];
        }
      }
    }

    /**
     * A 200 reply without an error envelope: notifications are computed
     * against the old snapshots first, then the response is shown and
     * becomes the new basis of comparison.
     */
    method CompleteSuccess(response: TornResponse, now: int)
      requires Valid() && response.error.None?
      modifies this`data, this`lastUpdated, this`errorMsg, this`isLoading, this`sent
      modifies this`previousBars, this`previousCooldowns, this`previousTravel
      ensures Valid()
      ensures sent == old(sent) + Alerts(old(previousBars), old(previousCooldowns), old(previousTravel), response)
      ensures data == Some(response) && lastUpdated == Some(now) && errorMsg.None? && !isLoading
      ensures previousBars == BarsOf(response)
      ensures previousCooldowns == response.cooldowns && previousTravel == response.travel
    {
      CheckNotifications(response);
      data := Some(response);
      lastUpdated := Some(now);
      errorMsg := None;
      previousBars := BarsOf(response);
      previousCooldowns := response.cooldowns;
      previousTravel := response.travel;
      isLoading := false;
    }

    /** A 200 reply carrying an error envelope: the data is dropped, the snapshots kept. */
    method CompleteApiError(message: string)
      requires Valid()
      modifies this`data, this`errorMsg, this`isLoading
      ensures Valid()
      ensures errorMsg == Some("API Error: " + message) && data.None? && !isLoading
    {
      errorMsg := Some("API Error: " + message);
      data := None;
      isLoading := false;
    }

    /** Status 403 or 404. */
    method CompleteInvalidKey()
      requires Valid()
      modifies this`data, this`errorMsg, this`isLoading
      ensures Valid()
      ensures errorMsg == Some(InvalidKeyText) && data.None? && !isLoading
    {
      errorMsg := Some(InvalidKeyText);
      data := None;
      isLoading := false;
    }

    /** Any other status: the error is shown and the last good data stays. */
    method CompleteHttpError(status: int)
      modifies this`errorMsg, this`isLoading
      ensures errorMsg == Some("HTTP Error: " + IntStr(status)) && !isLoading
    {
      errorMsg := Some("HTTP Error: " + IntStr(status));
      isLoading := false;
    }

    /** A thrown error (transport failure, non-HTTP response, undecodable body). */
    method CompleteThrown(description: string)
      modifies this`errorMsg, this`isLoading
      ensures errorMsg == Some(description) && !isLoading
    {
      errorMsg := Some(description);
      isLoading := false;
    }

    /**
     * The completion task of one fetch cycle. It does not look at the
     * timer, so a reply that arrives after `StopPolling` is still applied.
     */
    method Complete(reply: Reply, now: int)
      requires Valid()
      modifies this`data, this`lastUpdated, this`errorMsg, this`isLoading, this`sent
      modifies this`previousBars, this`previousCooldowns, this`previousTravel
      ensures Valid()
      ensures !isLoading
      ensures errorMsg == ErrorText(Classify(reply))
      ensures match Classify(reply)
        case Success(r) =>
          && data == Some(r) && lastUpdated == Some(now)
          && sent == old(sent) + Alerts(old(previousBars), old(previousCooldowns), old(previousTravel), r)
          && previousBars == BarsOf(r) && previousCooldowns == r.cooldowns && previousTravel == r.travel
        case ApiError(_) =>
          data.None? && lastUpdated == old(lastUpdated) && sent == old(sent) && Unmoved()
        case InvalidKey =>
          data.None? && lastUpdated == old(lastUpdated) && sent == old(sent) && Unmoved()
        case _ =>
          data == old(data) && lastUpdated == old(lastUpdated) && sent == old(sent) && Unmoved()
    {
      match Classify(reply)
      case Success(r) => CompleteSuccess(r, now);
      case ApiError(m) => CompleteApiError(m);
      case InvalidKey => CompleteInvalidKey();
      case HttpError(status) => CompleteHttpError(status);
      case Failed(d) => CompleteThrown(d);
    }

    /** The comparison snapshots are those before the call. */
    twostate predicate Unmoved()
      reads this
    {
      previousBars == old(previousBars) && previousCooldowns == old(previousCooldowns)
      && previousTravel == old(previousTravel)
    }

    /** A whole cycle of `fetchData` whose reply arrives before anything else happens. */
    method FetchData(urlParses: bool, reply: Reply, now: int) returns (started: bool)
      requires Valid()
      modifies this`data, this`lastUpdated, this`errorMsg, this`isLoading, this`sent, this`requested
      modifies this`previousBars, this`previousCooldowns, this`previousTravel
      ensures Valid()
      ensures started <==> apiKey != "" && urlParses
      ensures !started ==>
        && errorMsg == Some(if apiKey == "" then KeyRequired else InvalidUrl)
        && data == old(data) && lastUpdated == old(lastUpdated) && isLoading == old(isLoading)
        && requested == old(requested) && sent == old(sent) && Unmoved()
      ensures started ==>
        && requested == old(requested) + [ApiUrl(apiKey)]
        && !isLoading && errorMsg == ErrorText(Classify(reply))
      ensures started ==>
        match Classify(reply)
        case Success(r) =>
          && data == Some(r) && lastUpdated == Some(now)
          && sent == old(sent) + Alerts(old(previousBars), old(previousCooldowns), old(previousTravel), r)
          && previousBars == BarsOf(r) && previousCooldowns == r.cooldowns && previousTravel == r.travel
        case ApiError(_) =>
          data.None? && lastUpdated == old(lastUpdated) && sent == old(sent) && Unmoved()
        case InvalidKey =>
          data.None? && lastUpdated == old(lastUpdated) && sent == old(sent) && Unmoved()
        case _ =>
          data == old(data) && lastUpdated == old(lastUpdated) && sent == old(sent) && Unmoved()
    {
      started := BeginFetch(urlParses);
      if started {
        Complete(reply, now);
      }
    }

    /** `startPolling`: an immediate fetch, then the timer. */
    method StartPolling(urlParses: bool) returns (started: bool)
      requires Valid()
      modifies this`errorMsg, this`isLoading, this`requested, this`timerActive
      ensures Valid() && timerActive
      ensures started <==> apiKey != "" && urlParses
      ensures apiKey == "" ==> errorMsg == Some(KeyRequired) && isLoading == old(isLoading) && requested == old(requested)
      ensures apiKey != "" && !urlParses ==> errorMsg == Some(InvalidUrl) && isLoading == old(isLoading) && requested == old(requested)
      ensures started ==> errorMsg.None? && isLoading && requested == old(requested) + [ApiUrl(apiKey)]
    {
      started := BeginFetch(urlParses);
      timerActive := true;
    }

    /** `stopPolling`: drops the timer; a fetch already under way is not touched. */
    method StopPolling()
      modifies this`timerActive
      ensures !timerActive
    {
      timerActive := false;
    }

    /** `refreshNow`: an out-of-band fetch that leaves the timer as it is. */
    method RefreshNow(urlParses: bool) returns (started: bool)
      requires Valid()
      modifies this`errorMsg, this`isLoading, this`requested
      ensures Valid()
      ensures started <==> apiKey != "" && urlParses
      ensures apiKey == "" ==> errorMsg == Some(KeyRequired)
      ensures apiKey != "" && !urlParses ==> errorMsg == Some(InvalidUrl)
      ensures started ==> errorMsg.None? && isLoading && requested == old(requested) + [ApiUrl(apiKey)]
      ensures !started ==> isLoading == old(isLoading) && requested == old(requested)
    {
      started := BeginFetch(urlParses);
    }

    /** A timer tick fetches only while the subscription is held. */
    method Tick(urlParses: bool) returns (started: bool)
      requires Valid()
      modifies this`errorMsg, this`isLoading, this`requested
      ensures Valid()
      ensures started <==> timerActive && apiKey != "" && urlParses
      ensures !timerActive ==> errorMsg == old(errorMsg) && isLoading == old(isLoading) && requested == old(requested)
      ensures timerActive && apiKey == "" ==> errorMsg == Some(KeyRequired)
      ensures timerActive && apiKey != "" && !urlParses ==> errorMsg == Some(InvalidUrl)
      ensures timerActive && !started ==> isLoading == old(isLoading) && requested == old(requested)
      ensures started ==> errorMsg.None? && isLoading && requested == old(requested) + [ApiUrl(apiKey)]
    {
      if timerActive {
        started := BeginFetch(urlParses);
      } else {
        started := false;
      }
    }
  }
}
