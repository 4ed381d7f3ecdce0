/**
 * Notification categories: each kind is stored by its raw value as the
 * notification's category identifier and parsed back, when the user taps
 * the notification, to choose the page of the Torn website to open.
 * Delivery by the operating system is not modelled.
 */
module NotificationManager {
  import opened Wrappers

  datatype NotificationType =
    | DrugReady | MedicalReady | BoosterReady | Landed | ChainExpiring
    | Released | Energy | Nerve | Happy | Life

  const AllTypes: seq<NotificationType> :=
    [DrugReady, MedicalReady, BoosterReady, Landed, ChainExpiring, Released, Energy, Nerve, Happy, Life]

  /** Swift gives a `String` enum the case name as its raw value. */
  function RawValue(t: NotificationType): (s: string)
    ensures FromRawValue(s) == Some(t)
  {
    match t
    case DrugReady => "drugReady"
    case MedicalReady => "medicalReady"
    case BoosterReady => "boosterReady"
    case Landed => "landed"
    case ChainExpiring => "chainExpiring"
    case Released => "released"
    case Energy => "energy"
    case Nerve => "nerve"
    case Happy => "happy"
    case Life => "life"
  }

  /** `NotificationType(rawValue:)`. */
  function FromRawValue(s: string): (r: Option<NotificationType>)
    ensures r.Some? ==> |s| > 0 && 'a' <= s[0] <= 'z'
  {
    if s == "drugReady" then Some(DrugReady)
    else if s == "medicalReady" then Some(MedicalReady)
    else if s == "boosterReady" then Some(BoosterReady)
    else if s == "landed" then Some(Landed)
    else if s == "chainExpiring" then Some(ChainExpiring)
    else if s == "released" then Some(Released)
    else if s == "energy" then Some(Energy)
    else if s == "nerve" then Some(Nerve)
    else if s == "happy" then Some(Happy)
    else if s == "life" then Some(Life)
    else None
  }

  /** Parsing is the inverse of the raw value, in both directions. */
  lemma RawValueRoundTrip(t: NotificationType, s: string)
    ensures FromRawValue(RawValue(t)) == Some(t)
    ensures FromRawValue(s) == Some(t) ==> RawValue(t) == s
  {
  }

  lemma RawValuesDistinct(t: NotificationType, t': NotificationType)
    ensures RawValue(t) == RawValue(t') ==> t == t'
  {
    RawValueRoundTrip(t, RawValue(t'));
  }

  lemma AllTypesComplete(t: NotificationType)
    ensures t in AllTypes && |AllTypes| == 10
  {
  }

  const ItemPage := "https://www.torn.com/item.php"
  const GymPage := "https://www.torn.com/gym.php"

  /** The page a tapped notification opens; defined for every kind. */
  function Url(t: NotificationType): (u: string)
    ensures t == DrugReady || t == MedicalReady || t == BoosterReady <==> u == ItemPage
    ensures t == Energy || t == Happy <==> u == GymPage
    ensures t == Nerve <==> u == "https://www.torn.com/crimes.php"
    ensures t == Life <==> u == "https://www.torn.com/hospitalview.php"
  {
    match t
    case DrugReady | MedicalReady | BoosterReady => ItemPage
    case Landed => "https://www.torn.com/page.php?sid=ItemMarket"
    case ChainExpiring => "https://www.torn.com/factions.php?step=your#/tab=wars"
    case Released => "https://www.torn.com/"
    case Energy | Happy => GymPage
    case Nerve => "https://www.torn.com/crimes.php"
    case Life => "https://www.torn.com/hospitalview.php"
  }

  datatype Sound = DefaultSound

  /** What `send` puts into `UNMutableNotificationContent`. */
  datatype Content = Content(title: string, body: string, sound: Sound, categoryIdentifier: string)

  function Send(title: string, body: string, t: NotificationType): (c: Content)
    ensures c.title == title && c.body == body && c.sound == DefaultSound
    ensures FromRawValue(c.categoryIdentifier) == Some(t)
  {
    Content(title, body, DefaultSound, RawValue(t))
  }

  /** The effect of the tap handler: the page opened, if any, and whether the completion handler ran. */
  datatype TapEffect = TapEffect(page: Option<string>, completionCalled: bool)

  function DidReceive(categoryIdentifier: string): (e: TapEffect)
    ensures e.completionCalled
    ensures e.page.Some? <==> FromRawValue(categoryIdentifier).Some?
    ensures e.page.Some? ==> e.page.value == Url(FromRawValue(categoryIdentifier).value)
  {
    match FromRawValue(categoryIdentifier)
    case Some(t) => TapEffect(Some(Url(t)), true)
    case None => TapEffect(None, true)
  }

  /** Tapping a notification that `Send` built opens the page of its kind. */
  lemma TapOpensPageOfKind(title: string, body: string, t: NotificationType)
    ensures DidReceive(Send(title, body, t).categoryIdentifier) == TapEffect(Some(Url(t)), true)
  {
  }

  datatype PresentationOption = Banner | PresentSound

  /** Notifications arriving while the app is in front are still shown, with a banner and a sound. */
  function WillPresent(): (opts: set<PresentationOption>)
    ensures opts == {Banner, PresentSound}
  {
    {Banner, PresentSound}
  }
}
