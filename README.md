# MacTorn in Dafny

MacTorn is a macOS menu-bar client for the Torn game's REST API. Every 30
seconds it fetches the player's `user` snapshot and shows it. It compares the
snapshot with the previous one and sends a local notification for each
state change worth reporting:
- a resource bar that has filled;
- a cooldown that has run out;
- a flight that has landed.

This project verifies a model of that poll, diff and notify cycle and of
the small pure helpers around it. The modules are:

- `ViewModel` (`app_state.dfy`) is `AppState`: a class whose fields the fetch
  cycle updates step by step. Its parts:
  - `BeginFetch` is the synchronous start of `fetchData`.
  - `Complete` is the asynchronous completion, with one method per outcome.
  - `CheckNotifications` appends the notifications it sends to the `sent` log.
  - The timer is modelled as a `timerActive` flag.
- `TornModels` (`torn_models.dfy`) holds the decoded snapshot (`TornResponse`, `Bars`, `Cooldowns`, `Travel`) and its derived values. It also holds the API URL and the default keyboard shortcuts.
- `Shortcuts` (`shortcuts_manager.dfy`) is `ShortcutsManager`. It is a class over a list field, and the user defaults are a `map` field.
- `NotificationManager` (`notification_manager.dfy`) covers the notification kinds and their raw values. The raw value is stored as the category identifier and parsed back when the user taps.
- `MenuBar`, `TravelView`, `StatusView`, `StatusBadgesView`, `ChainView`, `FactionView` and `EventsView` cover the display helpers of the views with the same names (the `MenuBar` helpers come from `MacTornApp.swift`). They are countdown formatters, colour thresholds, "time ago" buckets and which section is shown.
- The helper modules are:
  - `Decimal`: `%d`, `%02d` and a digit parser.
  - `SwiftInt`: Swift's truncating `/` and `%`.
  - `TimeFormat`: the shared `H:MM:SS` / `M:SS` clock text and a reader for it.
  - `Palette` and `Wrappers`.

Every countdown formatter is paired with the reader `TimeFormat.ParseClock`.
What reads back depends on the formatter:
- The sentinel formatters ("Arrived!", "Ready") give text that reads back to the seconds for every positive input.
- The chain formatters of `ChainView` and `FactionView` give text that reads back for every non-negative input. A negative input gives text that does not read back at all.
- The "0:00" formatters give text that reads back to the seconds clamped at 0.

The proofs also show:
- the hours field appears exactly when there is a whole hour;
- each later field is two digits wide;
- the formatter's sentinel word ("Arrived!", "Ready") appears exactly when no time is left.

Where the source has two copies of a formatter, a lemma proves that they
agree. The notification rules are stated as if-and-only-if conditions,
alert kind by alert kind. A separate lemma proves the fixed emission order.

Inputs the model cannot see are passed in as parameters:
- whether `URL(string:)` accepts the request text (`urlParses`);
- the current time, in epoch seconds (`now`);
- the reply of the request, as a status code and a decoded payload (`Reply`);
- `travelSecondsRemaining`;
- the `Chain` / `FactionChain` fields.

`checkNotifications` in `AppState.swift` decides which notifications are sent, and the model follows it:
- A notification fires when a bar becomes full. There are no user-configured percentage thresholds.
- There is no chain-expiry or hospital-release check, although `NotificationType` has cases for both.
- There is no deduplication step beyond the edge trigger.

## Model

| member | source | states |
|---|---|---|
| ViewModel.Classify | MacTorn/MacTorn/ViewModels/AppState.swift:71-106 | success iff status 200, the body decodes and has no error envelope; API error iff 200 with an envelope (its message kept); invalid key iff 403 or 404; HTTP error iff any other status (the status kept); failure iff an error was thrown or the 200 body does not decode |
| ViewModel.ErrorText | MacTorn/MacTorn/ViewModels/AppState.swift:82-105 | the error text is cleared exactly on success and set for every other outcome |
| ViewModel.HttpErrorTextCarriesStatus | MacTorn/MacTorn/ViewModels/AppState.swift:102 | "HTTP Error: " is followed by the status code, which reads back from the text |
| ViewModel.BarAlerts | MacTorn/MacTorn/ViewModels/AppState.swift:114-132 | at most two notifications, energy then nerve; `BarAlertsFacts`, `BarConditions` and `BarAlertsCarry` state which and with what |
| ViewModel.CooldownAlerts | MacTorn/MacTorn/ViewModels/AppState.swift:135-154 | at most three notifications, drug, medical, booster; `CooldownAlertsFacts` and `CooldownConditions` state which |
| ViewModel.TravelAlerts | MacTorn/MacTorn/ViewModels/AppState.swift:157-165 | at most one notification; `TravelAlertsFacts`, `TravelConditions` and `TravelAlertsCarry` state when and with what |
| ViewModel.Alerts | MacTorn/MacTorn/ViewModels/AppState.swift:112-166 | at most six notifications a fetch; `AlertConditions`, `AlertPayloads` and `AlertsInOrder` state which, with what, and in which order |
| ViewModel.AlertConditions | MacTorn/MacTorn/ViewModels/AppState.swift:112-166 | each of the six notifications is sent iff its own edge condition holds: energy/nerve was below its maximum and is now at or above it; drug/medical/booster was positive and is now 0; the previous travel was in the air and the new one is not. Each needs both the previous and the new value present |
| ViewModel.BarConditions | MacTorn/MacTorn/ViewModels/AppState.swift:114-132 | the bar group sends energy-full iff the energy edge holds and nerve-full iff the nerve edge holds, and nothing else |
| ViewModel.CooldownConditions | MacTorn/MacTorn/ViewModels/AppState.swift:135-154 | the cooldown group sends each of drug, medical, booster iff that cooldown went from positive to 0, and nothing else |
| ViewModel.TravelConditions | MacTorn/MacTorn/ViewModels/AppState.swift:157-165 | the travel group sends "landed" iff the previous travel was in the air and the new one is not |
| ViewModel.BarAlertsFacts | MacTorn/MacTorn/ViewModels/AppState.swift:114-132 | the bar group's notifications come in order energy, nerve, and their kinds are exactly those whose edge holds |
| ViewModel.CooldownAlertsFacts | MacTorn/MacTorn/ViewModels/AppState.swift:135-154 | the cooldown group's notifications come in order drug, medical, booster, and their kinds are exactly those whose edge holds |
| ViewModel.TravelAlertsFacts | MacTorn/MacTorn/ViewModels/AppState.swift:157-165 | the travel group sends at most the landed notification, exactly when its edge holds |
| ViewModel.AlertsInOrder | MacTorn/MacTorn/ViewModels/AppState.swift:112-166 | notifications are sent in the order energy, nerve, drug, medical, booster, landed, each kind at most once, so at most six per fetch |
| ViewModel.AlertPayloads | MacTorn/MacTorn/ViewModels/AppState.swift:116-162 | each kind sent is sent with its values: energy-full and nerve-full with the new maximum of their bar, landed with the new destination |
| ViewModel.AlertsCarry | MacTorn/MacTorn/ViewModels/AppState.swift:112-166 | every notification sent carries the values of the response it was raised for |
| ViewModel.BarAlertsCarry | MacTorn/MacTorn/ViewModels/AppState.swift:116-130 | a bar notification is energy-full or nerve-full with that bar's new maximum |
| ViewModel.TravelAlertsCarry | MacTorn/MacTorn/ViewModels/AppState.swift:159-163 | the landed notification carries the destination of the new travel state |
| ViewModel.FirstFetchIsSilent | MacTorn/MacTorn/ViewModels/AppState.swift:114-157 | with no previous snapshots (the first successful fetch) nothing is sent |
| ViewModel.UnchangedIsSilent | MacTorn/MacTorn/ViewModels/AppState.swift:116-159 | comparing a snapshot with itself sends nothing: a bar that stays full is not reported again |
| ViewModel.AppState.constructor | MacTorn/MacTorn/ViewModels/AppState.swift:28-33 | `init` starts polling: the timer is held and the first fetch is begun under the same key and URL guards |
| ViewModel.AppState.BeginFetch | MacTorn/MacTorn/ViewModels/AppState.swift:56-68 | an empty key sets "API Key required", an unusable URL sets "Invalid URL", and either way no request is made and `isLoading` is untouched; otherwise `isLoading` is set, the error cleared and the key's URL requested |
| ViewModel.AppState.CheckNotifications | MacTorn/MacTorn/ViewModels/AppState.swift:112-166 | the sent log grows by exactly the notifications `Alerts` gives for the previous snapshots and the new data |
| ViewModel.AppState.NotifyBars | MacTorn/MacTorn/ViewModels/AppState.swift:114-132 | appends the bar group's notifications |
| ViewModel.AppState.NotifyCooldowns | MacTorn/MacTorn/ViewModels/AppState.swift:135-154 | appends the cooldown group's notifications |
| ViewModel.AppState.NotifyTravel | MacTorn/MacTorn/ViewModels/AppState.swift:157-165 | appends the landed notification when the flight has ended |
| ViewModel.AppState.CompleteSuccess | MacTorn/MacTorn/ViewModels/AppState.swift:86-96 | notifications are computed against the old snapshots; then the data is shown, the error cleared, `lastUpdated` set, and the snapshots replaced by the new bars, cooldowns and travel; the invariant holds |
| ViewModel.AppState.CompleteApiError | MacTorn/MacTorn/ViewModels/AppState.swift:82-84 | "API Error: " + message, the data dropped, the snapshots kept |
| ViewModel.AppState.CompleteInvalidKey | MacTorn/MacTorn/ViewModels/AppState.swift:98-100 | "Invalid API Key" and the data dropped |
| ViewModel.AppState.CompleteHttpError | MacTorn/MacTorn/ViewModels/AppState.swift:101-102 | "HTTP Error: <status>", the data kept |
| ViewModel.AppState.CompleteThrown | MacTorn/MacTorn/ViewModels/AppState.swift:104-106 | the error's description is shown, the data kept |
| ViewModel.AppState.Complete | MacTorn/MacTorn/ViewModels/AppState.swift:70-109 | whatever the outcome `isLoading` ends false and the error text is that of the outcome; data, `lastUpdated`, the snapshots and the sent log change only as each outcome prescribes; shown data always has the snapshots taken from it |
| ViewModel.AppState.FetchData | MacTorn/MacTorn/ViewModels/AppState.swift:56-110 | one whole cycle: a request is made iff the key is non-empty and the URL usable; without one only the guard's error text changes; with one the reply settles every field exactly as `Complete` states, outcome by outcome (data, `lastUpdated`, the sent log and the snapshots) |
| ViewModel.AppState.StartPolling | MacTorn/MacTorn/ViewModels/AppState.swift:35-45 | an immediate fetch, then the timer is held |
| ViewModel.AppState.StopPolling | MacTorn/MacTorn/ViewModels/AppState.swift:47-50 | the timer is released; nothing else changes, so a reply under way still lands |
| ViewModel.AppState.RefreshNow | MacTorn/MacTorn/ViewModels/AppState.swift:52-54 | an immediate fetch that leaves the timer alone, under the same guards: "API Key required" for an empty key, "Invalid URL" for an unusable URL, and no request either way |
| ViewModel.AppState.Tick | MacTorn/MacTorn/ViewModels/AppState.swift:40-44 | a tick fetches iff the timer is held; with the timer held it applies the key and URL guards, setting their error text when one fails; without it nothing changes |
| TornModels.BarsOf | MacTorn/MacTorn/Models/TornModels.swift:23-29 | `bars` is present iff energy, nerve, life and happy all are, and then holds exactly those four |
| TornModels.IsAbroad | MacTorn/MacTorn/Models/TornModels.swift:79-81 | being abroad (landed somewhere other than Torn) rules out being in the air |
| TornModels.IsTraveling | MacTorn/MacTorn/Models/TornModels.swift:83-85 | in the air iff time is left; `ArrivalDate` and `AbroadExcludesTraveling` relate it to the rest |
| TornModels.AbroadExcludesTraveling | MacTorn/MacTorn/Models/TornModels.swift:79-85 | abroad (not Torn, no time left) and traveling (time left > 0) are never both true |
| TornModels.ArrivalDate | MacTorn/MacTorn/Models/TornModels.swift:87-90 | the arrival time is present iff traveling, and is then the timestamp |
| TornModels.ApiUrl | MacTorn/MacTorn/Models/TornModels.swift:104-106 | the URL text is the fixed base and selections prefix followed by the key verbatim |
| TornModels.ApiUrlCarriesKey | MacTorn/MacTorn/Models/TornModels.swift:104-106 | the key can be read back from the URL, so distinct keys give distinct URLs |
| TornModels.DefaultsWellFormed | MacTorn/MacTorn/Models/TornModels.swift:117-174 | eight default shortcuts with pairwise distinct ids and key equivalents, each with modifiers ["command", "shift"] |
| Shortcuts.Encode | MacTorn/MacTorn/Utilities/ShortcutsManager.swift:25 | what is encoded decodes back to the same list |
| Shortcuts.Decode | MacTorn/MacTorn/Utilities/ShortcutsManager.swift:16 | decoding succeeds exactly for data this app encoded |
| Shortcuts.Saved | MacTorn/MacTorn/Utilities/ShortcutsManager.swift:15-16 | a stored list is there iff the key holds decodable data, and it is the list that data encodes |
| Shortcuts.Loaded | MacTorn/MacTorn/Utilities/ShortcutsManager.swift:14-21 | the stored list when one is there and decodes, the defaults otherwise |
| Shortcuts.StoreAfterLoad | MacTorn/MacTorn/Utilities/ShortcutsManager.swift:14-22 | after loading, the store holds the loaded list under the key; every other key is untouched |
| Shortcuts.LoadAfterSave | MacTorn/MacTorn/Utilities/ShortcutsManager.swift:14-28 | loading after a save gives back the saved list and writes nothing |
| Shortcuts.LoadIdempotent | MacTorn/MacTorn/Utilities/ShortcutsManager.swift:14-22 | loading a second time loads the same list and leaves the store as the first load did |
| Shortcuts.FirstIndexOf | MacTorn/MacTorn/Utilities/ShortcutsManager.swift:31 | `firstIndex(where:)`: the index of an entry with the id and no earlier one, or none when no entry has it |
| Shortcuts.Updated | MacTorn/MacTorn/Utilities/ShortcutsManager.swift:31-32 | keeps the length; the new entry is in the list afterwards iff it was before or an entry with its id was; `UpdateReplacesFirst` states the rest |
| Shortcuts.UpdateReplacesFirst | MacTorn/MacTorn/Utilities/ShortcutsManager.swift:30-35 | an update keeps the length, puts the new entry at the first index with its id (it stays the first), keeps every other entry, changes nothing for an absent id, and is idempotent |
| Shortcuts.ShortcutsManager.constructor | MacTorn/MacTorn/Utilities/ShortcutsManager.swift:10-12 | `init` loads |
| Shortcuts.ShortcutsManager.LoadShortcuts | MacTorn/MacTorn/Utilities/ShortcutsManager.swift:14-22 | publishes the stored list, or the defaults written back to the store |
| Shortcuts.ShortcutsManager.SaveShortcuts | MacTorn/MacTorn/Utilities/ShortcutsManager.swift:24-28 | the store holds the current list under the key |
| Shortcuts.ShortcutsManager.UpdateShortcut | MacTorn/MacTorn/Utilities/ShortcutsManager.swift:30-35 | the list becomes the updated list and is saved; for an absent id neither list nor store changes |
| Shortcuts.ShortcutsManager.ResetToDefaults | MacTorn/MacTorn/Utilities/ShortcutsManager.swift:37-40 | the list becomes the defaults and is saved |
| NotificationManager.RawValue | MacTorn/MacTorn/Utilities/NotificationManager.swift:5-15 | `NotificationType(rawValue:)` of a kind's raw value gives back the kind |
| NotificationManager.FromRawValue | MacTorn/MacTorn/Utilities/NotificationManager.swift:85 | only a lower-case case name parses; `RawValueRoundTrip` states the inverse |
| NotificationManager.RawValueRoundTrip | MacTorn/MacTorn/Utilities/NotificationManager.swift:5-15 | parsing a raw value gives back its kind, and a parsed kind has that raw value |
| NotificationManager.RawValuesDistinct | MacTorn/MacTorn/Utilities/NotificationManager.swift:5-15 | distinct kinds have distinct raw values |
| NotificationManager.AllTypesComplete | MacTorn/MacTorn/Utilities/NotificationManager.swift:5-15 | the ten kinds listed are all there are |
| NotificationManager.Url | MacTorn/MacTorn/Utilities/NotificationManager.swift:17-34 | a page for every kind: item.php iff drug, medical or booster; gym.php iff energy or happy; crimes.php iff nerve; hospitalview.php iff life |
| NotificationManager.Send | MacTorn/MacTorn/Utilities/NotificationManager.swift:57-62 | the content keeps title and body, has the default sound, and its category parses back to the kind |
| NotificationManager.DidReceive | MacTorn/MacTorn/Utilities/NotificationManager.swift:84-88 | a tap opens a page iff its category parses, and then the kind's page; the completion handler is called either way |
| NotificationManager.TapOpensPageOfKind | MacTorn/MacTorn/Utilities/NotificationManager.swift:57-88 | tapping a notification built by `send` opens the page of its kind |
| NotificationManager.WillPresent | MacTorn/MacTorn/Utilities/NotificationManager.swift:96 | in the foreground a notification shows with banner and sound |
| MenuBar.MenuBarIcon | MacTorn/MacTorn/MacTornApp.swift:35-55 | the triangle iff there is an error; else the globe iff abroad; else bolt.fill iff the energy bar is full; else bolt |
| MenuBar.Lower | MacTorn/MacTorn/MacTornApp.swift:58 | same length; each A-Z letter mapped to its lower case, every other character kept |
| MenuBar.Flag | MacTorn/MacTorn/MacTornApp.swift:59-70 | two regional-indicator symbols |
| MenuBar.FlagForDestination | MacTorn/MacTorn/MacTornApp.swift:57-73 | the globe emoji iff the lower-cased name is none of the twelve known places, a two-symbol regional-indicator flag otherwise |
| MenuBar.FlagIgnoresCase | MacTorn/MacTorn/MacTornApp.swift:58 | the flag of a name and of its lower-case form are the same |
| MenuBar.FormatShortTime | MacTorn/MacTorn/MacTornApp.swift:75-84 | the text starts with a digit and has at least four characters; `FormatShortTimeReadsBack` states what it reads back to |
| MenuBar.FormatShortTimeReadsBack | MacTorn/MacTorn/MacTornApp.swift:75-84 | "0:00" for s <= 0; the clock text of s clamped at 0, reading back to that value, with an hours field iff s >= 3600 and later fields two digits wide |
| MenuBar.MenuBarLabel | MacTorn/MacTorn/MacTornApp.swift:22-32 | text iff traveling, made of the airplane, the destination's flag and a countdown that reads back to the seconds left; the icon otherwise |
| TimeFormat.Decompose | MacTorn/MacTorn/MacTornApp.swift:77-79 | hours·3600 + minutes·60 + secs == s, with minutes and secs below 60, and hours > 0 iff s >= 3600 |
| TimeFormat.Clock | MacTorn/MacTorn/MacTornApp.swift:80-83 | the text starts with a digit and has at least four characters; `ClockRoundTrip` states that it reads back |
| TimeFormat.ClockRoundTrip | MacTorn/MacTorn/MacTornApp.swift:80-83 | the "%d:%02d:%02d" / "%d:%02d" text reads back to s, starts with a digit, has three fields iff s >= 3600, later fields two wide |
| TimeFormat.TruncatedMinSec | MacTorn/MacTorn/Views/Components/ChainView.swift:45-49 | "%d:%02d" of truncating s/60, s%60 reads back to s for s >= 0 (minutes unbounded) and not at all for s < 0 |
| TravelView.FlyingFormatTime | MacTorn/MacTorn/Views/TravelView.swift:21-30 | "Arrived!" iff no time is left; otherwise text that starts with a digit |
| TravelView.FormatTime | MacTorn/MacTorn/Views/TravelView.swift:340-349 | the same for the second copy |
| TravelView.FlyingFormatTimeReadsBack | MacTorn/MacTorn/Views/TravelView.swift:21-30 | "Arrived!" iff s <= 0; for s > 0 the text reads back to s and is H:MM:SS iff s >= 3600 |
| TravelView.FormatTimeReadsBack | MacTorn/MacTorn/Views/TravelView.swift:340-349 | the same for the second copy |
| TravelView.FormatTimeCopiesAgree | MacTorn/MacTorn/Views/TravelView.swift:21-30 | the two copies agree on every input |
| TravelView.FlyingProgress | MacTorn/MacTorn/Views/TravelView.swift:15-19 | in [0, 1]; 0 when timestamp <= departed; the elapsed share of the flight while one is under way |
| TravelView.TravelStatusSection | MacTorn/MacTorn/Views/TravelView.swift:110-130 | the flying panel iff traveling, the abroad panel iff abroad, the in-Torn panel otherwise (also without travel data) |
| TravelView.QuickTravelSection | MacTorn/MacTorn/Views/TravelView.swift:92-95 | shown iff travel data is present and not traveling; "return home" iff abroad |
| TravelView.QuickTravelMatchesStatus | MacTorn/MacTorn/Views/TravelView.swift:92-95 | quick travel is shown iff travel data is present and not traveling; "return home" iff the abroad panel is shown |
| StatusView.FormatTime | MacTorn/MacTorn/Views/StatusView.swift:203-212 | "Ready" iff no time is left; otherwise text that starts with a digit |
| StatusView.CooldownFormattedTime | MacTorn/MacTorn/Views/StatusView.swift:241-252 | the same for `CooldownItem.formattedTime` |
| StatusView.FormatTimeReadsBack | MacTorn/MacTorn/Views/StatusView.swift:203-212 | "Ready" iff s <= 0; for s > 0 the text reads back to s, H:MM:SS iff s >= 3600 |
| StatusView.CooldownFormattedTimeReadsBack | MacTorn/MacTorn/Views/StatusView.swift:241-252 | the same for `CooldownItem.formattedTime` |
| StatusView.FormattersAgree | MacTorn/MacTorn/Views/StatusView.swift:241-252 | `formatTime` and `formattedTime` agree on every input |
| StatusView.CooldownIconColor | MacTorn/MacTorn/Views/StatusView.swift:231 | orange iff seconds > 0, green otherwise |
| StatusView.ReadyIsGreen | MacTorn/MacTorn/Views/StatusView.swift:231-244 | the icon is green exactly when the item reads "Ready" |
| StatusView.TravelSection | MacTorn/MacTorn/Views/StatusView.swift:88-112 | shown iff travel is present and traveling or abroad; "Traveling to X" or "In X"; a countdown iff traveling, reading back to the time left |
| StatusView.HeaderSection | MacTorn/MacTorn/Views/StatusView.swift:44-55 | name and "[id]" iff both are present, the id reading back from between the brackets; "Torn Status" otherwise |
| StatusBadgesView.FormatTime | MacTorn/MacTorn/Views/Components/StatusBadgesView.swift:44-53 | the text starts with a digit and has at least four characters; `FormatTimeReadsBack` states what it reads back to |
| StatusBadgesView.FormatTimeReadsBack | MacTorn/MacTorn/Views/Components/StatusBadgesView.swift:44-53 | "0:00" for s <= 0; reads back to s clamped at 0; hours field iff s >= 3600 |
| StatusBadgesView.AgreesWithShortTime | MacTorn/MacTorn/Views/Components/StatusBadgesView.swift:44-53 | agrees with the menu bar's `formatShortTime` on every input |
| ChainView.TimeoutColor | MacTorn/MacTorn/Views/Components/ChainView.swift:36-43 | red iff < 60, orange iff 60..179, green iff >= 180 |
| ChainView.FormatTime | MacTorn/MacTorn/Views/Components/ChainView.swift:45-49 | at least four characters, starting with a digit for a non-negative value; `FormatTimeReadsBack` states what it reads back to |
| ChainView.FormatTimeReadsBack | MacTorn/MacTorn/Views/Components/ChainView.swift:45-49 | for s >= 0 the fields are s/60 (unbounded) and s%60 two wide, reading back to s; 0 gives "0:00"; a negative value does not read back |
| ChainView.Body | MacTorn/MacTorn/Views/Components/ChainView.swift:6-34 | the active display iff active (with the timeout colour and a countdown reading back to the time left); else the cooldown notice iff on cooldown; else nothing |
| FactionView.ChainColor | MacTorn/MacTorn/Views/FactionView.swift:112-119 | red iff < 60, orange iff 60..179, green iff >= 180 |
| FactionView.ChainColorAgrees | MacTorn/MacTorn/Views/FactionView.swift:112-119 | agrees with `ChainView.timeoutColor` for the same seconds |
| FactionView.FormatTime | MacTorn/MacTorn/Views/FactionView.swift:121-125 | at least four characters, starting with a digit for a non-negative value |
| FactionView.FormatTimeReadsBack | MacTorn/MacTorn/Views/FactionView.swift:121-125 | M:SS with minutes s/60, reading back to s for s >= 0 and not for s < 0 |
| FactionView.FormatTimeAgrees | MacTorn/MacTorn/Views/FactionView.swift:121-125 | agrees with `ChainView.formatTime` on every input |
| FactionView.ChainRowOf | MacTorn/MacTorn/Views/FactionView.swift:25-39 | the row is shown iff the chain count is positive, in the chain colour, with a countdown reading back to the timeout |
| EventsView.TimeAgo | MacTorn/MacTorn/Views/Components/EventsView.swift:40-52 | "now" iff the age is under a minute; otherwise text ending in the unit letter m, h or d |
| EventsView.TimeAgoReadsBack | MacTorn/MacTorn/Views/Components/EventsView.swift:40-52 | "now" iff the age is under 60 s (future events included); otherwise n followed by m, h or d, the largest unit reached, with n·unit <= age < (n+1)·unit, n >= 1, n <= 59 for minutes and n <= 23 for hours |
| EventsView.EventsBody | MacTorn/MacTorn/Views/Components/EventsView.swift:15-20 | the placeholder iff there are no events; otherwise the first min(5, count) events, in order |

## Left out

- Networking and JSON are not modelled. `URLSession`, `JSONDecoder` and `JSONEncoder` are foreign code. A reply is an input: a thrown error, or an HTTP status with a decoded or undecodable body.
- `URL(string:)` is not modelled either. Whether it accepts the request text is the `urlParses` parameter.
- `Date()` is the `now` parameter, in epoch seconds. `lastUpdated` holds that number.
- Concurrency is not modelled. The `Task` of `fetchData` and `Timer.publish` are reduced to two things: a completion step that may run at any later point, and a `timerActive` flag. Two cycles whose requests overlap are not modelled.
- `init`'s `requestPermission` call is not modelled. It is operating-system I/O.
- Delivery of notifications is operating-system I/O. This covers `UNUserNotificationCenter`, the request identifier and `NSWorkspace.open`.
- ViewModel.Alert: the notifications `checkNotifications` sends are kept as kinds with the values their body text uses. Their titles and bodies are not modelled. They are not mapped to `NotificationType`, because the `send` call in `AppState.swift` does not pass a type and the `send` in `NotificationManager.swift` requires one.
- Shortcuts.Encode: JSON encoding of the shortcut list is an injective value constructor that always succeeds. The `try?` failure path of `saveShortcuts`, where nothing is written, is therefore not modelled.
- MenuBar.Lower: `lowercased()` is modelled for the letters A to Z only. Unicode case mapping is not.
- TravelView.FlyingProgress: it uses exact real arithmetic, not `Double`. Only the integer guard and the clamping are exact.
- `travelSecondsRemaining` is not defined in the `AppState.swift` this model covers, so it is a parameter.
- `Chain` and `FactionChain` are not part of this model either. `isActive`, `isOnCooldown`, `timeoutRemaining`, `current` and `timeout` are parameters.
- `TornDestination` is not part of this model, so the destination grid is a single case. The same goes for `TornEvent.cleanEvent`: the event rows are generic values.
- Swift's `Int` is 64 bits wide. The model uses unbounded integers, so overflow in `hours * 3600`-style sums or in `now - timestamp` is not modelled.
- SwiftUI layout is not modelled: fonts, paddings, the progress bar and the buttons' URLs.
- `SoundManager`, `LaunchAtLoginManager`, `NumberFormatter` and the `Double` formatting of the other views are not modelled.
- Watchlist, feedback prompt, attacks, money and properties do not belong to the poll, diff and notify cycle, nor to the helpers modelled here.
- Behaviour asserted only by tests is left out, because the files modelled here do not define it. That covers `Bar.percentage`, `Travel.remainingSeconds`, `Status` and the watchlist.
