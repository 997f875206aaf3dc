# Miyah-map relay, feed and menu logic in Dafny

Miyah-map is a water and power information system for Sudanese
neighbourhoods. It has two web front ends. The user app has a USSD
simulator, a mesh panel and a request form. The NGO dashboard has the
summary cards, the report feed and the SMS broadcast form. A small Express
server keeps submitted reports in memory. This project models the logic
under those screens, with the browser, React and HTTP abstracted away:

- **Mesh relay, user side** (`MeshNetwork`). The service sits over a
  broadcast channel. It stamps outgoing packets with its device id and
  drops its own echoes and message ids it has already seen. It keeps one
  peer entry per foreign sender and notifies its callbacks in
  registration order.
- **Mesh listener, NGO side** (`NgoMesh`). It reacts to storage events for
  the mesh key whose value parses as a packet. It runs the same
  dedup-and-notify step, but has no echo check and no peer table.
- **Report server** (`ReportServer`). It holds the `reports` array behind
  GET, POST and DELETE `/api/reports`. POST is idempotent by the
  client-supplied id. DELETE answers by whether the list got shorter.
- **Report feed** (`ReportsView`). It maps `REPORT_NEW` mesh packets to feed
  items, toggles verification, and validates, prepends and clears the
  complaint form.
- **USSD menu** (`Ussd`). This is the `*122#` session state machine, with its
  input buffer and the territory table.
- **Translation lookup** (`I18n`, on top of `Text`). It falls back from the
  language to English and from a missing key to the key itself. It then
  fills `{name}` placeholders with `String.prototype.replace`. That call
  fills only the first occurrence and interprets `$` patterns.
- **Dashboard figures** (`Dashboard`). These are the no-water, contaminated
  and attention lists with their stable sort by days without water, the
  counts, and the "time ago" buckets.
- **Broadcast form** (`Broadcasts`) and **mesh panel activity log**
  (`MeshControlPanel`).

Each core file is one module. Components whose handlers change state are
classes, with their state as fields and one method per handler. The pure
derivations are functions with lemmas about them.

Things the code gets from the environment are parameters:

- the clock: `Date.now()`, the ISO timestamp and the local time text;
- `crypto.randomUUID()`;
- `JSON.parse` on the NGO side;
- the outcome of the AI suggestion request.

Other conventions:

- Callbacks are identities (`HandlerId`). A delivery returns the callbacks
  it invoked, in order.
- A packet handed to `postMessage` is appended to a `posted` log.

The code decides the model in the places below:

- The dashboard never polls the server, merges feeds by id or deletes feed
  items. The model has none of these.
- Stopping a mesh service keeps its seen-set, peers and callbacks. A
  restarted service still ignores ids it saw before.
- Nothing writes the storage key the NGO listener reads. The two services
  are not connected in the model either.

## Model

| member | source | states |
|---|---|---|
| Common.Filter | server/server.js:27 | `Array.prototype.filter`: every kept element passes the test, every passing element is kept, a one-element list is kept or dropped whole, and a list whose elements all pass is returned as it is |
| Common.FilterAppend | server/server.js:27 | filtering distributes over concatenation, so the kept elements stay in their original order |
| Common.FilterCount | server/server.js:27 | a kept value occurs as often as in the input, a dropped one not at all |
| Common.FilterDisjointCount | components/DashboardView.tsx:16-22 | two filters no element passes together keep at most as many elements as the list has |
| MeshNetwork.SetPeer | Miyah-user/src/services/MeshNetworkService.ts:70 | `peers.set` on an insertion-ordered Map: at most one entry per sender id, the sender's entry replaced in place or appended, all other entries kept, no others added |
| MeshNetwork.MeshNetworkService.constructor | Miyah-user/src/services/MeshNetworkService.ts:10-12 | the device id is fixed at construction (a `const`); the channel is closed and the peers, seen-set, callbacks and posted log are empty |
| MeshNetwork.MeshNetworkService.Start | Miyah-user/src/services/MeshNetworkService.ts:14-32 | no-op when already open; otherwise opens and posts exactly one `NEIGHBORHOOD_UPDATE` with a null payload, whose id enters the seen-set |
| MeshNetwork.MeshNetworkService.Stop | Miyah-user/src/services/MeshNetworkService.ts:34-39 | closes the channel, also when already closed; seen-set, peers, callbacks and posted log are kept |
| MeshNetwork.MeshNetworkService.Broadcast | Miyah-user/src/services/MeshNetworkService.ts:41-53 | nothing changes while closed; while open the packet is stamped with the device id, its id is marked seen, and it is posted |
| MeshNetwork.MeshNetworkService.OnMessage | Miyah-user/src/services/MeshNetworkService.ts:55-57 | the callback is registered last, and the detach function returned is bound to it |
| MeshNetwork.MeshNetworkService.Detach | Miyah-user/src/services/MeshNetworkService.ts:57-59 | detaching removes every registration of that callback and keeps every other one |
| MeshNetwork.MeshNetworkService.HandleIncomingMessage | Miyah-user/src/services/MeshNetworkService.ts:62-77 | own echo or seen id: nothing changes and no callback runs; otherwise the id is marked seen, the sender's peer entry is set to now and every callback runs once in order; the service never appears in its own peer table |
| MeshNetwork.MeshNetworkService.Deliver | Miyah-user/src/services/MeshNetworkService.ts:19-21 | a closed channel delivers nothing; an open one hands the packet to the inbound filter |
| MeshNetwork.MeshNetworkService.GetPeers | Miyah-user/src/services/MeshNetworkService.ts:79-81 | the peer entries in insertion order, one per distinct foreign sender, never the device itself |
| MeshNetwork.RedeliveryIsIgnored | Miyah-user/src/services/MeshNetworkService.ts:64 | delivering a handled packet again changes nothing and notifies no one, so repeated delivery has the effect of one |
| Mesh.WithoutHandler | Miyah-user/src/services/MeshNetworkService.ts:58 | `filter(cb => cb !== callback)`: the callback no longer occurs and every other callback occurs as often as before |
| Mesh.WithoutHandlerKeepsOrder | Miyah-user/src/services/MeshNetworkService.ts:58 | the callbacks that stay after a detach keep their registration order |
| NgoMesh.NgoMeshService.constructor | services/NGOMeshService.ts:12-16 | not running, no handler installed, empty seen-set and callbacks |
| NgoMesh.NgoMeshService.Incoming | services/NGOMeshService.ts:24-30 | an event yields a packet iff its key is `miyah_mesh_network`, its new value is present and non-empty, and the value parses |
| NgoMesh.NgoMeshService.Start | services/NGOMeshService.ts:18-36 | idempotent through `isRunning`; installs the storage handler |
| NgoMesh.NgoMeshService.Stop | services/NGOMeshService.ts:38-44 | removes the handler if installed and clears `isRunning`; safe when not started; seen-set and callbacks are kept |
| NgoMesh.NgoMeshService.OnMessage | services/NGOMeshService.ts:46-47 | the callback is registered last and its detach function is returned |
| NgoMesh.NgoMeshService.Detach | services/NGOMeshService.ts:48-50 | only that callback is removed |
| NgoMesh.NgoMeshService.HandleIncomingMessage | services/NGOMeshService.ts:53-63 | a seen id changes nothing; a new id is recorded first and then every callback runs once, whoever sent it (no echo check, no peer table) |
| NgoMesh.NgoMeshService.OnStorageEvent | services/NGOMeshService.ts:23-33 | without the handler, or for another key, a missing or empty value, or a value that does not parse, nothing changes; the next event is still processed |
| ReportServer.NewReport | server/server.js:41-51 | client id when supplied, else `report-<ms>`; defaults `general`, `''`, `Unknown`; empty photo or audio URL absent; unverified; urgency `Medium` |
| ReportServer.FindIndex | server/server.js:54 | the first index with that id, or none iff no record has it |
| ReportServer.AfterPost | server/server.js:54-64 | the collection after a POST: unchanged iff a record has the supplied id (or `''`), otherwise the new record in front of the unchanged older records; a supplied id is then present |
| ReportServer.WithoutId | server/server.js:27 | `filter(r => r.id !== id)`: no record with the id remains and every other record stays |
| ReportServer.WithoutIdKeepsOrder | server/server.js:27 | the records that survive a DELETE keep their stored order |
| ReportServer.DeleteShrinksIffPresent | server/server.js:24-35 | the list gets shorter iff some record has the id; otherwise it is returned unchanged |
| ReportServer.PostWithIdKeepsIdsUnique | server/server.js:54-64 | if every POST supplies an id, ids in the collection stay unique |
| ReportServer.PostWithIdIdempotent | server/server.js:54-62 | repeating a POST that carries an id leaves the collection as the first POST left it |
| ReportServer.GeneratedIdsAreNotChecked | server/server.js:42-54 | the duplicate check looks at the supplied id (or `''`), not the generated one: two id-less POSTs in one millisecond store two records with one id |
| ReportServer.ReportStore.constructor | server/server.js:8 | the collection starts empty |
| ReportServer.ReportStore.Get | server/server.js:19-21 | the whole collection in stored order, newest insert first |
| ReportServer.ReportStore.Delete | server/server.js:24-35 | removes every record with the id; answers `Deleted` iff the length decreased, else `NotFound` with the collection unchanged |
| ReportServer.ReportStore.Post | server/server.js:38-71 | a taken id returns the existing record and leaves the collection unchanged; otherwise exactly one new record is prepended and returned |
| ReportsView.CategoryType | components/ReportsView.tsx:26-28 | `water` gives a water issue, `power` a power issue, anything else general |
| ReportsView.MeshReport | components/ReportsView.tsx:20-33 | an item exactly for `REPORT_NEW` packets with an object payload: id `mesh-<messageId>`, message `location: message`, unverified, urgency Medium, payload timestamp if truthy else now |
| ReportsView.WithMeshPacket | components/ReportsView.tsx:19-35 | the item is prepended and the rest of the feed is unchanged; any other packet leaves the feed as it is |
| ReportsView.MeshIdsInjective | components/ReportsView.tsx:24 | the `mesh-` prefix keeps distinct message ids distinct |
| ReportsView.MeshPrependKeepsIdsUnique | components/ReportsView.tsx:24-35 | feed ids stay unique when the prepended item's message id has produced no item yet, which the service's dedup provides |
| ReportsView.SeenSetKeepsFeedIdsUnique | components/ReportsView.tsx:19-35 | if every mesh item of the feed came from a seen message id and a packet's id is not yet seen, prepending its item keeps feed ids unique and the correspondence holds for the grown seen-set |
| ReportsView.ReceiveStorageEvent | services/NGOMeshService.ts:23-60 | a storage event reaches the feed's callback iff the listener is installed, the event yields a packet, its id is new and the callback is registered (once, as the view subscribes once per mount); the feed then gets the packet's item, the form is untouched, and its ids stay unique under any sequence of events, repeats included |
| ReportsView.Toggled | components/ReportsView.tsx:136-142 | same length and order; only `isVerified` differs, and it is flipped iff the item has the id |
| ReportsView.ToggleTwiceRestores | components/ReportsView.tsx:136-142 | toggling the same id twice restores the feed |
| ReportsView.CompleteIffFilled | components/ReportsView.tsx:102 | a form passes iff neighbourhood, type and urgency are chosen and the description has a non-space character |
| ReportsView.ComplaintReport | components/ReportsView.tsx:107-117 | id `report-<ms>`, the chosen fields, the trimmed non-empty description, unverified, the chosen urgency |
| ReportsView.ReportsView.constructor | components/ReportsView.tsx:12-72 | the feed starts from the given reports and the form is empty |
| ReportsView.ReportsView.OnMeshPacket | components/ReportsView.tsx:19-35 | the feed becomes the packet's feed update; the form is untouched |
| ReportsView.ReportsView.ToggleVerification | components/ReportsView.tsx:136-142 | the feed becomes the toggled feed |
| ReportsView.ReportsView.ClearForm | components/ReportsView.tsx:124-134 | the form is reset to all-empty |
| ReportsView.ReportsView.SubmitComplaint | components/ReportsView.tsx:98-122 | accepted iff the form is complete; rejected: translated error, feed unchanged; accepted: the report is prepended and the form is cleared |
| Ussd.Step | Miyah-user/src/components/USSDSimulator.tsx:26-154 | `processUSSD` on a session and screen: it either changes nothing (the crash path) or clears the buffer; the invalid screen keeps state, selections and history; the service menu shows the name of a selected territory from the table; the end screen returns to the idle session |
| Ussd.TerritoryKeyIffInTable | Miyah-user/src/components/USSDSimulator.tsx:48-49 | `/^[1-6]$/` accepts exactly the keys of the territory table |
| Ussd.StepKeepsWellFormed | Miyah-user/src/components/USSDSimulator.tsx:26-154 | every step keeps a reachable session reachable: the selected territory is a table key, the history records the path, `MAIN_MENU` is never entered |
| Ussd.InvalidIffUnexpected | Miyah-user/src/components/USSDSimulator.tsx:151-153 | an input is refused iff the state does not expect it; a refused input keeps state, selections and history and clears the buffer |
| Ussd.AcceptedMoves | Miyah-user/src/components/USSDSimulator.tsx:28-149 | the whole session after each accepted input: `*122#` opens the territory menu, a digit selects a territory, `0` goes back, `1`/`2` choose water/electricity keeping the territory and extending the history, `#` exits |
| Ussd.SelectThenBackRoundTrip | Miyah-user/src/components/USSDSimulator.tsx:48-88 | selecting a territory and then `0` returns to the session the choice was made from |
| Ussd.UssdSimulator.constructor | Miyah-user/src/components/USSDSimulator.tsx:6-11 | IDLE, empty input, empty history, start prompt |
| Ussd.UssdSimulator.KeyPress | Miyah-user/src/components/USSDSimulator.tsx:13-16 | the key is appended to the input; nothing else changes |
| Ussd.UssdSimulator.Delete | Miyah-user/src/components/USSDSimulator.tsx:18-20 | the last character is dropped; empty input stays empty |
| Ussd.UssdSimulator.ProcessUssd | Miyah-user/src/components/USSDSimulator.tsx:26-154 | session and screen become the menu step for the input |
| Ussd.UssdSimulator.Send | Miyah-user/src/components/USSDSimulator.tsx:22-24 | the buffer is processed as one input |
| Ussd.UssdSimulator.Back | Miyah-user/src/components/USSDSimulator.tsx:156-169 | territory menu to IDLE; exactly like sending `0` on the service menu and the information screen; nothing when idle |
| I18n.TableFor | utils/i18n.ts:5 | an unknown language uses the English table |
| I18n.Lookup | utils/i18n.ts:6 | the table's text when present and non-empty; the key itself when the key is missing or its text is empty |
| I18n.GetTranslation | utils/i18n.ts:4-17 | the loop over the params computes the lookup with each param applied in turn |
| I18n.UseTranslation | utils/i18n.ts:19-22 | `t(key, params)` equals `getTranslation(lang, key, params)` for the fixed language |
| I18n.Translate | utils/i18n.ts:4-17 | `getTranslation`'s result; with no params it is the looked-up text, and the key itself when the table lacks it |
| I18n.UnknownLanguageIsEnglish | utils/i18n.ts:5 | a language the catalogue lacks translates exactly as English does, params included |
| I18n.UnmatchedParamsKeepText | utils/i18n.ts:9-13 | params whose placeholder does not occur leave the text unchanged |
| I18n.FirstPlaceholder | utils/i18n.ts:11 | for any param value, the text before the first `{name}` and everything after it (later occurrences included) stay verbatim, and the value goes through `replace`'s `$` patterns |
| I18n.FirstPlaceholderOnly | utils/i18n.ts:11 | a param value without `$` replaces only the first occurrence of `{name}` with the value itself; later occurrences stay literal |
| I18n.NumberParamVerbatim | utils/i18n.ts:11 | a numeric param is inserted as its decimal text |
| I18n.DollarParamIsInterpreted | utils/i18n.ts:11 | a string param goes through `replace`'s `$` patterns: `$&` puts the placeholder back |
| Text.Trim | components/ReportsView.tsx:102 | `trim` is no longer than its input and neither starts nor ends with JavaScript white space |
| Text.TrimEmptyIffBlank | components/ReportsView.tsx:102 | `!s.trim()` holds iff every character is JavaScript white space |
| Text.TrimIsInnerSlice | components/ReportsView.tsx:112 | the trimmed text is a slice of the input with only white space cut off on either side, and the slice neither starts nor ends with white space, so all of the leading and trailing white space is cut |
| Text.IntToString | utils/i18n.ts:11 | `String(n)` for an integer: a minus sign for negatives and the decimal digits, never a `$` |
| Text.IndexOf | utils/i18n.ts:11 | `indexOf`: the least index where the pattern occurs, or none iff it occurs nowhere |
| Text.Substitution | utils/i18n.ts:11 | `replace`'s replacement text: a dollar-free replacement is itself; `$&` is the matched text and `$$` a dollar sign |
| Text.ReplaceFirst | utils/i18n.ts:11 | `replace` with a string pattern returns the string unchanged when the pattern does not occur |
| Text.ReplaceFirstAt | utils/i18n.ts:11 | `replace` splices the expanded replacement in at the first occurrence and keeps the text before and after it verbatim |
| Text.ReplaceFirstOnly | utils/i18n.ts:11 | `replace` with a string pattern splices the replacement in at the first occurrence only |
| Text.Join | components/BroadcastsView.tsx:66 | `join`: no parts give the empty string and one part gives that part |
| Text.JoinSnoc | components/BroadcastsView.tsx:66 | joining one more part appends the separator and the part |
| Dashboard.SortByDays | components/DashboardView.tsx:18 | the result is sorted by days without water, non-increasing, missing as 0, and is a permutation of the input |
| Dashboard.SortByDaysStable | components/DashboardView.tsx:18 | neighbourhoods with equal days keep their relative order |
| Dashboard.AreasWithNoWater | components/DashboardView.tsx:16-18 | exactly the NO_WATER neighbourhoods with positive days, as a permutation of the filter, most days first |
| Dashboard.AreasWithContaminatedWater | components/DashboardView.tsx:20-22 | exactly the CONTAMINATED neighbourhoods, each as often as in the data, in data order (the `Filter` of the data) |
| Dashboard.PowerOutageCount | components/DashboardView.tsx:24-26 | the outage count is at most the number of neighbourhoods; `PowerOutageCountIsOffCount` ties it to the OFF statuses |
| Dashboard.PowerOutageCountIsOffCount | components/DashboardView.tsx:24-26 | the count equals the number of neighbourhoods whose power is OFF |
| Dashboard.WithWaterCount | components/DashboardView.tsx:140 | total minus no-water minus contaminated is between 0 and the total, because the two lists are disjoint |
| Dashboard.AttentionList | components/DashboardView.tsx:249-251 | exactly the neighbourhoods that are NO_WATER, CONTAMINATED, power OFF or at least 7 days without water, most days first |
| Dashboard.SummaryAreasNeedAttention | components/DashboardView.tsx:249-251 | every no-water and every contaminated neighbourhood is in the attention table |
| Dashboard.TimeAgoMessage | components/DashboardView.tsx:58-83 | the bucket by elapsed time: just now under a minute (and for the future), minutes, 1 hour, hours, 1 day, days, 1 week, weeks, then 30-day months and 365-day years |
| Dashboard.ZeroMonthsAgo | components/DashboardView.tsx:67-80 | 28 and 29 days give "0 months ago" |
| Dashboard.ZeroYearsAgo | components/DashboardView.tsx:68-82 | 360 to 364 days give "0 years ago" |
| Dashboard.TimeAgoIntended | components/DashboardView.tsx:58-83 | no bucket shows a count of 0; it agrees with the as-written chain outside the two windows |
| Dashboard.FormatTimeAgo | components/DashboardView.tsx:58-83 | the as-written bucket translated in the dashboard's language; under a minute it is the `time.justNow` text, and at 28 and 29 days it is the `time.monthsAgo` text with a count of 0 |
| Dashboard.FormatTimeAgoIntended | components/DashboardView.tsx:58-83 | the corrected bucket translated: it equals `FormatTimeAgo` outside the two windows, and at 28 and 29 days reads "4 weeks" |
| Broadcasts.FindById | components/BroadcastsView.tsx:66 | `find`: the first neighbourhood with the id, or none iff no neighbourhood has it |
| Broadcasts.AreaName | components/BroadcastsView.tsx:66 | the first matching neighbourhood's name when it is non-empty; the raw id when none matches or the name is empty |
| Broadcasts.AreaLabel | components/BroadcastsView.tsx:66 | the names joined by ", "; one area gives its name alone |
| Broadcasts.AreaLabelSnoc | components/BroadcastsView.tsx:66 | one more selected area appends ", " and its name |
| Broadcasts.NewBroadcast | components/BroadcastsView.tsx:62-67 | id `b-<ms>`, the ISO time, the area label, the trimmed non-empty message |
| Broadcasts.BroadcastsView.constructor | components/BroadcastsView.tsx:20-24 | nothing selected, empty message, not generating, no error, the initial history |
| Broadcasts.BroadcastsView.Select | components/BroadcastsView.tsx:28-31 | the selection becomes the chosen options |
| Broadcasts.BroadcastsView.EditMessage | components/BroadcastsView.tsx:118-120 | the message becomes the typed text; the box accepts typing only while no suggestion is in flight (`disabled={isGenerating}`) |
| Broadcasts.BroadcastsView.SuggestMessage | components/BroadcastsView.tsx:33-40 | with nothing selected: an error and no request; otherwise the error is cleared, a request is in flight and one is made |
| Broadcasts.BroadcastsView.SuggestionSettled | components/BroadcastsView.tsx:41-52 | a suggestion replaces the message; a failure shows the translated `error.gemini` text; `isGenerating` is false afterwards |
| Broadcasts.BroadcastsView.SendBroadcast | components/BroadcastsView.tsx:55-73 | no area or a blank message: error, history unchanged; otherwise one item is prepended and the selection and message are cleared |
| MeshControlPanel.AddLog | Miyah-user/src/components/MeshControlPanel.tsx:36-38 | the new entry first, at most 10 entries, the surviving older entries in order, the oldest dropped at 11 |
| MeshControlPanel.AddLogsKeepsNewestTen | Miyah-user/src/components/MeshControlPanel.tsx:36-38 | after any run of log calls the log is the ten newest entries, newest first |
| MeshControlPanel.MeshControlPanel.constructor | Miyah-user/src/components/MeshControlPanel.tsx:6-9 | disabled, no peers, empty log |
| MeshControlPanel.MeshControlPanel.Toggle | Miyah-user/src/components/MeshControlPanel.tsx:11-34 | enabling starts the service (marking its announcement seen when it was closed), subscribes once, sets the interval and logs; disabling unsubscribes, clears the interval, stops the service and logs, keeping the service's seen-set and peers |
| MeshControlPanel.MeshControlPanel.ReceivePacket | Miyah-user/src/components/MeshControlPanel.tsx:15-18 | a closed service changes nothing and invokes no one; an open one runs its inbound filter; the panel's callback runs iff it is enabled and the packet is a fresh foreign one, and it then logs the packet and refreshes the peers from `getPeers` |
| MeshControlPanel.MeshControlPanel.RefreshTick | Miyah-user/src/components/MeshControlPanel.tsx:20-23 | while the interval runs, the shown peers become `getPeers` |
| MeshControlPanel.MeshControlPanel.BroadcastTest | Miyah-user/src/components/MeshControlPanel.tsx:40-49 | while disabled neither the panel nor the service changes; otherwise one test `NEIGHBORHOOD_UPDATE` is broadcast, its id marked seen, and it is logged |

## Findings

| source | as written | input that shows it | evidently intended | confidence | as-written member | corrected member |
|---|---|---|---|---|---|---|
| components/DashboardView.tsx:67-82 | weeks stop at `weeks < 4` (28 days) but months start at 30 days; months stop at `months < 12` (360 days) but years start at 365 days | an age of 28 or 29 days shows "0 months ago"; 360 to 364 days shows "0 years ago" | the weeks bucket lasts until a month is reached, and the months bucket until a year is reached, so no count of 0 is shown | high (not executed) | Dashboard.ZeroMonthsAgo | Dashboard.TimeAgoIntended |

`Dashboard.TimeAgoMessage` is the chain as written, and `Dashboard.FormatTimeAgo`
translates it, as the dashboard does. `Dashboard.ZeroYearsAgo` shows the second
window. `Dashboard.FormatTimeAgoIntended` translates the corrected buckets.

## Left out

- Transports: `BroadcastChannel`, `window` storage events and `postMessage`.
  Posting is the `posted` log, and delivery is a method call.
- `JSON.parse` is the `parse` function the NGO listener is built with. A
  payload whose fields are not strings is outside the model.
- Callbacks are modelled as observers that do not throw and do not call back
  into the service. The model does not capture that a throwing callback
  stops the `forEach`. An example is the feed's callback on a `REPORT_NEW`
  with a `null` payload. The model says only that such a packet adds no
  item.
- Timers and promises: `setInterval`, `setTimeout`, the awaited AI request,
  React effects and rendering. The refresh interval is an explicit tick.
  The suggestion request is split into its synchronous part and its
  settlement.
- Notifications, `alert`, `console` output and `window.print`.
- Express, CORS, JSON bodies and HTTP status codes, and `/api/health`.
- The AI suggestion service, the mock data and the translation tables. The
  catalogue is a parameter that always has an English table.
- The USSD screen texts. The screen is a datatype: the start prompt, the
  menus, the service information for a territory and service, the invalid
  message and the session end. The per-territory service details are not
  modelled.
- `ReportsView` form field handlers other than clear and submit, and the
  photo and audio mocks. Field editing is direct assignment to the form.
- `String(v)` for non-integer numbers. Parameter values are strings or
  integers.
- Enumeration order of a params object. Parameters are a sequence in the
  order `for...in` visits them.
- Date parsing in `formatTimeAgo`. The function takes the elapsed
  milliseconds, so an unparsable timestamp (NaN) is not modelled.
- UI code outside the core: the map, layout, settings, language switcher,
  the user app's home, resources and request views, and the apps' roots.
- I18n.Lookup: the key's presence is modelled, not JavaScript prototype
  lookups such as a key named `constructor`.
