# EV charging app — a verified model of its decision logic

This project models, in Dafny, the decision logic of a React front end for
electric-vehicle charging. The app has five parts:

- **Charging session controller** (`charging_modal.dfy`, module `ChargingModal`).
  - It is a four-phase state machine: pre-charging, charging, post-charging, error.
  - Loading validates the wallet stored under `mockWallet` and looks up the scanned connector.
  - `startCharging` is guarded on the connector's availability.
  - A one-second meter tick derives energy, cost and a candidate wallet balance. It rejects any tick that would make the balance negative.
  - `stopCharging` freezes the session, and `resetWallet` restores 1000 ETB.
  - Energy is kept in hundredths of a kWh and money in hundredths of an ETB. After `t` seconds the session holds `t` hundredths of a kWh and costs `15·t` hundredths of an ETB.
- **QR scanner** (`qr_scan.dfy`, module `QrScan`).
  - It models the page's flags (`isScanning`, `cameraReady`, `scannedData`, `error`), the stream and the set of live camera tracks.
  - It covers the re-entry guard of `startScanner`, camera-error classification, the frame-size checks and fatal versus silent decoder errors.
  - It covers cleanup, which is idempotent, and unmounting.
  - It covers `validateQR`'s correlation of the scanned ids with the page's query, and the delayed navigation.
  - Each asynchronous browser event is its own method.
- **Charging detail route** (`charging_detail.dfy`, module `ChargingDetail`).
  - The station id comes from the path, or else from the `siteId` query parameter; the connector id comes from `gunId`.
  - The page shows the modal or the scan prompt.
  - The path the scanner navigates to parses back into the scanned pair.
- **Station finder** (`home.dfy`, module `Home`): the search and filter predicate, the recent-search list, the favourites toggle, the filter indicator and the guard on starting a charge.
- **Sign-up / sign-in form** (`auth.dfy`, module `Auth`): validation order, the request each mode sends, how status codes map to navigation or errors, and the keys stored on sign-in.
- **Scroll-driven navigation bar** (`scroll_nav.dfy`, module `ScrollNav`). It is shared by `BottomNav.jsx` and `TabBar.jsx`, whose handlers are identical. The bar hides when scrolling down past 50 px and shows again when scrolling up.

Shared helpers:

- `wrappers.dfy` holds `Option`.
- `text.dfy` holds JavaScript truthiness of an optional string, ASCII lower-casing, substring search, splitting at a character and the UTF-16 length that `.length` reports.

Inputs stand in for browser and network calls:

- the station and QR validation replies;
- the session backend's start and stop replies, or their exceptions;
- the camera's stream or error;
- the video frame size;
- decoder results and errors;
- the scroll position;
- the clock (the start time and the elapsed seconds of a tick).

## Model

| member | source | states |
|---|---|---|
| ChargingModal.FindGun | src/components/ChargingModal.jsx:39-45 | the connector is found exactly when some gun has the id, and it is the first such gun |
| ChargingModal.WalletOnLoad | src/components/ChargingModal.jsx:52-56 | a stored balance is kept exactly when it is a number ≥ 0, otherwise 1000.00 ETB; a missing entry reads as 1000.00; an entry on which reading throws yields no balance |
| ChargingModal.TickDecision | src/components/ChargingModal.jsx:80-92 | a tick is accepted exactly when the candidate balance is ≥ 0 (0 itself is accepted); cost is 15 × energy; candidate plus cost is the balance the tick saw |
| ChargingModal.Step | src/components/ChargingModal.jsx:79-101 | a halted meter stays as it is; an unhalted meter halts exactly when the balance it sees is below 15 × elapsed, and then keeps balance and session; otherwise the new balance is the balance it saw minus 15 × elapsed, with energy = elapsed and cost = 15 × energy |
| ChargingModal.RunTicks | src/components/ChargingModal.jsx:78-110 | the meter after the interval fired at each given time, with the wallet re-read after every tick: cost = 15 × energy, and a run that never halted holds the energy of its latest tick |
| ChargingModal.RunTicksBounds | src/components/ChargingModal.jsx:80-100 | over any sequence of ticks the balance stays between 0 and the starting balance, and cost = 15 × energy at every observation |
| ChargingModal.RunTicksNonIncreasing | src/components/ChargingModal.jsx:84-110 | the balance observed after a run is never above the balance after any prefix of it |
| ChargingModal.HaltIsFinal | src/components/ChargingModal.jsx:86-92 | once a tick is rejected, later firings change nothing |
| ChargingModal.AsWrittenDebit | src/components/ChargingModal.jsx:84-110 | as written, n uninterrupted seconds debit 15 × (1 + … + n) hundredths, since each tick charges the whole session again |
| ChargingModal.IntendedRunConservesMoney | src/components/ChargingModal.jsx:80-84 | with the corrected tick, balance + cost equals the starting balance and the balance never goes negative |
| ChargingModal.IntendedRun | src/components/ChargingModal.jsx:80-84 | the corrected meter, which debits the session cost from the starting balance: cost = 15 × energy, and a run that never halted holds the energy of its latest tick |
| ChargingModal.IntendedDebit | src/components/ChargingModal.jsx:80-84 | with the corrected tick, n uninterrupted seconds cost exactly 15 × n hundredths |
| ChargingModal.CumulativeDebitOvercharges | src/components/ChargingModal.jsx:84-110 | from 1000.00 ETB, two ticks leave 999.55 as written against 999.70 intended; 100 s leave 242.50 as written against 985.00 intended |
| ChargingModal.SmallWalletHaltsEarly | src/components/ChargingModal.jsx:84-92 | from 10.00 ETB the meter as written halts at the 12th second, the corrected one at the 67th |
| ChargingModal.Controller.constructor | src/components/ChargingModal.jsx:32-61 | the load effect: station reply and gun lookup, "Connector not found." or "Failed to fetch station details.", wallet validation written back to storage, and the error phase when reading the wallet throws |
| ChargingModal.Controller.StartCharging | src/components/ChargingModal.jsx:112-139 | an unavailable connector enters the error phase with session and wallet untouched; a 200 reply starts a fresh session (0, 0, now, active) in the charging phase; other replies and exceptions enter the error phase; the wallet is never touched |
| ChargingModal.Controller.Tick | src/components/ChargingModal.jsx:75-110 | the controller's meter moves exactly as `Step`: nothing happens outside the charging phase; a rejection enters the error phase with "Insufficient wallet balance."; an accepted tick stores and persists the candidate and marks the session active |
| ChargingModal.Controller.StopCharging | src/components/ChargingModal.jsx:141-159 | energy, cost and wallet are kept; success completes the session and enters post-charging; failures enter the error phase with their messages |
| ChargingModal.Controller.ResetWallet | src/components/ChargingModal.jsx:161-166 | the wallet and its stored entry become 1000.00 ETB, and nothing else changes |
| ChargingModal.Controller.Close | src/components/ChargingModal.jsx:207-215 | the close button resets the wallet and leads to "/"; phase, session, error, station and connector stay as they were |
| QrScan.CameraErrorMessage | src/pages/QRScan.jsx:191-197 | NotAllowedError gives the denied message, NotFoundError the no-camera message, any other error "Failed to access camera: " followed by its message |
| QrScan.DetailPath | src/pages/QRScan.jsx:245 | the navigation path is "/charging-detail/" then the site id, "?gunId=" and the gun id |
| QrScan.Correlate | src/pages/QRScan.jsx:228-247 | a scan is rejected exactly when both query ids are present and either differs from the scanned ids; otherwise it proceeds to the detail path of the scanned ids |
| QrScan.MatchingScanProceeds | src/pages/QRScan.jsx:228-240 | a scan agreeing with whatever query ids are present always proceeds |
| QrScan.IsSilentDecodeError | src/pages/QRScan.jsx:164-168 | the four names after which decoding silently continues; the plain FormatException and ChecksumException names are not among them |
| QrScan.Scanner.constructor | src/pages/QRScan.jsx:8-15 | a mounted page with all flags clear, no stream and no live tracks |
| QrScan.Scanner.StopTracks | src/pages/QRScan.jsx:51 | the loop stops every track of the stream and no other |
| QrScan.Scanner.Cleanup | src/pages/QRScan.jsx:38-60 | afterwards no scan, no readiness, no result, no stream, the decoder reset and the video detached; the stream's tracks are stopped |
| QrScan.Scanner.CleanupTwice | src/pages/QRScan.jsx:38-60 | cleaning up twice ends in the same state as cleaning up once |
| QrScan.Scanner.StartScanner | src/pages/QRScan.jsx:62-77 | it starts exactly when no scan runs, no non-empty result is held (an empty one is falsy) and the page is mounted, and otherwise changes nothing; a held stream is stopped and dropped before the camera is requested |
| QrScan.Scanner.CameraAcquired | src/pages/QRScan.jsx:85-131 | a stream arriving after unmount is stopped at once; a missing video element stops it and shows "Video element unavailable…"; otherwise the stream is attached and the handlers are armed; in each case every field not named stays as it was |
| QrScan.Scanner.CameraFailed | src/pages/QRScan.jsx:189-199 | the classified message is shown and scanning stops; every field not named stays as it was |
| QrScan.Scanner.MetadataLoaded | src/pages/QRScan.jsx:107-121 | the camera becomes ready only when both dimensions are positive; otherwise "Camera stream not ready…", cleanup, and every track of the held stream stopped; in each case every field not named stays as it was |
| QrScan.Scanner.CanPlay | src/pages/QRScan.jsx:131-188 | the one-shot listener disarms itself; a zero dimension shows the not-ready error, cleans up and stops the held tracks; otherwise the decoder starts, or its failure is shown; in each branch every field not named stays as it was |
| QrScan.Scanner.DecodeCallback | src/pages/QRScan.jsx:149-179 | a result is stored, clears the scan flags and stops the decoder; the four silent error names change nothing; any other error shows "Scanning error: …" and stops scanning; every field not named stays as it was |
| QrScan.Scanner.ValidateScan | src/pages/QRScan.jsx:217-266 | only a non-empty held scan on a mounted page is validated; a valid code then either schedules the detail path or, on a query mismatch, drops the scan with the mismatch message; a failed or raised validation drops the scan with its message; camera, video and decoder state stay as they were |
| QrScan.Scanner.NavigationDue | src/pages/QRScan.jsx:242-247 | the delayed navigation happens exactly when the page is still mounted |
| QrScan.Scanner.Retry | src/pages/QRScan.jsx:296-301 | the retry button clears error, flags and scan, then starts the scanner exactly when mounted, stopping the held tracks; every field not named stays as it was |
| QrScan.Scanner.Unmount | src/pages/QRScan.jsx:210-214 | after unmounting everything is released and every held track is stopped; the error and a pending camera request stay as they were |
| ChargingDetail.ParseTarget | src/pages/ChargingDetail.jsx:7-9 | a "#" fragment is cut off first; the rest splits at its first "?" into pathname and search, which concatenate back to it |
| ChargingDetail.FragmentIgnored | src/pages/ChargingDetail.jsx:7-9 | a fragment appended to a target changes neither its pathname nor its search |
| ChargingDetail.RouteId | src/pages/ChargingDetail.jsx:6 | the `:id` segment exists exactly when the pathname is "/charging-detail/" (in that letter case) plus a non-empty segment without "/" |
| ChargingDetail.Params | src/pages/ChargingDetail.jsx:9 | the query splits at "&" into name/value pairs: no name holds "=" or "&", and no value holds "&" |
| ChargingDetail.QueryRoundTrip | src/pages/ChargingDetail.jsx:9 | a query built by joining `name=value` pieces with "&" parses back to exactly those pairs, in order, when names are non-empty and no name or value holds a separator |
| ChargingDetail.Get | src/pages/ChargingDetail.jsx:9-11 | a query parameter is found exactly when some pair has the name, and its value is that of the first such pair |
| ChargingDetail.SiteId | src/pages/ChargingDetail.jsx:10 | the path id when it is non-empty, otherwise the `siteId` query parameter |
| ChargingDetail.GunId | src/pages/ChargingDetail.jsx:11 | the connector id comes only from the query: absent exactly when no pair is named gunId, otherwise a gunId pair's value |
| ChargingDetail.DetailView | src/pages/ChargingDetail.jsx:21-36 | the modal is shown exactly when both ids are present and non-empty, and it receives exactly those ids; otherwise the scan prompt |
| ChargingDetail.Open | src/pages/ChargingDetail.jsx:6-36 | a target shows this page exactly when its pathname matches the detail route, and then shows the view for the route id and the search |
| ChargingDetail.Leave | src/pages/ChargingDetail.jsx:13-19 | the scan prompt's button leads to "/qr-scan", and closing the modal leads to "/" |
| ChargingDetail.SingleParam | src/pages/ChargingDetail.jsx:9-11 | the query "?name=value" parses to the single pair (name, value) |
| ChargingDetail.ScannedPathRoundTrip | src/pages/ChargingDetail.jsx:10-11 | for ids made of letters and digits, the path the scanner navigates to opens the modal for exactly the scanned pair |
| ChargingDetail.MissingGunShowsPrompt | src/pages/ChargingDetail.jsx:21-34 | without a non-empty `gunId` the scan prompt is shown, whatever the path id |
| Text.Lower | src/pages/Home.jsx:203 | lower-casing keeps the length and maps each character on its own |
| Text.Contains | src/pages/Home.jsx:206-207 | `includes`: the empty string is in every string, and a contained string is never longer |
| Text.ContainsIffOccurs | src/pages/Home.jsx:206-207 | `includes` holds exactly when the search text occurs at some index |
| Home.ApplyFilters | src/pages/Home.jsx:202-215 | a station is listed exactly when it matches the search and passes the gun type, power and availability filters |
| Home.Keep | src/pages/Home.jsx:205-213 | the four-way filter predicate; with cleared filters it reduces to the search match |
| Home.FilterKeepsOrder | src/pages/Home.jsx:204 | the filtered list is a subsequence of the stations, in their order |
| Home.ClearedKeepsAll | src/pages/Home.jsx:240-244 | an empty search with cleared filters lists every station |
| Home.StricterNeverAdds | src/pages/Home.jsx:209-212 | a raised power threshold, or a gun type or availability set, lists a subsequence of what the looser filter lists |
| Home.FiltersActive | src/pages/Home.jsx:298 | the indicator is off for the cleared filters, and over non-negative powers it is off only for them |
| Home.Without | src/pages/Home.jsx:192 | removing an item keeps exactly the other elements |
| Home.WithoutKeepsOrder | src/pages/Home.jsx:192 | removing an item keeps the other elements in their order |
| Home.PrefixOfSubsequence | src/pages/Home.jsx:192 | cutting an order-preserving selection to its first entries keeps it order-preserving |
| Home.Dedup | src/pages/Home.jsx:192 | the result is distinct and has the same elements |
| Home.DedupHead | src/pages/Home.jsx:192 | removing duplicates keeps the first element first |
| Home.DedupOfDistinct | src/pages/Home.jsx:192 | a list without duplicates comes back unchanged |
| Home.WithoutOfDistinct | src/pages/Home.jsx:192 | removing an item from a list without duplicates leaves it without duplicates |
| Home.UpdateHistory | src/pages/Home.jsx:189-194 | the query heads the history, the entries are distinct, there are 1 to 5 of them, and each is the query or an earlier entry |
| Home.HistoryKeepsOlderEntries | src/pages/Home.jsx:192 | after the query come the earlier entries minus the query, in their old order, cut to fit five; they form a subsequence of the previous history |
| Home.ToggleFavorite | src/pages/Home.jsx:246-250 | the id becomes a favourite exactly when it was not one, and every other id keeps its status |
| Home.ToggleTwice | src/pages/Home.jsx:246-250 | toggling twice restores membership, and restores the list itself when the id was absent |
| Home.WithoutAppended | src/pages/Home.jsx:248 | removing an id that was just appended restores the list |
| Home.StartCharging | src/pages/Home.jsx:258-272 | a gun that is not available is refused with the alert and no navigation; an available one leads to "/charging-detail/" plus the gun id |
| Home.HomeStartLandsOnScanPrompt | src/pages/Home.jsx:271 | for any gun id that is one path segment (such as "DC-001") and does not start with "#", that navigation carries no `gunId`, so the detail page shows the scan prompt |
| Home.StationFinder.constructor | src/pages/Home.jsx:8-19 | empty lists and search, cleared filters, favourites [1], empty history |
| Home.StationFinder.LoadStations | src/pages/Home.jsx:130-131 | both lists become the loaded stations, which agrees with the filter while nothing is searched or filtered |
| Home.StationFinder.HandleSearch | src/pages/Home.jsx:189-194 | the lowercased input becomes the search and heads the history, and the list is filtered again |
| Home.StationFinder.SelectRecent | src/pages/Home.jsx:319 | a recent item becomes the search and the list is filtered again; the history is kept |
| Home.StationFinder.ChangeFilter | src/pages/Home.jsx:196-200 | one filter field changes and the list is filtered again with the current search |
| Home.StationFinder.ClearFilters | src/pages/Home.jsx:240-244 | the filters are cleared and the list is filtered again; with an empty search every station is listed |
| Home.StationFinder.ToggleFavoriteOf | src/pages/Home.jsx:246-250 | the favourites become the toggled list, and nothing else changes |
| Auth.ValidateSignup | src/pages/Auth.jsx:27-36 | sign-up passes exactly when the passwords match and are at least 8 UTF-16 code units long; a mismatch is reported before the length |
| Text.Utf16Length | src/pages/Auth.jsx:32 | `.length` counts one or two code units per character, exactly one each when all lie in the Basic Multilingual Plane |
| Auth.LengthCountsCodeUnits | src/pages/Auth.jsx:32 | four characters outside the Basic Multilingual Plane pass the length check, seven ordinary ones do not |
| Auth.RequestFor | src/pages/Auth.jsx:27-58 | sign-in always sends phone and password; sign-up sends phone, names and password (never the confirmation) exactly when validation passes; any other mode sends nothing |
| Auth.SignupOutcome | src/pages/Auth.jsx:47-53 | 201 leads to the sign-in page, 409 reports the taken phone number, anything else the generic sign-up failure |
| Auth.SigninOutcome | src/pages/Auth.jsx:59-67 | 200 leads to the profile page, anything else reports invalid credentials |
| Auth.RaisedMessage | src/pages/Auth.jsx:69-71 | a raised request shows the server's message when non-empty, otherwise the generic message |
| Auth.AuthPage.constructor | src/pages/Auth.jsx:6-17 | the form starts without an error and without navigating |
| Auth.AuthPage.Submit | src/pages/Auth.jsx:23-72 | the error is cleared first; a rejected sign-up sends nothing and shows its message; sign-in 200 stores token, refreshToken and user, marks the user authenticated and goes to the profile; any other reply sets its error and stores nothing |
| ScrollNav.NextVisible | src/components/BottomNav.jsx:39-61 | scrolling down past 50 px hides the bar, scrolling up shows it, anything else keeps it as it was (the tab bar's handler, `TabBar.jsx` lines 41-67, is the same) |
| ScrollNav.HiddenIffDownSinceLastUp | src/components/BottomNav.jsx:34-70 | after any scroll sequence the bar is hidden exactly when some event scrolled down past 50 px and no later one scrolled up |
| ScrollNav.StaysVisibleBelowThreshold | src/components/TabBar.jsx:41 | scroll positions never above 50 px keep the bar visible |
| ScrollNav.ScrollNavBar.constructor | src/components/BottomNav.jsx:17-19 | the bar starts visible, at position 0, with the entry animation not yet played |
| ScrollNav.ScrollNavBar.EntryAnimation | src/components/TabBar.jsx:22-32 | the entry animation plays only the first time, and its flag is never cleared |
| ScrollNav.ScrollNavBar.HandleScroll | src/components/BottomNav.jsx:35-63 | visibility follows `NextVisible`, the last position becomes y, and the slide animation runs exactly on a change of visibility |

## Left out

- ChargingModal.Controller: the controller keeps the code's meter, `RunTicks`, which debits the cumulative cost from the already-debited balance (see Findings). `IntendedRun` is the corrected one, under which 100 s from 1000.00 ETB leave 985.00 ETB.
- ChargingModal.Controller.Tick: the floating-point `toFixed(2)` rounding is not modelled. With whole seconds, integer hundredths are exact.
- ChargingModal.Controller: timers are not modelled. `setInterval` is a call to `Tick` with the elapsed seconds, and `Date.now()` is the `now` parameter. The mock station and session replies are inputs, and `console` logging is dropped.
- ChargingModal.RunTicksBounds: elapsed seconds are natural numbers, so the model assumes the clock never runs backwards. `Date.now()` is a wall clock, and a negative elapsed time would give a negative cost and a rising balance; the same holds for `RunTicksNonIncreasing`.
- ChargingModal.WalletOnLoad: JSON parsing is not modelled. The stored entry arrives already classified as absent, unreadable, a number or not a number.
- QrScan.Scanner: `getUserMedia`, the ZXing decoder and the video element's events are replaced by their outcomes, passed as parameters. Timing and interleaving are whatever order the methods are called in.
- QrScan.Scanner.CanPlay: it models the single listener registered by the latest start; listeners left over from earlier starts are not modelled.
- QrScan.Scanner.ValidateScan: the `startScanner` call in the mismatch and failure branches is not modelled. Its closure still holds the old scan, so its guard returns at once.
- QrScan.Scanner.NavigationDue: the two-second delay is not modelled. The timer's firing is a separate call.
- ChargingDetail.RouteId: route matching is case-sensitive, a trailing "/" is rejected, and `:id` is not percent-decoded. React Router matches "/CHARGING-DETAIL/123" and "/charging-detail/123/" (id "123") and decodes the id; the app's own navigation targets never take these forms.
- ChargingDetail.Open: query values are not percent-decoded and "+" is not read as a space. Router matching is reduced to the `/charging-detail/:id` pattern declared in `App.jsx`, which is not part of this model.
- Home.HomeStartLandsOnScanPrompt: it assumes that setting `window.location.hash` reaches the `/charging-detail/:id` route, which holds under hash-based routing. The router wrapper is not part of this model, and under path-based routing the assignment would not change the route.
- Text.Lower: it lower-cases ASCII letters only. Unicode case mapping is not modelled.
- Home.StartCharging: the balance check uses the page's fixed stand-in balance of 100 against a minimum of 10, so the recharge branch cannot occur. The confirmation alert is a returned string.
- Home: Google Maps, markers and their visibility loop, and geolocation are not modelled; they are foreign browser APIs. So are the list/map toggle, the filter panel toggle and the gun-detail tabs, which only change what is rendered.
- Auth.AuthPage.Submit: the network call is replaced by its reply, passed as a parameter. The form's field updates (`handleInputChange`) and the mode switch link are not modelled. The user object is stored as the JSON text the reply carries.
- ScrollNav.NextVisible: `window.scrollY` is a fractional number of pixels in the browser; the model takes scroll positions as integers. The rule only compares positions with each other and with the 50 px threshold, so the outcome is the same for any positions whose order and threshold sides agree.
- ScrollNav.ScrollNavBar: gsap animations become the returned `Animation` value. Re-registering the listener on each visibility change is not modelled; it reads the current state, as the model does.
- Rendering, framer-motion and gsap animation are not modelled. Neither are `api.js` (the axios client and its token refresh), `App.jsx`, `Sidebar.jsx`, `Profile.jsx`, or the static Record, Contact and About pages.

## Findings

| source | as written | input that shows it | evidently intended | confidence | as-written member | corrected member |
|---|---|---|---|---|---|---|
| src/components/ChargingModal.jsx:84 | The interval is re-created on every wallet change (line 110). Each tick then subtracts the whole session's cost from the already-debited balance. | From 1000.00 ETB, ticks at 1 s and 2 s leave 999.55 ETB instead of 999.70. After 100 s the wallet shows 242.50 ETB for 1.00 kWh (15.00 ETB). From 10.00 ETB charging halts at 12 s instead of 67 s. | The balance is the starting balance minus the session's cost, so balance + cost stays constant (985.00 ETB after 100 s). | high, not executed | ChargingModal.CumulativeDebitOvercharges | ChargingModal.IntendedRunConservesMoney |
