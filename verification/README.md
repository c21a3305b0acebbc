# EV charging stations: a Dafny model of the app's core

The app lists electric-vehicle charging stations near the user, as Open Charge
Map reports them. This project models the parts of it that decide things:

- the fetch orchestration of `ChargingStationsViewModel`. Every attempt is
  specified by the function `Attempt` over a snapshot of the published state.
  The class runs the same attempt step by step and is proved to reach exactly
  that state. Its inputs are the network reachability, what the location
  provider answers and what the service returns for a query;
- the one-shot location request of `LocationManager`, a class with one event
  method per delegate callback, per timeout task body and for `deinit`. Its
  invariant says that each request is resumed at most once, that a request is
  handed to the device at most once and only while it awaits, and that only the
  current timeout task is live;
- the display texts of a station (`title`, `subtitle`, `detailedAddress`,
  `coordinate`, `connectorSummary`);
- the Open Charge Map POI query, an ordered list of query items in the sense
  of section 3.4 of RFC 3986, and the single request `fetchStations` sends;
- how `NetworkClient` classifies the outcome of an exchange: the 2xx class of
  section 15.3 of RFC 9110, the catch clauses, decoding. The `httpError` and
  `invalidResponse` thrown inside the `do` block reach the caller wrapped in
  `.unknown(...)`, because the catch-all clause catches them. The model keeps
  this behaviour;
- the CoreData and SwiftData cache mappings and what a round trip through
  each of them keeps and loses.

A `Double` is opaque: a datatype over its 64-bit pattern that is only copied.
Its renderings (`String(_:)` and `cleanString`) are a function parameter of
type `DoubleFormatter`. Swift's `Int` is the 64-bit subset type `Int64`.
Rendering an `Int` as decimal text is defined in full and read back by a
parser (`Text.DecimalRoundTrip`).

Files:

- `wrappers.dfy`: `Option` and `Result`.
- `platform.dfy`: `Int64`, `Double`, `Date`, `Coordinate`, `Url`.
- `text.dfy`: joining and decimal text.
- `errors.dfy`: the error values and their descriptions.
- `network_client.dfy`, `station_model.dfy`, `open_charge_map_service.dfy`.
- `cd_cache.dfy`, `sd_cache.dfy`.
- `location_manager.dfy`, `view_model.dfy`.

## Model

| member | source | states |
|---|---|---|
| Text.Join | EVChargingStationsApp/Models/ChargingStationModel.swift:36 | `joined(separator:)`: no parts give "", one part gives itself, and the first part (followed by the separator when more follow) begins the result |
| Text.JoinEmptyIff | EVChargingStationsApp/Models/ChargingStationModel.swift:47 | a join of non-empty parts is empty exactly when there are no parts |
| Text.Digits | EVChargingStationsApp/Models/ChargingStationModel.swift:61 | the digits of a natural number form a numeral with no leading zero |
| Text.DecimalString | EVChargingStationsApp/Service/OpenChargeMapService.swift:94 | `String(Int)` is non-empty and starts with '-' exactly for a negative number |
| Text.NumeralValueOfDigits | EVChargingStationsApp/Service/OpenChargeMapService.swift:94 | the digits of n denote n |
| Text.DecimalRoundTrip | EVChargingStationsApp/Service/OpenChargeMapService.swift:94 | parsing the decimal text of any integer gives that integer back |
| Text.DecimalStringInjective | EVChargingStationsApp/Network/NetworkClient.swift:69 | different integers have different decimal texts |
| Errors.LocationErrorDescription | EVChargingStationsApp/LocationManager/LocationManager.swift:157-164 | each `LocationError` text is a sentence ending with a full stop |
| Errors.NetworkErrorDescription | EVChargingStationsApp/Network/NetworkClient.swift:66-74 | each `NetworkError` text opens with the two characters that tell its case |
| Errors.LocalizedDescription | EVChargingStationsApp/ViewModels/ChargingStationsViewModel.swift:136 | an app error's `localizedDescription` is never empty |
| Errors.HttpErrorDescriptionNamesStatus | EVChargingStationsApp/Network/NetworkClient.swift:69 | the `httpError` text embeds its status code, which can be read back from it |
| Errors.OnlyHttpErrorNamesStatus | EVChargingStationsApp/Network/NetworkClient.swift:66-74 | no `errorDescription` other than that of `httpError` begins with the status-code wording that the reader recognises |
| Errors.WrappedHttpErrorNamesStatus | EVChargingStationsApp/Network/NetworkClient.swift:69-73 | the text shown for a non-2xx status, which reaches the screen as `unknown(httpError)`, is "Unknown error: " followed by the `httpError` text, and the status code reads back from what follows that prefix |
| Errors.NetworkErrorDescriptionTellsKind | EVChargingStationsApp/Network/NetworkClient.swift:66-74 | equal `errorDescription` texts mean the same case, and the same status code for `httpError` |
| Errors.LocationErrorDescriptionInjective | EVChargingStationsApp/LocationManager/LocationManager.swift:157-164 | the four `LocationError` texts are pairwise different |
| NetworkClient.ExchangeBody | EVChargingStationsApp/Network/NetworkClient.swift:175-185 | the `do` block returns the bytes exactly for an HTTP response whose status is in 200...299, and throws otherwise |
| NetworkClient.Rewrap | EVChargingStationsApp/Network/NetworkClient.swift:186-191 | a `URLError` becomes `.urlError` of that same error, a `CancellationError` becomes `.cancelled`, and any other error is wrapped unchanged in `.unknown` |
| NetworkClient.RequestData | EVChargingStationsApp/Network/NetworkClient.swift:172-193 | a cancelled task gives `.cancelled`; success exactly for a 2xx HTTP response, with its bytes unchanged; a non-2xx status gives `.unknown(.httpError(code, data))`; a non-HTTP response gives `.unknown(.invalidResponse)`; URL and cancellation errors map to `.urlError` and `.cancelled` |
| NetworkClient.RequestDataNeverBareHttpError | EVChargingStationsApp/Network/NetworkClient.swift:177-191 | `requestData` never fails with a bare `httpError`, `invalidResponse` or `decodingError` |
| NetworkClient.CancelledIgnoresSession | EVChargingStationsApp/Network/NetworkClient.swift:174 | a cancelled task fails with `.cancelled` whatever the session would do |
| NetworkClient.Request | EVChargingStationsApp/Network/NetworkClient.swift:158-165 | a `requestData` failure passes through unchanged; decoding runs only on returned bytes; a decode failure becomes `.decodingError`, and only it does |
| NetworkClient.FailedExchangeIgnoresDecoder | EVChargingStationsApp/Network/NetworkClient.swift:158-165 | when the exchange fails, the result does not depend on the decoder |
| StationModel.FilledValues | EVChargingStationsApp/Models/ChargingStationModel.swift:41-46 | the conditional appends keep exactly the present, non-empty candidates: no empty part, empty exactly when no candidate is filled |
| StationModel.FilledValuesAppend | EVChargingStationsApp/Models/ChargingStationModel.swift:39-48 | the appends keep the candidates' order |
| StationModel.PresentValues | EVChargingStationsApp/Models/ChargingStationModel.swift:58-61 | a connection's appends keep the present values and only them: every present candidate's value is a part, every part comes from a present candidate, and the result is empty exactly when none is present |
| StationModel.Title | EVChargingStationsApp/Models/ChargingStationModel.swift:26 | `title` is the address title when present, even if empty, and "Unknown location" otherwise |
| StationModel.Subtitle | EVChargingStationsApp/Models/ChargingStationModel.swift:28-37 | a filled town begins `subtitle`; with town, state and postcode all missing or empty and a filled first line, `subtitle` is that line |
| StationModel.SubtitleParts | EVChargingStationsApp/Models/ChargingStationModel.swift:28-36 | the filled town, state and postcode in order; the first address line only when all three are missing or empty; never an empty part |
| StationModel.SubtitleEmptyIff | EVChargingStationsApp/Models/ChargingStationModel.swift:28-37 | `subtitle` is "" exactly when town, state, postcode and first line are all missing or empty |
| StationModel.SubtitleSingle | EVChargingStationsApp/Models/ChargingStationModel.swift:30-35 | with only the town filled, `subtitle` is the town |
| StationModel.DetailedAddress | EVChargingStationsApp/Models/ChargingStationModel.swift:39-48 | a filled first address line begins `detailedAddress` |
| StationModel.DetailedAddressEmptyIff | EVChargingStationsApp/Models/ChargingStationModel.swift:39-48 | `detailedAddress` is "" exactly when all six candidates are missing or empty |
| StationModel.DetailedPartsOrder | EVChargingStationsApp/Models/ChargingStationModel.swift:39-48 | the parts are the address lines, then town, state and postcode, then the country title |
| StationModel.StationCoordinate | EVChargingStationsApp/Models/ChargingStationModel.swift:50-53 | present exactly when latitude and longitude both are, and then made of them |
| StationModel.ConnectorSummary | EVChargingStationsApp/Models/ChargingStationModel.swift:55-56 | "No connector data" when connections are missing or empty |
| StationModel.ConnectorSummaryFirstTwo | EVChargingStationsApp/Models/ChargingStationModel.swift:57-64 | otherwise the labels of the first one or two connections, joined by " — " |
| StationModel.ConnectionLabel | EVChargingStationsApp/Models/ChargingStationModel.swift:57-63 | a label begins with the type title when there is one, else with the power in kW when there is one; with none of the three fields it is "" |
| StationModel.PresentValuesAppend | EVChargingStationsApp/Models/ChargingStationModel.swift:58-62 | the present values of two lists in a row are those of the first followed by those of the second |
| StationModel.ConnectionLabelOrder | EVChargingStationsApp/Models/ChargingStationModel.swift:58-62 | for every connection, the label joins with " • " the type title, the power in kW and the quantity, in that order, each only when present, so a missing field is skipped |
| StationModel.ConnectionLabelAllFields | EVChargingStationsApp/Models/ChargingStationModel.swift:58-62 | with all three fields present, the label is type title, " • ", power in kW, " • ", quantity followed by "x" |
| StationModel.EmptyConnectionGivesEmptySummary | EVChargingStationsApp/Models/ChargingStationModel.swift:56-64 | a single connection with none of those fields gives an empty summary, not "No connector data" |
| StationModel.TextsOfCachedShape | EVChargingStationsApp/Models/ChargingStationModel.swift:28-48 | for a station rebuilt from a cache row, `subtitle` is the cached subtitle, or the cached detailed address when that is empty; `detailedAddress` joins the two |
| OpenChargeMapService.RequiredItems | EVChargingStationsApp/Service/OpenChargeMapService.swift:91-96 | four items: key with the API key, output=json, maxresults whose value reads back as the cap, verbose=false |
| OpenChargeMapService.PoiQuery | EVChargingStationsApp/Service/OpenChargeMapService.swift:91-106 | the first four items are key, output=json, maxresults, verbose=false; one more item for each optional argument given |
| OpenChargeMapService.PoiUrl | EVChargingStationsApp/Service/OpenChargeMapService.swift:84-108 | the appends build the URL `base` + "/poi" with the query above |
| OpenChargeMapService.FetchStations | EVChargingStationsApp/Service/OpenChargeMapService.swift:57-71 | exactly one GET request, for the POI URL, with no headers and no body; the client's result is returned unchanged |
| OpenChargeMapService.RequiredNames | EVChargingStationsApp/Service/OpenChargeMapService.swift:91-96 | no required item is named latitude, longitude or distance |
| OpenChargeMapService.OptionalItemsPresentIff | EVChargingStationsApp/Service/OpenChargeMapService.swift:97-105 | each optional item is present exactly when its argument is given, independently of the others, and carries the formatted argument |
| OpenChargeMapService.OptionalItemsOrdered | EVChargingStationsApp/Service/OpenChargeMapService.swift:97-106 | the optional items follow the required ones in the order latitude, longitude, distance, none twice |
| OpenChargeMapService.QueryWithoutLocation | EVChargingStationsAppTests/Tests/OpenChargeMapServiceTests.swift:76-89 | without the optional arguments the query is exactly the four required items |
| OpenChargeMapService.MaxResultsReadsBack | EVChargingStationsApp/Service/OpenChargeMapService.swift:94 | the maxresults item reads back as the requested cap |
| CDCache.StoredRow | EVChargingStationsApp/DataModels/CDCachedChargingStation+Extension.swift:33-47 | the row keeps the station's id, title, subtitle, detailed address and summary and the clock reading; its latitude and longitude are the station's coordinate, or 0.0 and 0.0 without one |
| CDCache.RowToDomain | EVChargingStationsApp/DataModels/CDCachedChargingStation+Extension.swift:11-31 | `toDomain` gives no uuid, no connections, no state, postcode or country, and always a coordinate, made of the row's latitude and longitude |
| CDCache.CDCachedChargingStation.ToDomain | EVChargingStationsApp/DataModels/CDCachedChargingStation+Extension.swift:11-31 | the rebuilt station has the object's id, no uuid and no connections; its address title is the stored title, its first line the stored detailed address, its town the stored subtitle; its coordinate is the stored latitude and longitude |
| CDCache.CDCachedChargingStation.FromDomain | EVChargingStationsApp/DataModels/CDCachedChargingStation+Extension.swift:33-47 | a new object whose attributes are the station's id, texts and summary, its coordinate or (0.0, 0.0), and the clock reading |
| CDCache.RoundTripKeepsIdAndTitle | EVChargingStationsApp/DataModels/CDCachedChargingStation+Extension.swift:11-39 | a round trip keeps id and title |
| CDCache.RoundTripCoordinate | EVChargingStationsApp/DataModels/CDCachedChargingStation+Extension.swift:20-43 | a round trip always yields a coordinate: the original one, or (0.0, 0.0) |
| CDCache.RoundTripLosesConnectors | EVChargingStationsApp/DataModels/CDCachedChargingStation+Extension.swift:29-44 | after a round trip the summary is "No connector data" |
| CDCache.RoundTripTexts | EVChargingStationsApp/DataModels/CDCachedChargingStation+Extension.swift:15-41 | after a round trip `subtitle` is the original subtitle, or the original detailed address when that subtitle was empty |
| SDCache.FromDomain | EVChargingStationsApp/DataModels/SDCachedChargingStation+Extension.swift:37-50 | the record keeps the station's id, title, subtitle, detailed address and summary and the clock reading; latitude and longitude are stored exactly when the station has a coordinate, and then are that coordinate |
| SDCache.ToDomain | EVChargingStationsApp/DataModels/SDCachedChargingStation+Extension.swift:15-35 | no uuid or connections, and no state, postcode or country; the title is the stored title, the detailed address goes to the first address line and the subtitle to the town; latitude and longitude are copied as stored, a missing one staying missing |
| SDCache.RoundTripKeepsIdAndTitle | EVChargingStationsApp/DataModels/SDCachedChargingStation+Extension.swift:15-44 | a round trip keeps id and title |
| SDCache.RoundTripKeepsCoordinate | EVChargingStationsApp/DataModels/SDCachedChargingStation+Extension.swift:24-46 | a round trip keeps the coordinate, including its absence |
| SDCache.RoundTripLosesConnectors | EVChargingStationsApp/DataModels/SDCachedChargingStation+Extension.swift:33-47 | after a round trip the summary is "No connector data" |
| SDCache.RoundTripTexts | EVChargingStationsApp/DataModels/SDCachedChargingStation+Extension.swift:19-44 | after a round trip `subtitle` is the original subtitle, or the original detailed address when that subtitle was empty |
| LocationManager.LocationManager.constructor | EVChargingStationsApp/LocationManager/LocationManager.swift:27-32 | nothing awaits, nothing has been asked of the device, and the invariant holds |
| LocationManager.LocationManager.CurrentLocation | EVChargingStationsApp/LocationManager/LocationManager.swift:41-67 | while a request awaits: `requestAlreadyInProgress`, nothing changes; refused authorization: `authorizationDenied`, nothing changes; otherwise a new awaiting request, an authorization prompt when undetermined, and a device request and timeout only when authorized |
| LocationManager.LocationManager.StartRequestingLocation | EVChargingStationsApp/LocationManager/LocationManager.swift:69-88 | the awaiting request is handed to the device and a timeout task is armed for it, only if that has not happened yet |
| LocationManager.LocationManager.CompleteContinuationIfPresent | EVChargingStationsApp/LocationManager/LocationManager.swift:90-106 | resumes the awaiting request once, never overwrites an earlier outcome, clears the pending state and cancels the timeout; with nothing awaiting, no outcome changes |
| LocationManager.LocationManager.LocationsDelivered | EVChargingStationsApp/LocationManager/LocationManager.swift:112-118 | resumes with the first location's coordinate, or `unableToDetermineLocation` for an empty list |
| LocationManager.LocationManager.FailedWithError | EVChargingStationsApp/LocationManager/LocationManager.swift:120-122 | resumes with CoreLocation's error |
| LocationManager.LocationManager.AuthorizationChanged | EVChargingStationsApp/LocationManager/LocationManager.swift:124-146 | refused: the awaiting request fails with `authorizationDenied`; granted: an awaiting request not yet handed to the device is handed to it; undetermined: nothing else changes |
| LocationManager.LocationManager.TimeoutTaskFinishes | EVChargingStationsApp/LocationManager/LocationManager.swift:82-87 | a task only ever fails the request it was armed for, with `timeout`; a live task fails the still-awaiting request; a cancelled task does nothing; the task is retired, and the status, the accepted and started requests and the calls to the device stay as they were |
| LocationManager.LocationManager.TimeoutTaskFinishesAsWritten | EVChargingStationsApp/LocationManager/LocationManager.swift:82-87 | any task body, cancelled or not, fails whatever request awaits with `timeout`, clears the pending state and cancels the current timeout task; the status, the accepted and started requests and the calls to the device stay as they were |
| LocationManager.LocationManager.Deinit | EVChargingStationsApp/LocationManager/LocationManager.swift:34-39 | an awaiting request fails with `unableToDetermineLocation` |
| LocationManager.StaleTimeoutAsWritten | EVChargingStationsApp/LocationManager/LocationManager.swift:82-87 | a cancelled timeout task of an answered request fails the next request with `timeout` |
| LocationManager.StaleTimeoutCorrected | EVChargingStationsApp/LocationManager/LocationManager.swift:82-87 | with cancelled tasks doing nothing, the next request still awaits |
| ChargingStationsViewModel.OnlineQuery | EVChargingStationsApp/ViewModels/ChargingStationsViewModel.swift:89-114 | coordinates only when a location was wanted and obtained; the distance and result cap always |
| ChargingStationsViewModel.AttemptLog | EVChargingStationsApp/ViewModels/ChargingStationsViewModel.swift:55-112 | offline: no collaborator is called; online: the location provider when a location is wanted, then exactly one service call |
| ChargingStationsViewModel.Attempt | EVChargingStationsApp/ViewModels/ChargingStationsViewModel.swift:44-139 | an attempt ends not loading, offline exactly when unreachable, with the selection kept and the screen invariant holding |
| ChargingStationsViewModel.FirstWithId | EVChargingStationsApp/ViewModels/ChargingStationsViewModel.swift:153-155 | nothing exactly when no station has the id; otherwise the earliest station with it |
| ChargingStationsViewModel.FirstWithIdOfAppend | EVChargingStationsApp/ViewModels/ChargingStationsViewModel.swift:153-155 | a lookup in two lists finds the match in the first before the second |
| ChargingStationsViewModel.ChargingStationsViewModel.constructor | EVChargingStationsApp/ViewModels/ChargingStationsViewModel.swift:27-38 | an empty screen with distance 20 and at most 100 results |
| ChargingStationsViewModel.ChargingStationsViewModel.FetchChargingStations | EVChargingStationsApp/ViewModels/ChargingStationsViewModel.swift:44-76 | the new screen is `Attempt` of the old one, and the calls made are `AttemptLog` |
| ChargingStationsViewModel.ChargingStationsViewModel.RetryWithoutLocation | EVChargingStationsApp/ViewModels/ChargingStationsViewModel.swift:79-83 | a no-location attempt: the screen is `Attempt` with `useLocation` false |
| ChargingStationsViewModel.ChargingStationsViewModel.PerformOnlineFetch | EVChargingStationsApp/ViewModels/ChargingStationsViewModel.swift:89-114 | one service call with `OnlineQuery`, after asking for a location when one is wanted |
| ChargingStationsViewModel.ChargingStationsViewModel.GetChargingStations | EVChargingStationsApp/ViewModels/ChargingStationsViewModel.swift:116-139 | success: the list is the answer and the message is cleared; failure: an empty list and the error's description |
| ChargingStationsViewModel.ChargingStationsViewModel.StationWithId | EVChargingStationsApp/ViewModels/ChargingStationsViewModel.swift:153-155 | nothing exactly when no listed station has the id; otherwise the earliest listed station with that id |
| ChargingStationsViewModel.ChargingStationsViewModel.SelectStation | EVChargingStationsApp/ViewModels/ChargingStationsViewModel.swift:142-144 | only the selection changes |
| ChargingStationsViewModel.RetryOfferedIff | EVChargingStationsApp/ViewModels/ChargingStationsViewModel.swift:68-71 | the retry button is shown exactly when an online location-based attempt got an empty list |
| ChargingStationsViewModel.NoMessageIff | EVChargingStationsApp/ViewModels/ChargingStationsViewModel.swift:68-137 | no message exactly when the service answered and the answer is not an empty list for a location-based attempt |
| ChargingStationsViewModel.OnlineListIsServiceAnswer | EVChargingStationsApp/ViewModels/ChargingStationsViewModel.swift:129-138 | online, the list is the service's answer, or empty with the error's description; no cache is consulted |
| ChargingStationsViewModel.OfflineKeepsList | EVChargingStationsApp/ViewModels/ChargingStationsViewModel.swift:55-61 | offline, the previous list stays |
| ChargingStationsViewModel.AttemptForgetsPreviousMessages | EVChargingStationsApp/ViewModels/ChargingStationsViewModel.swift:49-52 | an attempt depends on the previous screen only through its list and selection |
| ChargingStationsViewModel.FailedLocationFallsBack | EVChargingStationsApp/ViewModels/ChargingStationsViewModel.swift:101-109 | a failed location gives the generic query |
| ChargingStationsViewModel.LocationErrorNeverShown | EVChargingStationsApp/ViewModels/ChargingStationsViewModel.swift:101-109 | which location error occurred makes no difference to the screen |
| ChargingStationsViewModel.GenericFetchOffersNoRetry | EVChargingStationsApp/ViewModels/ChargingStationsViewModel.swift:68-83 | an attempt without location, such as the retry, never offers the retry again |

## Left out

- Task cancellation in the view model (`currentLoadTask`, `cancelLoading`) is Swift concurrency. Each attempt is modelled as running to completion before the next event. The code does not check for cancellation after its awaits, so no "last call wins" property is claimed.
- `isLoading` is true only while an attempt runs. Attempts are atomic in the model, so only its final `false` is visible.
- The view model as written has no cache fallback: a failed fetch empties the list. The view-model tests build a variant with a persistence argument, which is not part of this model.
- `NetworkMonitor` is not part of this model. Reachability is a boolean input to each attempt.
- `PersistenceController` is not part of this model. Saving, loading and the CoreData context are not modelled. `CDCachedChargingStation.constructor` leaves the entity's default attribute values unspecified.
- The `stateQueue` locking, the detached timer tasks and the calls into `CLLocationManager` are concurrency and foreign API. They are modelled as event methods and recorded calls (`deviceRequests`, `authorizationPrompts`).
- LocationManager.LocationManager.CurrentLocation: reads the authorization status once, where the source reads it at line 47 and again at line 62; a change between the two reads is not modelled.
- The 10-second timeout length is not modelled. A timeout is the event of a task body running.
- `URLSession`, `NetworkRequestBuilder.makeRequest`/`jsonBody` and the synthesized JSON decoding are not modelled. The session's outcome and the decoder are inputs.
- `URLComponents` percent-encoding and URL serialisation are not modelled. A URL is its path and its list of query items.
- `String(Double)` and `cleanString` (`Double+Extensions.swift`) are left abstract as a `DoubleFormatter` parameter, because they are floating-point formatting.
- The clock reading `Date()` in `lastUpdated` is a parameter.
- Views, the app entry point and `Item.swift` are user interface or template code.
- The `OperatorInfo` and `UsageType` records are not decoded by the modelled code.
- A CoreData row not written by `fromDomain`, for example one with nil string attributes, is not modelled: a row's strings are always present.
- The SwiftData record is a class in the source; it is modelled as a value, because its mapping functions only construct and read it.

## Findings

| source | as written | input that shows it | evidently intended | confidence | as-written member | corrected member |
|---|---|---|---|---|---|---|
| EVChargingStationsApp/LocationManager/LocationManager.swift:82-87 | `try? await Task.sleep` also returns when the timeout task is cancelled, so a cancelled task still fails whatever request is awaiting at that moment with `timeout` (the same body is repeated at lines 138-143) | authorized; request 0 is answered by a location, which cancels its timeout task; request 1 is accepted and handed to the device before that cancelled task is scheduled; the task then fails request 1 with `timeout` at once | a cancelled timeout task does nothing, and a request times out only through the task armed for it | medium, not executed; it depends on request 1 being registered before the cancelled task runs | LocationManager.StaleTimeoutAsWritten | LocationManager.LocationManager.TimeoutTaskFinishes |
