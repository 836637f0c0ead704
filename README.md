# Taxometr location and route core, modelled in Dafny

This project models the decision and formatting logic of the Taxometr trip-fare
application's location layer: the `LocationHelper` class and the route-URL
builder of `RoadProvider`. The Android platform around it (the location
manager, the geocoder, threads and futures, notices shown to the user) is
replaced by plain inputs: optional values, lists, booleans, and datatypes
that say how a wait on a background task ended.

Modules, one per concern of the two source files:

- `Wrappers`: `Option` (Java `null`) and `Result` (a value or the exception thrown instead).
- `MicroDegrees`: degrees to the integer micro-degrees of a map `GeoPoint`
  (`getGeoPoint`), the sentinel `DEFAULT_LOCATION`, `getLastKnownPoint`, and the
  micro-degrees-to-degrees division of `getAddressStringByGeoPoint`. Doubles
  are exact reals; the `(int)` cast follows section 5.1.3 of the Java Language
  Specification (round toward zero, saturate at the 32-bit bounds).
- `AddressRendering`: `getAddressString` as the source's loop over a string
  accumulator, its specification `Render`, and the closed form of what it builds.
- `LocationUpdates`: a `LocationManager` class whose subscription list
  `requestLocationUpdates` appends to, and `isGpsAvailable`.
- `Geocoding`: the first-result rule of `getGeoPointByAddressString` and
  `GetLocationByGeoPointTask.call`, the outcome mapping of
  `getAddressByCoordinates`, and `getAddressStringByCoordinates` (see Findings).
- `RoadProvider`: `getUrl` as a method appending eleven pieces, the layout of
  the URL it builds, and the split of its query back into fields.

Two behaviours of the code a reader might not expect, which the model keeps:

- Address rendering does not drop empty lines. Only the lines before the first
  non-empty line disappear; a later empty line still gets its `", "`
  (`["A", "", "C"]` renders as `"A, , C"`).
- When the five-second wait of `getAddressByCoordinates` times out, the task is
  not cancelled. Only an interruption cancels it.

## Model

| member | source | states |
|---|---|---|
| `MicroDegrees.TruncateTowardZero` | Main/src/main/java/ua/com/taxometr/helpers/LocationHelper.java:67-68 | the result is the integer part of its input: for a non-negative input it lies in (x-1, x], for a negative one in [x, x+1) |
| `MicroDegrees.JavaIntCast` | Main/src/main/java/ua/com/taxometr/helpers/LocationHelper.java:67-68 | the Java `(int)` cast: truncation inside the 32-bit range, `Integer.MAX_VALUE` at or above 2^31, `Integer.MIN_VALUE` at or below -2^31-1 |
| `MicroDegrees.TruncationBounds` | Main/src/main/java/ua/com/taxometr/helpers/LocationHelper.java:66-69 | truncation is within one unit of the exact value, never larger in magnitude, and keeps the sign of a non-zero input |
| `MicroDegrees.TruncationUnique` | Main/src/main/java/ua/com/taxometr/helpers/LocationHelper.java:67-68 | any integer with those bounds and that sign is the truncation: the conversion never rounds |
| `MicroDegrees.GetGeoPoint` | Main/src/main/java/ua/com/taxometr/helpers/LocationHelper.java:66-70 | for a valid fix each component is the truncation of the coordinate times a million |
| `MicroDegrees.TruncatesExample` | Main/src/main/java/ua/com/taxometr/helpers/LocationHelper.java:66-70 | (30.9999995, -50.0000006) becomes (30999999, -50000000) |
| `MicroDegrees.GetLastKnownPoint` | Main/src/main/java/ua/com/taxometr/helpers/LocationHelper.java:79-88 | no cached fix gives exactly `DEFAULT_LOCATION`, which is (30300000, 50270000); a cached fix gives its conversion, within one micro-degree of it when valid |
| `MicroDegrees.GeoPointRoundTrip` | Main/src/main/java/ua/com/taxometr/helpers/LocationHelper.java:171-172 | `ToLocation`, the division of a map point's micro-degrees by a million, is undone by `getGeoPoint`: converting back gives the same point (over exact reals) |
| `MicroDegrees.LocationRoundTripIsLossy` | Main/src/main/java/ua/com/taxometr/helpers/LocationHelper.java:171-172 | converting a valid fix to micro-degrees and back loses less than one micro-degree per coordinate, toward zero |
| `AddressRendering.ReadLines` | Main/src/main/java/ua/com/taxometr/helpers/LocationHelper.java:150-151 | reading lines 0..n-1 gives `getAddressLine(i)` at position i, `None` where the address has no line |
| `AddressRendering.GetAddressString` | Main/src/main/java/ua/com/taxometr/helpers/LocationHelper.java:145-160 | the loop over lines 0, 1, 2 returns `Render(address)` |
| `AddressRendering.RenderLinesIsJoin` | Main/src/main/java/ua/com/taxometr/helpers/LocationHelper.java:150-157 | what the loop builds equals the present lines, in order, with leading empty lines removed, joined by ", " |
| `AddressRendering.NullAddressIsEmpty` | Main/src/main/java/ua/com/taxometr/helpers/LocationHelper.java:147-149 | a null address renders as "" |
| `AddressRendering.OnlyFirstThreeLinesRead` | Main/src/main/java/ua/com/taxometr/helpers/LocationHelper.java:150-151 | addresses that agree on lines 0, 1 and 2 render alike |
| `AddressRendering.RenderJoinsPresentLines` | Main/src/main/java/ua/com/taxometr/helpers/LocationHelper.java:150-158 | when every present line is non-empty, the result is those lines joined by ", " with no leading or trailing separator |
| `AddressRendering.RenderEmptyIff` | Main/src/main/java/ua/com/taxometr/helpers/LocationHelper.java:150-159 | the result is empty exactly when no present line among the first three is a non-empty string |
| `AddressRendering.MissingLineSkipped` | Main/src/main/java/ua/com/taxometr/helpers/LocationHelper.java:152 | ["A", null, "C"] renders as "A, C": an absent line is skipped with its separator |
| `AddressRendering.EmptyLineKept` | Main/src/main/java/ua/com/taxometr/helpers/LocationHelper.java:152-156 | ["A", "", "C"] renders as "A, , C": empty lines are not skipped |
| `AddressRendering.EmptyFirstLineAddsNoSeparator` | Main/src/main/java/ua/com/taxometr/helpers/LocationHelper.java:153-155 | ["", "B"] renders as "B": a separator appears only after something was written |
| `LocationUpdates.LocationManager.GetProvider` | Main/src/main/java/ua/com/taxometr/helpers/LocationHelper.java:219 | defines the stand-in for the platform's `getProvider(name)`: a provider exactly for a known name, carrying that name (see `getName()` under Left out); nothing here is proved about the source |
| `LocationUpdates.LocationManager.RequestLocationUpdates` | Main/src/main/java/ua/com/taxometr/helpers/LocationHelper.java:221-222 | the manager appends exactly the requested subscription and changes nothing else |
| `LocationUpdates.PlannedSubscriptions` | Main/src/main/java/ua/com/taxometr/helpers/LocationHelper.java:215-232 | at most two subscriptions, all with 3000 ms, 10 m and the given listener, no provider twice; the best provider first when it exists; network among them iff it exists and a best provider was named |
| `LocationUpdates.RequestLocationUpdates` | Main/src/main/java/ua/com/taxometr/helpers/LocationHelper.java:208-233 | a null manager gives the notice and no subscription; otherwise the manager's list grows by exactly the planned subscriptions; a null best provider ends in an exception with nothing subscribed |
| `LocationUpdates.NetworkAddedUnlessBest` | Main/src/main/java/ua/com/taxometr/helpers/LocationHelper.java:225-232 | with both providers present: one subscription when the best provider is network, two otherwise |
| `LocationUpdates.IsGpsAvailable` | Main/src/main/java/ua/com/taxometr/helpers/LocationHelper.java:241-252 | true iff the GPS feature is declared, a manager is obtained, and GPS or network is enabled; false whenever the feature flag is false |
| `LocationUpdates.GpsAvailableMonotone` | Main/src/main/java/ua/com/taxometr/helpers/LocationHelper.java:251 | enabling more providers never makes GPS unavailable |
| `Geocoding.GetGeoPointByAddressString` | Main/src/main/java/ua/com/taxometr/helpers/LocationHelper.java:184-200 | a geocoder exception is rethrown; an empty list fails with "No address found"; a `null` list lets `isEmpty()`'s `NullPointerException` escape; it succeeds exactly on a non-empty list, with the `getGeoPoint` conversion of element 0 (addresses are taken to carry both coordinates, see Left out) |
| `Geocoding.FirstResultWins` | Main/src/main/java/ua/com/taxometr/helpers/LocationHelper.java:188-192 | results after the first never change the point |
| `Geocoding.AddressPointTruncates` | Main/src/main/java/ua/com/taxometr/helpers/LocationHelper.java:197-199 | for a valid coordinate, `Double.intValue()` of the scaled coordinate is within one micro-degree of it |
| `Geocoding.GetLocationByGeoPointTask` | Main/src/main/java/ua/com/taxometr/helpers/LocationHelper.java:277-285 | the task returns element 0 of a non-empty reply; an empty reply throws an index error; a `null` reply throws `NullPointerException`; a geocoder exception is rethrown |
| `Geocoding.Await` | Main/src/main/java/ua/com/taxometr/helpers/LocationHelper.java:104-113 | the future delivers the task's value, or its own exception wrapped as a failure, when the task finished, and nothing but interruption or timeout otherwise |
| `Geocoding.GetAddressByCoordinates` | Main/src/main/java/ua/com/taxometr/helpers/LocationHelper.java:99-115 | an address comes back only on normal completion and is the task's; interruption, failure and timeout give null; only interruption cancels the task |
| `Geocoding.AddressByCoordinatesEndToEnd` | Main/src/main/java/ua/com/taxometr/helpers/LocationHelper.java:101-114 | an address comes back iff the task finished in time and the geocoder returned a non-empty list, and it is that list's element 0; a `null` list, like an empty one, ends in null |
| `Geocoding.AddressStringByCoordinatesAsWritten` | Main/src/main/java/ua/com/taxometr/helpers/LocationHelper.java:125-138 | as written, the call returns only when interrupted, and then returns "" |
| `Geocoding.AsWrittenNeverReturnsAnAddress` | Main/src/main/java/ua/com/taxometr/helpers/LocationHelper.java:127-137 | as written, no non-empty address string is ever returned |
| `Geocoding.AsWrittenCounterexample` | Main/src/main/java/ua/com/taxometr/helpers/LocationHelper.java:127-130 | a geocoder answering "Main St" is never heard: without interruption no return, with one "" |
| `Geocoding.AddressStringByCoordinates` | Main/src/main/java/ua/com/taxometr/helpers/LocationHelper.java:125-138 | with the task started, an uninterrupted wait on a non-empty reply returns the rendering of its element 0; every failure gives "" |
| `RoadProvider.GetUrl` | Main/src/main/java/ua/com/taxometr/routes/RoadProvider.java:42-57 | the eleven appends give `RouteUrl`, whose length is the sum of the eleven pieces' lengths; no failure case |
| `RoadProvider.UrlLayout` | Main/src/main/java/ua/com/taxometr/routes/RoadProvider.java:45-55 | the URL starts with `http://maps.google.com/maps?f=d&hl=`, then the language verbatim, `&saddr=` and `Fmt(fromLat),Fmt(fromLon)`, `&daddr=` and `Fmt(toLat),Fmt(toLon)`, and ends with `&ie=UTF8&0&om=0&output=kml` |
| `RoadProvider.SplitJoinRoundTrip` | Main/src/main/java/ua/com/taxometr/routes/RoadProvider.java:45-55 | splitting at '&' undoes joining with '&' when no field holds one |
| `RoadProvider.UrlFieldsInOrder` | Main/src/main/java/ua/com/taxometr/routes/RoadProvider.java:45-55 | split at '&', the URL gives its eight query fields in their fixed order with the language and both points recovered, when none of them holds an '&' |

## Left out

- `RoadProvider.getRoute`: it hands the stream to the platform SAX parser and a `KMLHandler`, which are not part of this model, so neither the parse nor its "log and return what the handler holds" policy is modelled.
- Threads and futures: the thread that runs the task, the five-second bounded wait, and what `cancel(true)` does to the running task. How the wait ended is an input (`WaitEnd`). The model only records whether the method asks for cancellation.
- `getAddressStringByGeoPoint`: only its division of micro-degrees by a million (`ToLocation`) is modelled. It then calls `getAddressStringByCoordinates`, covered under Findings.
- `isInternetPresent`: a thin wrapper over the connectivity service.
- Logging and the "GPS not available" notice. The notice appears only as the `GpsNotAvailableNotice` outcome.
- The platform services are inputs. The best provider chosen for fine accuracy is a field of the manager. The cached last fix is an `Option`. The geocoder's reply is a list, `null`, or the message of the `IOException` it threw. The enabled providers are a set. The language is a parameter, not read from the device configuration.
- `LocationProvider.getName()` is taken to return the name the provider was looked up by.
- IEEE-754 doubles: the products by a million and the `DEFAULT_LOCATION` constant are computed over exact reals. NaN is not modelled, although Java's cast sends it to 0.
- `Double.toString` is the parameter `fmt`. The model assumes nothing about it, except that `UrlFieldsInOrder` requires its four outputs to contain no '&'.
- `GoogleMapActivity`: user-interface lifecycle, not part of this model.
- `MicroDegrees.GetGeoPoint`: its contract speaks only of valid coordinates. Out-of-range products saturate as `JavaIntCast` states.
- `MicroDegrees.GeoPointRoundTrip`, `MicroDegrees.LocationRoundTripIsLossy`: the division by a million at LocationHelper.java:171-172 and the product back are exact in the model, so the round trip holds of the model but not of Java doubles, where `(int)((k / 1e6) * 1e6)` can be k - 1 (k = 249 gives 248.99999999999997, which casts to 248).
- `Geocoding.GetGeoPointByAddressString`: geocoder addresses are taken to carry both coordinates. On Android, `Address.getLatitude()` and `getLongitude()` throw `IllegalStateException` for an address given no coordinate, so at LocationHelper.java:197-198 such an element 0 makes that exception escape uncaught. The geocoder's `IllegalArgumentException` for a `null` address string, which also escapes the call at line 188, is not represented either: the address string is not an input of the model.
- `Geocoding.GetAddressByCoordinates`: logging is taken never to throw. The timeout and interruption paths log `e.getMessage()` with `Log.d` (LocationHelper.java:108, 112 and 133). The exceptions `FutureTask.get` raises there may carry no message, and Android's `Log.d` rejects a null message with a `NullPointerException`. On a device these paths may therefore throw rather than return null, and the as-written `getAddressStringByCoordinates` may throw on interruption rather than return "". Android's logging is not part of this model.

## Findings

| source | as written | input that shows it | evidently intended | confidence | as-written member | corrected member |
|---|---|---|---|---|---|---|
| Main/src/main/java/ua/com/taxometr/helpers/LocationHelper.java:127-130 | the `FutureTask` is created but never started, so `get()` blocks until the caller is interrupted, and the method can only return "" | any coordinates, with a geocoder that would answer "Main St": the call never returns | start the task as `getAddressByCoordinates` does, then render the address it produced | not executed | `Geocoding.AddressStringByCoordinatesAsWritten` | `Geocoding.AddressStringByCoordinates` |
