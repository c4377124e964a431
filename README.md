# rnpedal ride recorder, ride review, session store and navigation shell — a Dafny model

rnpedal is a React Native app that records bike rides as GPS trails, stores
them in a Supabase backend and shows saved rides on a map. This project
models the four pieces of it that have behaviour worth stating, with the
backend, device storage, geolocation and permission APIs replaced by
parameters and small state-holding classes:

- **Ride recorder** (`ride_tracker.dfy`, module `RideTracking`). A class
  `RideTracker` holds the `tracking` flag, the trail `positions`, the saved
  `rideId`, the held watch handle `watchId` and whether the app-lifecycle
  listener is registered. A class `Geolocation` stands for the platform's
  watch registry (`watchPosition` / `clearWatch`). It keeps a ghost `peak`:
  the largest number of watches that were ever active at once. The
  recorder's invariant `Valid()` ties `watchId` to the registry and demands
  `peak <= 1`, so no two watches are ever active together. Pure functions
  give the `[longitude, latitude]` encoding of the trail, the GeoJSON
  LineString Feature (RFC 7946, sections 3.1.4 and 3.2), the inserted ride
  record with its timestamp fallbacks, and the permission decision.
- **Ride review** (`ride_detail.dfy`, module `RideDetail`).
  `getRouteCoordinates` is a filter (`ValidCoords`) followed by a map
  (`ToLatLngs`). Lemmas show that the filter keeps order, that malformed
  entries are dropped without disturbing the rest, and that re-projecting
  the recorder's encoding gives back the trail. The screen's load effect is
  a class `RideDetailScreen` with `ride` and `loading` fields.
- **Session store** (`auth_provider.dfy`, module `Auth`). The pure
  transitions `Restored`, `Authenticated` and `SignedOut` act on an
  `AuthState`: user, session, loading flag and the value persisted under
  the key `'session'`. The class `AuthProvider` performs them step by step,
  and each of its methods is proved equal to its transition. Memory and
  storage are shown to stay in agreement.
- **Navigation shell** (`app.dfy`, module `AppShell`). `RootNavigator` maps
  `(loading, user)` to a screen set and an initial route.
  `RequestAllPermissions` is the launch-time permission check. Lemmas
  connect both to the session store and to the recorder.

Shared shapes live in `geojson.dfy` (numbers, JSON entries, Feature,
points), `device.dfy` (platform, permission answers, alerts) and
`wrappers.dfy` (Option, Result).

Modelling conventions:
- A JavaScript number used as a coordinate is `Num`: a finite real, NaN or
  one of the two infinities. `Number.isFinite` is `IsFinite`.
- Timestamps and the two `Date.now()` readings of end-ride (one for the
  start time, one for the end time) are integers supplied by the caller.
  The `||` fallback of each time therefore fires on an empty trail or on a
  timestamp of 0, and takes its own reading.
- An alert (`Alert.alert`) is a returned `Notice`. Sign-in and sign-up
  throw plain strings (src/components/AuthProvider.tsx:44, 47, 59, 62);
  such a throw is `Outcome.Thrown` carrying the string. The callback `onRideEnd` is the returned `reported`
  value: `None` when it is not called.
- The React effect on `tracking` runs only when `tracking` actually
  changes, and it runs after the handler that changed it. It is folded into
  `HandleStartRide` and `HandleEndRide`. Its cleanup is `Cleanup`.
- App-lifecycle events reach `OnAppStateChange` only while the listener is
  registered. The platform's permission answers and the backend's answers
  are parameters.

## Model

| member | source | states |
|---|---|---|
| `RideTracking.EncodeRoute` | src/components/RideTracker.tsx:139 | the encoded trail has one position per sample, in trail order, and position i is `[longitude_i, latitude_i]` |
| `RideTracking.TrailPath` | src/components/RideTracker.tsx:190 | the trail's map points: one per sample, in order, point i is `{latitude_i, longitude_i}` |
| `RideTracking.BuildRecord` | src/components/RideTracker.tsx:134-151 | the record belongs to the user, has distance 0 and is not live; its route is a `Feature` with a `LineString` whose coordinates are the trail encoded 1:1; start and end times are the first and last sample timestamps, each falling back on its own clock reading when the trail is empty or that timestamp is 0 |
| `RideTracking.RequestLocationPermissions` | src/components/RideTracker.tsx:20-39 | recording may proceed iff the platform is not Android or fine, coarse and background location are all GRANTED; iOS, and only iOS, raises the background-location notice |
| `RideTracking.Geolocation.WatchPosition` | src/components/RideTracker.tsx:65-81 | a watch starts under a handle never used before, with the given options; the peak count of simultaneous watches is updated |
| `RideTracking.Geolocation.ClearWatch` | src/components/RideTracker.tsx:86 | exactly the given watch stops; handles are not reused |
| `RideTracking.RideTracker.constructor` | src/components/RideTracker.tsx:15-18 | a fresh recorder is idle, with an empty trail, no saved ride id and no watch |
| `RideTracking.RideTracker.StopLocationWatch` | src/components/RideTracker.tsx:84-89 | afterwards no watch is held or active; without a held handle nothing at all changes (`clearWatch` is not called), so stopping is idempotent |
| `RideTracking.RideTracker.StartLocationWatch` | src/components/RideTracker.tsx:64-82 | called only with no watch held, it leaves exactly one active watch, with a fresh handle and the platform's foreground profile |
| `RideTracking.RideTracker.OnPosition` | src/components/RideTracker.tsx:66-69 | a delivered sample is appended at the end of the trail, and earlier entries are unchanged; nothing else changes |
| `RideTracking.RideTracker.OnLocationError` | src/components/RideTracker.tsx:70-72 | a capture error raises a "Location Error" alert with its message and changes no state |
| `RideTracking.RideTracker.Cleanup` | src/components/RideTracker.tsx:57-60 | the effect cleanup leaves no watch held or active and the listener removed; the trail, flag and ride id are untouched |
| `RideTracking.RideTracker.HandleStartRide` | src/components/RideTracker.tsx:126-130 | start-ride empties the trail and clears the ride id; the effect it triggers (lines 43-52) then leaves the recorder tracking iff permission was granted, and then with exactly one new foreground watch under the next unused handle, and otherwise not tracking, with no watch, no watch handle spent and the denial alert; starting while already tracking starts no second watch |
| `RideTracking.RideTracker.OnAppStateChange` | src/components/RideTracker.tsx:91-124 | on Android, background and active both replace the held watch by exactly one new watch, under the next unused handle, with the background or foreground profile, with the stop first so that at most one watch is ever active; on iOS background only raises a notice; nothing else changes any watch |
| `RideTracking.RideTracker.HandleEndRide` | src/components/RideTracker.tsx:132-160 | the inserted record is built from the trail and the two clock readings; afterwards the trail is empty, tracking is off and no watch is active, no watch is opened along the way, whether the insert failed or not; on success the ride id becomes the first returned id (or none) and the callback receives it (or `''`); on failure the id is kept, the callback is not called and an "Error saving ride" alert is raised |
| `RideTracking.AtMostOneWatch` | src/components/RideTracker.tsx:91-115 | whenever the recorder's invariant holds, at most one location watch is active |
| `RideDetail.ValidCoords` | src/screens/RideDetailScreen.tsx:40 | the filter keeps an entry iff it is a two-element array of finite numbers, never lengthens the input, and keeps only such entries |
| `RideDetail.ToLatLngs` | src/screens/RideDetailScreen.tsx:41 | every kept entry `[a, b]` becomes the point `{latitude: b, longitude: a}`, one point per entry, in order |
| `RideDetail.RouteCoordinates` | src/screens/RideDetailScreen.tsx:37-42 | no points when the route data, its geometry or its coordinates are missing; otherwise exactly the filtered-then-swapped stored entries, never more points than stored entries; every point has finite latitude and longitude |
| `RideDetail.ValidCoordsAppend` | src/screens/RideDetailScreen.tsx:39-40 | the filter distributes over concatenation, so the relative order of the kept entries is the input order |
| `RideDetail.ValidCoordsKeepsAll` | src/screens/RideDetailScreen.tsx:40 | an input made only of well-formed entries passes the filter unchanged |
| `RideDetail.ToLatLngsAppend` | src/screens/RideDetailScreen.tsx:41 | the map step distributes over concatenation |
| `RideDetail.MalformedEntryDropped` | src/screens/RideDetailScreen.tsx:39-41 | a malformed entry (a NaN component, a three-element array, a non-array) is dropped and the points before and after it are kept in order |
| `RideDetail.ReprojectEncodedRoute` | src/screens/RideDetailScreen.tsx:39-41 | re-projecting the recorder's encoding of any trail gives the trail's points with the non-finite samples removed, in order |
| `RideDetail.RoundTrip` | src/screens/RideDetailScreen.tsx:39-41 | for a trail of finite samples, the route data of the record built at end-ride re-projects to exactly the trail's `(latitude, longitude)` sequence, one point per sample |
| `RideDetail.RideDetailScreen.constructor` | src/screens/RideDetailScreen.tsx:14-16 | the screen starts with no ride and loading |
| `RideDetail.RideDetailScreen.Load` | src/screens/RideDetailScreen.tsx:18-35 | for the `'new'` id there is no ride and no fetch; otherwise the ride is whatever the fetch returned, the error being ignored; loading ends false either way |
| `RideDetail.RideDetailScreen.DisplayedRoute` | src/screens/RideDetailScreen.tsx:46-69 | no points are drawn while loading or without a ride; once loaded with a ride, exactly `RouteCoordinates` of its route data is drawn; every drawn point is finite |
| `Auth.Restored` | src/components/AuthProvider.tsx:27-37 | with a persisted session, the session becomes it and the user its `user` field (or none); without one both stay; loading is false afterwards in every case |
| `Auth.Authenticated` | src/components/AuthProvider.tsx:39-52 | the call completes iff the backend accepted with both session and user, which then become the state and the persisted session; a backend error throws its message, or the flow's fallback when it is absent or empty; a success lacking either throws the invalid-response message; a throw leaves user, session and storage unchanged and the thrown text is never empty; loading ends false on every path |
| `Auth.SignedOut` | src/components/AuthProvider.tsx:69-76 | after sign-out user and session are empty, nothing is persisted and loading is false, whatever the backend answered |
| `Auth.RestoreEstablishesConsistency` | src/components/AuthProvider.tsx:27-37 | after restore, the in-memory session equals the persisted one, and a user is known only with a session |
| `Auth.AuthenticatedPreservesConsistency` | src/components/AuthProvider.tsx:54-67 | sign-in and sign-up keep the in-memory session equal to the persisted one |
| `Auth.SignOutEstablishesConsistency` | src/components/AuthProvider.tsx:69-76 | sign-out leaves memory and storage in agreement and no user |
| `Auth.UseAuth` | src/components/AuthProvider.tsx:16-20 | the hook returns the provider's value iff a provider exists, and fails with the fixed message otherwise |
| `Auth.AuthProvider.constructor` | src/components/AuthProvider.tsx:22-25 | the provider starts with no user, no session, loading, and the persisted value as found |
| `Auth.AuthProvider.Init` | src/components/AuthProvider.tsx:27-37 | the startup restore updates the fields exactly as `Restored` says |
| `Auth.AuthProvider.SignIn` | src/components/AuthProvider.tsx:39-52 | sign-in updates the fields and storage and ends exactly as `Authenticated` says for the sign-in messages |
| `Auth.AuthProvider.SignUp` | src/components/AuthProvider.tsx:54-67 | sign-up does the same with the sign-up messages |
| `Auth.AuthProvider.Authenticate` | src/components/AuthProvider.tsx:40-51 | the shared body: the flag drops before any throw, and the state is `Authenticated` of the old state |
| `Auth.AuthProvider.SignOut` | src/components/AuthProvider.tsx:69-76 | the fields and storage end exactly as `SignedOut` says |
| `AppShell.RootNavigator` | App.tsx:30-46 | nothing is rendered iff loading; with a user the screens are exactly Dashboard and RideDetail and the initial route is Dashboard; without one they are exactly Login and Signup with initial route Login; the initial route is always one of the screens |
| `AppShell.RequestAllPermissions` | App.tsx:4-19 | only Android asks; a denial alert is raised iff the platform is Android and not all three permissions are GRANTED |
| `AppShell.LaunchAgreesWithRecorder` | App.tsx:11-14 | the launch check is silent exactly when the recorder's own permission check lets recording proceed |
| `AppShell.SignedInShowsDashboard` | App.tsx:34-39 | after a completed sign-in or sign-up the navigator shows the signed-in screens, starting at Dashboard |
| `AppShell.FailedSignInKeepsScreens` | App.tsx:32-45 | a sign-in or sign-up that throws leaves the navigator as it was for the same user |
| `AppShell.SignedOutShowsLogin` | App.tsx:40-45 | after sign-out the navigator shows the signed-out screens, starting at Login |
| `AppShell.RestoreChoosesScreens` | App.tsx:32-45 | after restore something is rendered, and the initial route is Dashboard iff the persisted session carries a user |

## Left out

- Rendering: MapView, Polyline, UrlTile, FlatList, buttons, texts and styles are not modelled; `RideDetail.RideDetailScreen.DisplayedRoute` stands for the route polyline's points only.
- The Supabase client. Insert, select and auth results are parameters (`InsertOutcome`, `FetchResult`, `AuthResponse`). The remote sign-out result is not a parameter, because the code never reads it.
- AsyncStorage is the single field `stored`. `JSON.stringify` / `JSON.parse` are the identity, so a stored value that fails to parse is not modelled.
- Geolocation and PermissionsAndroid: a watch is an entry in `Geolocation.watches`, and the permission answers are `Grants`. The accuracy options are kept as constant data (`ForegroundProfile`, `BackgroundProfile`).
- Async interleavings and React effect timing. The model runs each handler and the effect it triggers to completion, one after another. Three cases fall outside it: a permission answer that arrives after the effect's cleanup and still starts a watch; the check at src/components/RideTracker.tsx:55 of a local that is always undefined; and the stale `positions` closure in `handleEndRide`.
- RideTracking.RideTracker.HandleEndRide: samples delivered while the insert is pending are not modelled; the trail is cleared afterwards anyway.
- `Date.now`, ISO-8601 formatting and `new Date(...)`: times are integers.
- Floating point: coordinates are opaque; only their finiteness is modelled.
- RideDetail.RouteCoordinates: a `coordinates` member that is present but not an array (where `.filter` would throw) is not modelled; the type only admits an array or nothing.
- The loading spinner's intermediate `loading = true` inside sign-in, sign-up, sign-out and the ride fetch: only the value at the end of each call is stated.
- Concurrent sign-in / sign-out calls racing on the shared flag and storage.
- src/utils/theme.ts (a two-way choice of tile URL), LoginScreen, SignupScreen and DashboardScreen (form state, list fetch, navigation calls).
- Ride distance is always 0 in the source; no distance formula is modelled.
