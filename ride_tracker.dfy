/**
 * The ride recorder: a `tracking` flag, the trail of position samples, the
 * id of the last saved ride and the handle of the active location watch.
 * Starting a ride resets the trail, every delivered sample is appended, app
 * lifecycle switches restart the watch with another accuracy profile, and
 * ending a ride packages the trail as a GeoJSON LineString of
 * `[longitude, latitude]` pairs (RFC 7946, section 3.1.4) and clears it.
 */
module RideTracking {
  import opened Wrappers
  import opened GeoJson
  import opened Device

  /** One position sample: coordinates and epoch milliseconds. */
  datatype Sample = Sample(latitude: Num, longitude: Num, timestamp: int)

  /** The LineString position of one sample: longitude first. */
  function Position(s: Sample): Json {
    JArray([JNumber(s.longitude), JNumber(s.latitude)])
  }

  /** `positions.map(p => [p.longitude, p.latitude])`. */
  function EncodeRoute(trail: seq<Sample>): (coords: seq<Json>)
    ensures |coords| == |trail|
    ensures forall i :: 0 <= i < |trail| ==>
      coords[i] == JArray([JNumber(trail[i].longitude), JNumber(trail[i].latitude)])
  {
    if trail == [] then [] else [Position(trail[0])] + EncodeRoute(trail[1..])
  }

  /** The trail as map points, as the recorder's own polyline draws it. */
  function TrailPath(trail: seq<Sample>): (path: seq<LatLng>)
    ensures |path| == |trail|
    ensures forall i :: 0 <= i < |trail| ==> path[i] == LatLng(trail[i].latitude, trail[i].longitude)
  {
    if trail == [] then [] else [LatLng(trail[0].latitude, trail[0].longitude)] + TrailPath(trail[1..])
  }

  /** The `route_data` Feature wrapping the encoded trail. */
  function RouteFeature(trail: seq<Sample>): Feature {
    Feature("Feature", Some(Geometry("LineString", Some(EncodeRoute(trail)))))
  }

  /** The row inserted into the `rides` table when a ride ends. */
  datatype RideRecord = RideRecord(
    userId: string,
    startTime: int,
    endTime: int,
    distance: int,
    routeData: Feature,
    isLive: bool)

  /** `timestamp || Date.now()`: a zero timestamp is falsy and falls back to now. */
  function OrNow(timestamp: int, now: int): int {
    if timestamp != 0 then timestamp else now
  }

  /** The record built by end-ride from the trail, the user and the two
      clock readings taken for the start and the end time. */
  function BuildRecord(userId: string, trail: seq<Sample>, startNow: int, endNow: int): (rec: RideRecord)
    ensures rec.userId == userId && rec.distance == 0 && !rec.isLive
    ensures rec.routeData.kind == "Feature"
    ensures rec.routeData.geometry.Some? && rec.routeData.geometry.value.kind == "LineString"
    ensures rec.routeData.geometry.value.coordinates.Some?
    ensures |rec.routeData.geometry.value.coordinates.value| == |trail|
    ensures forall i :: 0 <= i < |trail| ==>
      rec.routeData.geometry.value.coordinates.value[i] == JArray([JNumber(trail[i].longitude), JNumber(trail[i].latitude)])
    ensures trail == [] ==> rec.startTime == startNow && rec.endTime == endNow
    ensures trail != [] && trail[0].timestamp != 0 ==> rec.startTime == trail[0].timestamp
    ensures trail != [] && trail[0].timestamp == 0 ==> rec.startTime == startNow
    ensures trail != [] && trail[|trail| - 1].timestamp != 0 ==> rec.endTime == trail[|trail| - 1].timestamp
    ensures trail != [] && trail[|trail| - 1].timestamp == 0 ==> rec.endTime == endNow
  {
    var start := if trail == [] then startNow else OrNow(trail[0].timestamp, startNow);
    var end := if trail == [] then endNow else OrNow(trail[|trail| - 1].timestamp, endNow);
    RideRecord(userId, start, end, 0, RouteFeature(trail), false)
  }

  // ----- permissions -----

  /** The answer of the recorder's permission request, and the alerts it raised. */
  datatype PermissionCheck = PermissionCheck(granted: bool, notices: seq<Notice>)

  const BackgroundLocationNotice := Notice("Background Location",
    "To keep tracking your ride in the background, please allow \"Always\" location access when prompted.")

  const PermissionDeniedNotice := Notice("Permission Denied",
    "Location permissions are required to track your ride.")

  const BackgroundTrackingNotice := Notice("Background Tracking",
    "Your ride is being tracked in the background. For best results, keep the app open.")

  const LocationErrorTitle := "Location Error"

  const SaveErrorTitle := "Error saving ride"

  /** `requestLocationPermissions`: Android asks for the three location
      permissions and proceeds only if all are granted; iOS shows a notice
      and proceeds; any other platform proceeds silently. */
  function RequestLocationPermissions(os: OS, grants: Grants): (r: PermissionCheck)
    ensures r.granted <==> os != Android || AllGranted(grants)
    ensures r.notices == if os == IOS then [BackgroundLocationNotice] else []
  {
    match os
    case Android => PermissionCheck(AllGranted(grants), [])
    case IOS => PermissionCheck(true, [BackgroundLocationNotice])
    case OtherOS => PermissionCheck(true, [])
  }

  // ----- location watches -----

  /** The options object passed to `watchPosition`. */
  datatype Profile = Profile(
    enableHighAccuracy: bool,
    distanceFilter: nat,
    interval: nat,
    fastestInterval: nat,
    showsBackgroundLocationIndicator: bool,
    forceRequestLocation: bool)

  /** The high-accuracy profile used in the foreground. */
  function ForegroundProfile(os: OS): Profile {
    Profile(true,
      if os == IOS then 5 else 2,
      if os == IOS then 3000 else 2000,
      if os == IOS then 2000 else 1000,
      os == IOS,
      true)
  }

  /** The low-power profile used in the background on Android. */
  const BackgroundProfile := Profile(false, 10, 10000, 5000, true, true)

  /** The platform's registry of active position watches
      (`watchPosition` / `clearWatch`). */
  class Geolocation {
    /** Active watches, by handle, with the profile each was started with. */
    var watches: map<nat, Profile>
    /** The next handle `watchPosition` hands out. */
    var nextHandle: nat
    /** The largest number of watches that were ever active at the same time. */
    ghost var peak: nat

    ghost predicate Valid()
      reads this
    {
      (forall h :: h in watches ==> h < nextHandle) && |watches| <= peak
    }

    constructor ()
      ensures Valid() && watches == map[] && peak == 0
    {
      watches := map[];
      nextHandle := 0;
      peak := 0;
    }

    /** Starts a watch and returns its fresh handle. */
    method WatchPosition(p: Profile) returns (h: nat)
      requires Valid()
      modifies this
      ensures Valid()
      ensures h == old(nextHandle) && nextHandle == h + 1
      ensures h !in old(watches) && watches == old(watches)[h := p]
      ensures peak == if |watches| > old(peak) then |watches| else old(peak)
    {
      h := nextHandle;
      watches := watches[h := p];
      nextHandle := nextHandle + 1;
      if |watches| > peak {
        peak := |watches|;
      }
    }

    /** Stops the watch with handle `h`, if it is active. */
    method ClearWatch(h: nat)
      requires Valid()
      modifies this
      ensures Valid() && watches == old(watches) - {h} && peak == old(peak)
      ensures nextHandle == old(nextHandle)
    {
      assert |watches - {h}| <= |watches| by {
        assert (watches - {h}).Keys <= watches.Keys;
        CardinalitySubset((watches - {h}).Keys, watches.Keys);
      }
      watches := watches - {h};
    }
  }

  lemma CardinalitySubset<T>(a: set<T>, b: set<T>)
    requires a <= b
    ensures |a| <= |b|
  {
    assert b == a + (b - a);
  }

  // ----- the recorder -----

  /** `AppState` values delivered to the change listener. */
  datatype AppStatus = Active | Background | Inactive | Unknown | Extension

  /** Result of the `rides` insert: the error message, or the ids of the returned rows. */
  datatype InsertOutcome = InsertFailed(message: string) | Inserted(ids: seq<string>)

  /** `data[0]?.id || null`: the first returned id unless it is missing or empty. */
  function FirstId(ids: seq<string>): Option<string> {
    if |ids| > 0 && ids[0] != "" then Some(ids[0]) else None
  }

  class RideTracker {
    /** The signed-in user the rides belong to. */
    const userId: string
    /** The platform's location service. */
    const geo: Geolocation
    var tracking: bool
    /** The trail of the ride in progress, in delivery order. */
    var positions: seq<Sample>
    var rideId: Option<string>
    /** The handle of the watch this recorder holds (`watchId.current`). */
    var watchId: Option<nat>
    /** Whether the `AppState` change listener is registered. */
    var listening: bool

    /** The held handle is exactly the set of active watches, and no two
        watches were ever active at once. */
    ghost predicate Valid()
      reads this, geo
    {
      geo.Valid() && geo.peak <= 1 &&
      match watchId
      case None => geo.watches == map[]
      case Some(h) => geo.watches.Keys == {h}
    }

    /** Between events: recording, listening and holding a watch go together. */
    ghost predicate Settled()
      reads this
    {
      tracking == listening && listening == watchId.Some?
    }

    constructor (userId: string)
      ensures Valid() && Settled() && fresh(geo)
      ensures this.userId == userId && !tracking && positions == [] && rideId == None
    {
      this.userId := userId;
      geo := new Geolocation();
      tracking := false;
      positions := [];
      rideId := None;
      watchId := None;
      listening := false;
    }

    /** `stopLocationWatch`: clears the held watch, if any; a no-op otherwise. */
    method StopLocationWatch()
      requires Valid()
      modifies this, geo
      ensures Valid() && watchId == None && geo.watches == map[]
      ensures old(watchId) == None ==> unchanged(geo)
      ensures geo.peak == old(geo.peak) && geo.nextHandle == old(geo.nextHandle)
      ensures tracking == old(tracking) && positions == old(positions)
      ensures rideId == old(rideId) && listening == old(listening)
    {
      if watchId.Some? {
        geo.ClearWatch(watchId.value);
        watchId := None;
      }
    }

    /** `startLocationWatch`: starts a foreground watch. Every caller stops
        the previous watch first, which is what keeps a single watch. */
    method StartLocationWatch(os: OS)
      requires Valid() && watchId == None
      modifies this, geo
      ensures Valid() && watchId == Some(old(geo.nextHandle)) && geo.nextHandle == old(geo.nextHandle) + 1
      ensures geo.watches == map[watchId.value := ForegroundProfile(os)]
      ensures tracking == old(tracking) && positions == old(positions)
      ensures rideId == old(rideId) && listening == old(listening)
    {
      var h := geo.WatchPosition(ForegroundProfile(os));
      watchId := Some(h);
      assert geo.watches.Keys == {h};
    }

    /** The position callback of either watch: appends one sample. */
    method OnPosition(s: Sample)
      requires Valid() && Settled()
      modifies this`positions
      ensures Valid() && Settled()
      ensures positions == old(positions) + [s]
    {
      positions := positions + [s];
    }

    /** The error callback of either watch: an alert; recording goes on. */
    method OnLocationError(message: string) returns (n: Notice)
      ensures n.title == "Location Error" && n.message == message
    {
      n := Notice(LocationErrorTitle, message);
    }

    /** The effect cleanup: stop the watch and remove the listener. */
    method Cleanup()
      requires Valid()
      modifies this, geo
      ensures Valid() && watchId == None && !listening && geo.watches == map[]
      ensures geo.nextHandle == old(geo.nextHandle)
      ensures tracking == old(tracking) && positions == old(positions) && rideId == old(rideId)
    {
      StopLocationWatch();
      listening := false;
    }

    /** `handleStartRide`, followed by the tracking effect when `tracking`
        turns true: the permission request, then either a foreground watch
        and the lifecycle listener, or the denial alert and `tracking` back
        to false. (The effect re-run that this revert triggers only stops an
        absent watch.) */
    method HandleStartRide(os: OS, grants: Grants) returns (notices: seq<Notice>)
      requires Valid() && Settled()
      modifies this, geo
      ensures Valid() && Settled()
      ensures positions == [] && rideId == None
      ensures old(tracking) ==> tracking && watchId == old(watchId) && notices == [] && unchanged(geo)
      ensures !old(tracking) ==> tracking == RequestLocationPermissions(os, grants).granted
      ensures !old(tracking) && tracking ==>
        watchId == Some(old(geo.nextHandle)) && geo.nextHandle == old(geo.nextHandle) + 1 &&
        geo.watches == map[watchId.value := ForegroundProfile(os)] &&
        notices == RequestLocationPermissions(os, grants).notices
      ensures !old(tracking) && !tracking ==>
        geo.watches == map[] && geo.nextHandle == old(geo.nextHandle) &&
        notices == RequestLocationPermissions(os, grants).notices + [PermissionDeniedNotice]
    {
      var was := tracking;
      tracking := true;
      positions := [];
      rideId := None;
      notices := [];
      if !was {
        Cleanup();
        var check := RequestLocationPermissions(os, grants);
        notices := check.notices;
        if check.granted {
          StartLocationWatch(os);
          listening := true;
        } else {
          notices := notices + [PermissionDeniedNotice];
          tracking := false;
        }
      }
    }

    /** The `AppState` change listener. On Android a switch to the background
        or back to the foreground stops the held watch and starts one with
        the matching profile; on iOS going to the background only raises a
        notice. Events reach it only while the listener is registered. */
    method OnAppStateChange(os: OS, next: AppStatus) returns (notices: seq<Notice>)
      requires Valid() && Settled()
      modifies this, geo
      ensures Valid() && Settled()
      ensures tracking == old(tracking) && positions == old(positions)
      ensures rideId == old(rideId) && listening == old(listening)
      ensures old(listening) && os == Android && next == Background ==>
        watchId.Some? && watchId.value !in old(geo.watches) &&
        geo.watches == map[watchId.value := BackgroundProfile]
      ensures old(listening) && os == Android && next == Active ==>
        watchId.Some? && watchId.value !in old(geo.watches) &&
        geo.watches == map[watchId.value := ForegroundProfile(os)]
      ensures old(listening) && os == Android && (next == Background || next == Active) ==>
        watchId == Some(old(geo.nextHandle)) && geo.nextHandle == old(geo.nextHandle) + 1
      ensures !(old(listening) && os == Android && (next == Background || next == Active)) ==>
        watchId == old(watchId) && unchanged(geo)
      ensures notices == if old(listening) && os == IOS && next == Background then [BackgroundTrackingNotice] else []
    {
      notices := [];
      if !listening {
        return;
      }
      if os == Android {
        if next == Background {
          StopLocationWatch();
          var h := geo.WatchPosition(BackgroundProfile);
          watchId := Some(h);
          assert geo.watches.Keys == {h};
        } else if next == Active {
          StopLocationWatch();
          StartLocationWatch(os);
        }
      } else if os == IOS {
        if next == Background {
          notices := [BackgroundTrackingNotice];
        }
      }
    }

    /** `handleEndRide`: `tracking` turns false (whose effect stops the watch
        and removes the listener), the trail is packaged into a record and
        inserted, the saved id is kept and reported on success or an alert
        is raised on failure, and the trail is cleared either way. The
        callback argument is `None` when the callback is not called. */
    method HandleEndRide(startNow: int, endNow: int, outcome: InsertOutcome) returns (rec: RideRecord, notices: seq<Notice>, reported: Option<string>)
      requires Valid() && Settled()
      modifies this, geo
      ensures Valid() && Settled()
      ensures rec == BuildRecord(userId, old(positions), startNow, endNow)
      ensures !tracking && positions == [] && geo.watches == map[]
      ensures geo.nextHandle == old(geo.nextHandle)
      ensures outcome.InsertFailed? ==>
        rideId == old(rideId) && reported == None && notices == [Notice("Error saving ride", outcome.message)]
      ensures outcome.Inserted? ==>
        rideId == FirstId(outcome.ids) && notices == [] &&
        reported == Some(if FirstId(outcome.ids).Some? then FirstId(outcome.ids).value else "")
    {
      var was := tracking;
      tracking := false;
      if was {
        Cleanup();
      }
      rec := BuildRecord(userId, positions, startNow, endNow);
      notices := [];
      reported := None;
      match outcome {
        case InsertFailed(message) =>
          notices := [Notice(SaveErrorTitle, message)];
        case Inserted(ids) =>
          rideId := FirstId(ids);
          reported := Some(if FirstId(ids).Some? then FirstId(ids).value else "");
      }
      positions := [];
    }
  }

  /** At most one location watch is active whenever the recorder is valid. */
  lemma AtMostOneWatch(t: RideTracker)
    requires t.Valid()
    ensures |t.geo.watches| <= 1
  {
  }
}
