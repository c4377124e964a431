/**
 * The ride review screen: loading one saved ride (or none for the `'new'`
 * sentinel) and re-projecting its stored LineString into map points. The
 * re-projection keeps exactly the entries that are two-element arrays of
 * finite numbers, in their order, and swaps `[longitude, latitude]` back
 * into `{latitude, longitude}`.
 */
module RideDetail {
  import opened Wrappers
  import opened GeoJson
  import RideTracking

  /** The filter test: `Array.isArray(c) && c.length === 2` and both
      components pass `Number.isFinite`. */
  predicate IsCoordPair(c: Json) {
    && c.JArray? && |c.items| == 2
    && c.items[0].JNumber? && IsFinite(c.items[0].n)
    && c.items[1].JNumber? && IsFinite(c.items[1].n)
  }

  /** The `filter` step: the well-formed entries, in input order. */
  function ValidCoords(coords: seq<Json>): (kept: seq<Json>)
    ensures |kept| <= |coords|
    ensures forall c :: c in kept <==> c in coords && IsCoordPair(c)
    ensures forall i :: 0 <= i < |kept| ==> IsCoordPair(kept[i])
  {
    if coords == [] then []
    else (if IsCoordPair(coords[0]) then [coords[0]] else []) + ValidCoords(coords[1..])
  }

  /** One kept entry `[a, b]` as the point `{latitude: b, longitude: a}`. */
  function Swap(c: Json): LatLng
    requires IsCoordPair(c)
  {
    LatLng(c.items[1].n, c.items[0].n)
  }

  /** The `map` step: every kept entry swapped into a point, in order. */
  function ToLatLngs(pairs: seq<Json>): (path: seq<LatLng>)
    requires forall i :: 0 <= i < |pairs| ==> IsCoordPair(pairs[i])
    ensures |path| == |pairs|
    ensures forall i :: 0 <= i < |pairs| ==> path[i] == Swap(pairs[i])
  {
    if pairs == [] then [] else [Swap(pairs[0])] + ToLatLngs(pairs[1..])
  }

  /** Filter, then map, over a coordinates array. */
  function Reproject(coords: seq<Json>): seq<LatLng> {
    ToLatLngs(ValidCoords(coords))
  }

  /** `getRouteCoordinates`: no points when the route data, its geometry or
      its coordinates are missing; otherwise the re-projected coordinates. */
  function RouteCoordinates(routeData: Option<Feature>): (path: seq<LatLng>)
    ensures routeData.None? || routeData.value.geometry.None? || routeData.value.geometry.value.coordinates.None?
      ==> path == []
    ensures routeData.Some? && routeData.value.geometry.Some? && routeData.value.geometry.value.coordinates.Some?
      ==> |path| <= |routeData.value.geometry.value.coordinates.value| &&
          path == Reproject(routeData.value.geometry.value.coordinates.value)
    ensures forall p :: p in path ==> IsFinite(p.latitude) && IsFinite(p.longitude)
  {
    match routeData
    case None => []
    case Some(feature) =>
      match feature.geometry
      case None => []
      case Some(geometry) =>
        match geometry.coordinates
        case None => []
        case Some(coords) =>
          var path := Reproject(coords);
          assert forall p :: p in path ==> IsFinite(p.latitude) && IsFinite(p.longitude) by {
            forall p | p in path ensures IsFinite(p.latitude) && IsFinite(p.longitude) {
              var i :| 0 <= i < |path| && path[i] == p;
              assert ValidCoords(coords)[i] in ValidCoords(coords);
            }
          }
          path
  }

  /** The filter distributes over concatenation, so relative order is kept. */
  lemma {:induction false} ValidCoordsAppend(a: seq<Json>, b: seq<Json>)
    ensures ValidCoords(a + b) == ValidCoords(a) + ValidCoords(b)
  {
    if a == [] {
      assert a + b == b;
    } else {
      assert (a + b)[0] == a[0];
      assert (a + b)[1..] == a[1..] + b;
      ValidCoordsAppend(a[1..], b);
    }
  }

  /** An input of well-formed entries only passes the filter untouched. */
  lemma {:induction false} ValidCoordsKeepsAll(coords: seq<Json>)
    requires forall i :: 0 <= i < |coords| ==> IsCoordPair(coords[i])
    ensures ValidCoords(coords) == coords
  {
    if coords != [] {
      ValidCoordsKeepsAll(coords[1..]);
    }
  }

  /** The map step distributes over concatenation. */
  lemma ToLatLngsAppend(a: seq<Json>, b: seq<Json>)
    requires forall i :: 0 <= i < |a| ==> IsCoordPair(a[i])
    requires forall i :: 0 <= i < |b| ==> IsCoordPair(b[i])
    ensures ToLatLngs(a + b) == ToLatLngs(a) + ToLatLngs(b)
  {
  }

  /** A malformed entry is dropped silently and every entry around it keeps
      its place. */
  lemma MalformedEntryDropped(before: seq<Json>, bad: Json, after: seq<Json>)
    requires !IsCoordPair(bad)
    ensures Reproject(before + [bad] + after) == Reproject(before) + Reproject(after)
  {
    ValidCoordsAppend(before + [bad], after);
    ValidCoordsAppend(before, [bad]);
    assert ValidCoords([bad]) == [];
    assert ValidCoords(before) + [] == ValidCoords(before);
    ToLatLngsAppend(ValidCoords(before), ValidCoords(after));
  }

  /** The samples whose latitude and longitude are both finite, in order. */
  function FiniteSamples(trail: seq<RideTracking.Sample>): seq<RideTracking.Sample> {
    if trail == [] then []
    else if IsFinite(trail[0].latitude) && IsFinite(trail[0].longitude) then [trail[0]] + FiniteSamples(trail[1..])
    else FiniteSamples(trail[1..])
  }

  /** Re-projecting the recorder's encoding gives back the trail's points,
      less any sample with a non-finite coordinate. */
  lemma {:induction false} ReprojectEncodedRoute(trail: seq<RideTracking.Sample>)
    ensures Reproject(RideTracking.EncodeRoute(trail)) == RideTracking.TrailPath(FiniteSamples(trail))
  {
    if trail != [] {
      var s, rest := trail[0], trail[1..];
      var enc := RideTracking.EncodeRoute(trail);
      assert enc == [RideTracking.Position(s)] + RideTracking.EncodeRoute(rest);
      ValidCoordsAppend([RideTracking.Position(s)], RideTracking.EncodeRoute(rest));
      ReprojectEncodedRoute(rest);
      var head := ValidCoords([RideTracking.Position(s)]);
      ToLatLngsAppend(head, ValidCoords(RideTracking.EncodeRoute(rest)));
      if IsFinite(s.latitude) && IsFinite(s.longitude) {
        assert head == [RideTracking.Position(s)];
        assert FiniteSamples(trail) == [s] + FiniteSamples(rest);
        assert RideTracking.TrailPath([s] + FiniteSamples(rest))
            == [LatLng(s.latitude, s.longitude)] + RideTracking.TrailPath(FiniteSamples(rest));
      } else {
        assert head == [];
      }
    }
  }

  /** A trail of finite samples passes the finiteness filter whole. */
  lemma {:induction false} FiniteSamplesKeepsAll(trail: seq<RideTracking.Sample>)
    requires forall i :: 0 <= i < |trail| ==> IsFinite(trail[i].latitude) && IsFinite(trail[i].longitude)
    ensures FiniteSamples(trail) == trail
  {
    if trail != [] {
      FiniteSamplesKeepsAll(trail[1..]);
    }
  }

  /** Round trip: the route data of a ride record built from a trail of
      finite samples re-projects to that trail's points, one per sample, in
      order. */
  lemma RoundTrip(userId: string, trail: seq<RideTracking.Sample>, startNow: int, endNow: int)
    requires forall i :: 0 <= i < |trail| ==> IsFinite(trail[i].latitude) && IsFinite(trail[i].longitude)
    ensures RouteCoordinates(Some(RideTracking.BuildRecord(userId, trail, startNow, endNow).routeData)) == RideTracking.TrailPath(trail)
    ensures |RouteCoordinates(Some(RideTracking.BuildRecord(userId, trail, startNow, endNow).routeData))| == |trail|
  {
    var rec := RideTracking.BuildRecord(userId, trail, startNow, endNow);
    assert rec.routeData == RideTracking.RouteFeature(trail);
    assert RouteCoordinates(Some(rec.routeData)) == Reproject(RideTracking.EncodeRoute(trail));
    ReprojectEncodedRoute(trail);
    FiniteSamplesKeepsAll(trail);
  }

  // ----- the screen -----

  /** A row of the `rides` table as the single-row select returns it. */
  datatype Ride = Ride(
    id: string,
    userId: string,
    title: Option<string>,
    startTime: int,
    endTime: int,
    distance: int,
    routeData: Option<Feature>,
    isLive: bool)

  /** The answer of the single-row select: the row (absent when not found or
      on error) and the error message, if any. */
  datatype FetchResult = FetchResult(data: Option<Ride>, error: Option<string>)

  /** The route id that stands for a ride not yet saved. */
  const NewRideSentinel := "new"

  class RideDetailScreen {
    const rideId: string
    var ride: Option<Ride>
    var loading: bool

    constructor (rideId: string)
      ensures this.rideId == rideId && ride == None && loading
    {
      this.rideId := rideId;
      ride := None;
      loading := true;
    }

    /** The load effect. With the `'new'` sentinel no fetch is made and there
        is no ride; otherwise the ride is whatever the fetch returned, the
        error being ignored. `queried` tells whether the store was asked. */
    method Load(fetch: FetchResult) returns (queried: bool)
      modifies this
      ensures queried <==> rideId != "new"
      ensures !loading
      ensures rideId == "new" ==> ride == None
      ensures rideId != "new" ==> ride == fetch.data
    {
      if rideId == NewRideSentinel {
        ride := None;
        loading := false;
        return false;
      }
      queried := true;
      loading := true;  // the fetch is awaited between the two writes
      ride := fetch.data;
      loading := false;
    }

    /** The points drawn on the map: none while loading or without a ride. */
    function DisplayedRoute(): (path: seq<LatLng>)
      reads this
      ensures loading || ride.None? ==> path == []
      ensures !loading && ride.Some? ==> path == RouteCoordinates(ride.value.routeData)
      ensures forall p :: p in path ==> IsFinite(p.latitude) && IsFinite(p.longitude)
    {
      if loading || ride.None? then [] else RouteCoordinates(ride.value.routeData)
    }
  }
}
