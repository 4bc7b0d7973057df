/** The route history page: distance and duration formatting, and re-opening a stored route. */
module MyRoutes {
  import opened Wrappers
  import opened Text

  /** One row of `route_history`. Distance (metres) and duration (seconds) are nullable. */
  datatype RouteHistory = RouteHistory(
    id: string,
    startName: string, startLat: real, startLon: real,
    endName: string, endLat: real, endLon: real,
    distance: Option<nat>, duration: Option<nat>,
    createdAt: string)

  const Unknown: string := "알 수 없음"

  /** `!x` on a nullable number: null and 0 are both missing. */
  predicate Missing(x: Option<nat>)
  {
    x.None? || x.value == 0
  }

  /** Tenths of a kilometre, rounded half up from the exact distance. */
  function KilometreTenths(meters: nat): (t: nat)
    ensures 100 * t <= meters + 50 < 100 * t + 100
  {
    (meters + 50) / 100
  }

  /** `formatDistance`: "unknown" exactly for a missing distance, otherwise a figure ending in
      the unit "m" or "km". */
  function FormatDistance(meters: Option<nat>): (r: string)
    ensures r == Unknown <==> Missing(meters)
    ensures !Missing(meters) ==> |r| >= 2 && r[|r| - 1] == 'm'
  {
    assert Unknown[|Unknown| - 1] == '음';
    if Missing(meters) then Unknown
    else if meters.value < 1000 then NatToString(meters.value) + "m"
    else
      var t := KilometreTenths(meters.value);
      NatToString(t / 10) + "." + NatToString(t % 10) + "km"
  }

  /** The three shapes of a formatted distance. Below 1000 m the text is the metre count
      followed by "m", and reading the digits back gives the distance; from 1000 m on it is
      a kilometre figure with one decimal within 50 m of the distance, followed by "km". */
  lemma {:induction false} FormatDistanceShape(meters: Option<nat>)
    ensures Missing(meters) ==> FormatDistance(meters) == Unknown
    ensures !Missing(meters) && meters.value < 1000 ==>
      var r := FormatDistance(meters);
      && |r| >= 2 && r[|r| - 1] == 'm'
      && (forall i :: 0 <= i < |r| - 1 ==> IsDigit(r[i]))
      && DecimalValue(r[..|r| - 1]) == meters.value
    ensures !Missing(meters) && meters.value >= 1000 ==>
      exists whole: nat, tenth: nat ::
        && tenth < 10
        && FormatDistance(meters) == NatToString(whole) + "." + NatToString(tenth) + "km"
        && 100 * (10 * whole + tenth) <= meters.value + 50 < 100 * (10 * whole + tenth) + 100
  {
    if !Missing(meters) && meters.value < 1000 {
      var r := FormatDistance(meters);
      assert r[..|r| - 1] == NatToString(meters.value);
      NatToStringRoundTrip(meters.value);
    } else if !Missing(meters) {
      var t := KilometreTenths(meters.value);
      var whole, tenth := t / 10, t % 10;
      assert 10 * whole + tenth == t;
      assert FormatDistance(meters) == NatToString(whole) + "." + NatToString(tenth) + "km";
      assert 100 * (10 * whole + tenth) <= meters.value + 50 < 100 * (10 * whole + tenth) + 100;
    }
  }

  /** `Math.round(seconds / 60)`: halves round up. */
  function RoundedMinutes(seconds: nat): (m: nat)
    ensures 60 * m <= seconds + 30 < 60 * m + 60
  {
    (seconds + 30) / 60
  }

  /** `formatDuration`: "unknown" exactly for a missing duration, otherwise a text ending in
      the unit 분. */
  function FormatDuration(seconds: Option<nat>): (r: string)
    ensures r == Unknown <==> Missing(seconds)
    ensures !Missing(seconds) ==> |r| >= 2 && r[|r| - 1] == '분'
  {
    assert Unknown[|Unknown| - 1] == '음';
    if Missing(seconds) then Unknown
    else
      var minutes := RoundedMinutes(seconds.value);
      if minutes < 60 then NatToString(minutes) + "분"
      else NatToString(minutes / 60) + "시간 " + NatToString(minutes % 60) + "분"
  }

  /** Below an hour the text is the minute count followed by 분; from an hour on it is the
      hours and the remaining minutes, which recombine to the rounded minutes with fewer
      than 60 left over. */
  lemma {:induction false} FormatDurationShape(seconds: Option<nat>)
    ensures Missing(seconds) ==> FormatDuration(seconds) == Unknown
    ensures !Missing(seconds) && RoundedMinutes(seconds.value) < 60 ==>
      FormatDuration(seconds) == NatToString(RoundedMinutes(seconds.value)) + "분"
    ensures !Missing(seconds) && RoundedMinutes(seconds.value) >= 60 ==>
      exists hours: nat, rest: nat ::
        && hours >= 1 && rest < 60
        && hours * 60 + rest == RoundedMinutes(seconds.value)
        && FormatDuration(seconds) == NatToString(hours) + "시간 " + NatToString(rest) + "분"
  {
    if !Missing(seconds) && RoundedMinutes(seconds.value) >= 60 {
      var m := RoundedMinutes(seconds.value);
      var hours, rest := m / 60, m % 60;
      assert hours * 60 + rest == m;
      assert FormatDuration(seconds) == NatToString(hours) + "시간 " + NatToString(rest) + "분";
    }
  }

  /** A named point of the navigation request. */
  datatype Endpoint = Endpoint(name: string, lat: real, lon: real)

  /** The state `handleNavigate` passes to the map page. */
  datatype NavigationState = NavigationState(startPoint: Endpoint, destination: Endpoint)

  /** `handleNavigate`: the stored start and end names and coordinates, unchanged. */
  function NavigateState(route: RouteHistory): (s: NavigationState)
    ensures s.startPoint.name == route.startName && s.destination.name == route.endName
    ensures s.startPoint.lat == route.startLat && s.startPoint.lon == route.startLon
    ensures s.destination.lat == route.endLat && s.destination.lon == route.endLon
  {
    NavigationState(
      Endpoint(route.startName, route.startLat, route.startLon),
      Endpoint(route.endName, route.endLat, route.endLon))
  }
}
