/**
 * Conversion between decimal degrees and the integer micro-degrees a map
 * `GeoPoint` stores, the sentinel default location, and the last-known-point
 * fallback of `LocationHelper`.
 *
 * Java doubles are modelled as exact reals; the conversion follows the
 * narrowing rule of the Java Language Specification, section 5.1.3:
 * round toward zero, then saturate at the bounds of a 32-bit `int`.
 */
module MicroDegrees {
  import opened Wrappers

  const INT_MIN: int := -0x8000_0000
  const INT_MAX: int := 0x7fff_ffff

  /** The values of a Java `int`. */
  type Int32 = x: int | -0x8000_0000 <= x <= 0x7fff_ffff

  /** `LocationHelper.MILLION`: degrees per micro-degree, inverted. */
  const MILLION: real := 1000000.0

  /** A positioning fix in decimal degrees (`android.location.Location`). */
  datatype Location = Location(latitude: real, longitude: real)

  /** A map point in micro-degrees (`com.google.android.maps.GeoPoint`). */
  datatype GeoPoint = GeoPoint(latitudeE6: Int32, longitudeE6: Int32)

  /** Latitude within [-90, 90] and longitude within [-180, 180]. */
  predicate ValidLocation(loc: Location) {
    -90.0 <= loc.latitude <= 90.0 && -180.0 <= loc.longitude <= 180.0
  }

  function Abs(x: real): real { if x < 0.0 then -x else x }

  /** Rounds toward zero: the integer part of `x`. */
  function TruncateTowardZero(x: real): (r: int)
    ensures 0.0 <= x ==> 0 <= r && r as real <= x < r as real + 1.0
    ensures x < 0.0 ==> r <= 0 && r as real - 1.0 < x <= r as real
  {
    if x >= 0.0 then x.Floor else -((-x).Floor)
  }

  /** The Java cast `(int) x` of a non-NaN double (also `Double.intValue()`). */
  function JavaIntCast(x: real): (r: Int32)
    ensures -2147483649.0 < x < 2147483648.0 ==> r == TruncateTowardZero(x)
    ensures x >= 2147483648.0 ==> r == INT_MAX
    ensures x <= -2147483649.0 ==> r == INT_MIN
  {
    var t := TruncateTowardZero(x);
    if t > INT_MAX then INT_MAX else if t < INT_MIN then INT_MIN else t
  }

  /** Degrees to micro-degrees: multiply by a million, then cast to `int`. */
  function ToMicroDegrees(degrees: real): Int32 {
    JavaIntCast(degrees * MILLION)
  }

  /** Truncation is never rounding: the result lies within one unit of the
      exact product, never exceeds it in magnitude, and keeps its sign. */
  lemma TruncationBounds(x: real)
    ensures Abs(TruncateTowardZero(x) as real - x) < 1.0
    ensures Abs(TruncateTowardZero(x) as real) <= Abs(x)
    ensures 0.0 < x ==> TruncateTowardZero(x) >= 0
    ensures x < 0.0 ==> TruncateTowardZero(x) <= 0
    ensures TruncateTowardZero(x) != 0 ==> (TruncateTowardZero(x) > 0 <==> x > 0.0)
  {
  }

  /** Truncation is the only integer with those bounds. */
  lemma TruncationUnique(x: real, k: int)
    requires Abs(k as real) <= Abs(x) < Abs(k as real) + 1.0
    requires (0.0 <= x ==> k >= 0) && (x < 0.0 ==> k <= 0)
    ensures k == TruncateTowardZero(x)
  {
  }

  /** `getGeoPoint`: each coordinate scaled by a million and cast to `int`.
      For a valid fix no saturation happens: each component is the
      truncation of the exact product. */
  function GetGeoPoint(loc: Location): (r: GeoPoint)
    ensures ValidLocation(loc) ==>
      r.latitudeE6 == TruncateTowardZero(loc.latitude * MILLION) &&
      r.longitudeE6 == TruncateTowardZero(loc.longitude * MILLION)
  {
    GeoPoint(ToMicroDegrees(loc.latitude), ToMicroDegrees(loc.longitude))
  }

  /** `DEFAULT_LOCATION`: the sentinel built from (30.30, 50.27) degrees. */
  const DEFAULT_LOCATION: GeoPoint :=
    GeoPoint(JavaIntCast(30.30 * MILLION), JavaIntCast(50.27 * MILLION))

  /** `getLastKnownPoint`, given what the manager reports as the provider's
      cached fix: the conversion of that fix, or the sentinel when there is none. */
  function GetLastKnownPoint(lastKnownLocation: Option<Location>): (r: GeoPoint)
    ensures lastKnownLocation.None? ==> r == DEFAULT_LOCATION == GeoPoint(30300000, 50270000)
    ensures lastKnownLocation.Some? ==> r == GetGeoPoint(lastKnownLocation.value)
    ensures lastKnownLocation.Some? && ValidLocation(lastKnownLocation.value) ==>
      Abs(r.latitudeE6 as real - lastKnownLocation.value.latitude * MILLION) < 1.0 &&
      Abs(r.longitudeE6 as real - lastKnownLocation.value.longitude * MILLION) < 1.0
  {
    match lastKnownLocation
    case None => DEFAULT_LOCATION
    case Some(loc) =>
      TruncationBounds(loc.latitude * MILLION);
      TruncationBounds(loc.longitude * MILLION);
      GetGeoPoint(loc)
  }

  /** Micro-degrees back to degrees, as `getAddressStringByGeoPoint` does
      before geocoding a map point. */
  function ToLocation(p: GeoPoint): Location {
    Location(p.latitudeE6 as real / MILLION, p.longitudeE6 as real / MILLION)
  }

  /** Converting a map point to degrees and back gives the same point
      (over exact reals; Java doubles can lose one micro-degree here). */
  lemma GeoPointRoundTrip(p: GeoPoint)
    ensures GetGeoPoint(ToLocation(p)) == p
  {
  }

  /** Converting a valid fix to micro-degrees and back loses less than one
      micro-degree per coordinate, always toward zero. */
  lemma LocationRoundTripIsLossy(loc: Location)
    requires ValidLocation(loc)
    ensures Abs(ToLocation(GetGeoPoint(loc)).latitude - loc.latitude) < 1.0 / MILLION
    ensures Abs(ToLocation(GetGeoPoint(loc)).longitude - loc.longitude) < 1.0 / MILLION
    ensures Abs(ToLocation(GetGeoPoint(loc)).latitude) <= Abs(loc.latitude)
    ensures Abs(ToLocation(GetGeoPoint(loc)).longitude) <= Abs(loc.longitude)
  {
  }

  /** A worked case: both coordinates are cut toward zero, never rounded. */
  lemma TruncatesExample()
    ensures GetGeoPoint(Location(30.9999995, -50.0000006)) == GeoPoint(30999999, -50000000)
  {
  }
}
