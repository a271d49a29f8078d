/** The configured sailing spots and the resolution of a conditions request's
    `spot`, `lat` and `lon` query parameters into the coordinates to query. */
module Location {
  import opened Wrappers

  /** A configured spot (one entry of the static spot list). */
  datatype Spot = Spot(id: string, name: string, lat: real, lon: real)

  /** The HTTP errors the resolution step raises. */
  datatype HttpError = HttpError(status: int, detail: string)

  const UnknownSpot: HttpError := HttpError(404, "Unknown spot.")
  const MissingCoordinates: HttpError := HttpError(400, "Provide lat/lon or a valid spot id.")

  /** The resolved request location: the spot (when one was named) and the
      clamped coordinates. */
  datatype Resolved = Resolved(spot: Option<Spot>, lat: real, lon: real)

  /** `clamp_number`: `max(lo, min(hi, value))`. */
  function Clamp(value: real, lo: real, hi: real): (r: real)
    ensures r >= lo
    ensures lo <= hi ==> r <= hi
    ensures lo <= value <= hi ==> r == value
    ensures lo <= hi && value < lo ==> r == lo
    ensures lo <= hi && value > hi ==> r == hi
  {
    var m := if hi <= value then hi else value;
    if lo >= m then lo else m
  }

  /** `get_spot_by_id`: the first spot in list order whose id is `id`. */
  function SpotById(spots: seq<Spot>, id: string): (r: Option<Spot>)
    ensures r.None? <==> forall i :: 0 <= i < |spots| ==> spots[i].id != id
    ensures r.Some? ==> r.value in spots && r.value.id == id
  {
    if |spots| == 0 then None
    else if spots[0].id == id then Some(spots[0])
    else SpotById(spots[1..], id)
  }

  /** When several spots share an id, the earliest one is returned. */
  lemma {:induction false} SpotByIdIsFirst(spots: seq<Spot>, id: string, i: nat)
    requires i < |spots| && spots[i].id == id
    requires forall j :: 0 <= j < i ==> spots[j].id != id
    ensures SpotById(spots, id) == Some(spots[i])
  {
    if i > 0 {
      assert spots[0].id != id;
      SpotByIdIsFirst(spots[1..], id, i - 1);
    }
  }

  /** The location-resolution step of the conditions endpoint. A non-empty
      `spot` parameter must name a configured spot, whose coordinates then
      replace the query's; without one both `lat` and `lon` are required. The
      coordinates are clamped to [-90, 90] and [-180, 180]. An empty `spot`
      string is falsy and treated as absent. */
  function Resolve(spots: seq<Spot>, spotParam: Option<string>, lat: Option<real>, lon: Option<real>)
    : (r: Result<Resolved, HttpError>)
    ensures spotParam.Some? && spotParam.value != "" ==>
              (r == Failure(UnknownSpot) <==> forall i :: 0 <= i < |spots| ==> spots[i].id != spotParam.value)
    ensures (spotParam.None? || spotParam.value == "") ==>
              (r == Failure(MissingCoordinates) <==> lat.None? || lon.None?)
    ensures r.Failure? ==> r.error == UnknownSpot || r.error == MissingCoordinates
    ensures r == Failure(UnknownSpot) ==> spotParam.Some? && spotParam.value != ""
    ensures r.Success? && r.value.spot.Some? ==> spotParam.Some? && spotParam.value != ""
    ensures spotParam.Some? && spotParam.value != "" && SpotById(spots, spotParam.value).Some? ==>
              r.Success? && r.value.spot == SpotById(spots, spotParam.value)
    ensures r.Success? ==> -90.0 <= r.value.lat <= 90.0 && -180.0 <= r.value.lon <= 180.0
    ensures r.Success? && r.value.spot.Some? ==>
              spotParam.Some? && r.value.spot.value.id == spotParam.value
              && r.value.spot == SpotById(spots, spotParam.value)
    ensures r.Success? && r.value.spot.None? ==> lat.Some? && lon.Some?
    ensures r.Success? && r.value.spot.Some? ==>
              && r.value.lat == Clamp(r.value.spot.value.lat, -90.0, 90.0)
              && r.value.lon == Clamp(r.value.spot.value.lon, -180.0, 180.0)
    ensures r.Success? && r.value.spot.None? ==>
              && r.value.lat == Clamp(lat.value, -90.0, 90.0)
              && r.value.lon == Clamp(lon.value, -180.0, 180.0)
  {
    if spotParam.Some? && spotParam.value != "" then
      match SpotById(spots, spotParam.value)
      case None => Failure(UnknownSpot)
      case Some(s) => Success(Resolved(Some(s), Clamp(s.lat, -90.0, 90.0), Clamp(s.lon, -180.0, 180.0)))
    else if lat.None? || lon.None? then Failure(MissingCoordinates)
    else Success(Resolved(None, Clamp(lat.value, -90.0, 90.0), Clamp(lon.value, -180.0, 180.0)))
  }

  /** A known spot's own coordinates win over the query's `lat`/`lon`, whether
      or not the query carries any, and coordinates already in range come
      through unchanged. */
  lemma SpotOverridesQuery(spots: seq<Spot>, id: string, lat: Option<real>, lon: Option<real>, s: Spot)
    requires id != ""
    requires SpotById(spots, id) == Some(s)
    ensures Resolve(spots, Some(id), lat, lon)
            == Success(Resolved(Some(s), Clamp(s.lat, -90.0, 90.0), Clamp(s.lon, -180.0, 180.0)))
    ensures -90.0 <= s.lat <= 90.0 && -180.0 <= s.lon <= 180.0 ==>
              Resolve(spots, Some(id), lat, lon) == Success(Resolved(Some(s), s.lat, s.lon))
  {
  }

  /** Query coordinates within range are passed through unchanged when no
      spot is named, and out-of-range ones land on the nearer bound. */
  lemma QueryCoordinatesClamped(spots: seq<Spot>, lat: real, lon: real)
    ensures var r := Resolve(spots, None, Some(lat), Some(lon));
            && r.Success? && r.value.spot.None?
            && (-90.0 <= lat <= 90.0 ==> r.value.lat == lat)
            && (-180.0 <= lon <= 180.0 ==> r.value.lon == lon)
            && (lat > 90.0 ==> r.value.lat == 90.0)
            && (lat < -90.0 ==> r.value.lat == -90.0)
            && (lon > 180.0 ==> r.value.lon == 180.0)
            && (lon < -180.0 ==> r.value.lon == -180.0)
  {
  }

  /** An empty `spot` parameter is falsy, so it resolves exactly like an
      absent one, even when some configured spot has the empty id. */
  lemma EmptySpotIsAbsent(spots: seq<Spot>, lat: Option<real>, lon: Option<real>)
    ensures Resolve(spots, Some(""), lat, lon) == Resolve(spots, None, lat, lon)
    ensures lat.Some? && lon.Some? ==>
              Resolve(spots, Some(""), lat, lon)
              == Success(Resolved(None, Clamp(lat.value, -90.0, 90.0), Clamp(lon.value, -180.0, 180.0)))
  {
  }
}
