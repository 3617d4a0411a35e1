/**
 * The HTTP handlers of the address API (src/routes/address.py): how each handler
 * turns the service's result or exception into a status code, and how the search
 * handler settles its centre point before calling the service.
 */
module Routes {
  import opened Wrappers
  import opened Geo
  import opened Schemas
  import opened AddressService

  const StatusOk: nat := 200
  const StatusCreated: nat := 201
  const StatusNoContent: nat := 204
  const StatusBadRequest: nat := 400
  const StatusNotFound: nat := 404

  const CannotGeocodeSearch := "Unable to geocode the provided address"
  const NoSearchCentre := "Either coordinates or address must be provided"

  datatype Body = Record(address: Address) | Records(addresses: seq<Address>) | NoBody | Detail(detail: string)

  /**
   * What a handler produces: a response with a status, or a service exception that the
   * handler does not catch and that leaves it.
   */
  datatype Response = Response(status: nat, body: Body) | Escaped(error: ServiceError)

  // ---------------------------------------------------------------------------
  // Exception to status mapping

  /** `create_address`: 201 with the row; a `ValueError` is a 400 carrying its own message. */
  function CreateResponse(outcome: Result<Address, ServiceError>): (resp: Response)
    ensures outcome.Ok? ==> resp == Response(StatusCreated, Record(outcome.value))
    ensures outcome.Err? && outcome.error.ValueError? ==>
      resp == Response(StatusBadRequest, Detail(outcome.error.message))
    ensures resp.Escaped? <==> outcome.Err? && !outcome.error.ValueError?
    ensures resp.Escaped? ==> resp.error == outcome.error
  {
    match outcome
    case Ok(a) => Response(StatusCreated, Record(a))
    case Err(ValueError(message)) => Response(StatusBadRequest, Detail(message))
    case Err(e) => Escaped(e)
  }

  /** `get_address` and `update_address`: 200 with the row; any `ValueError` is a 404 "Address not found". */
  function FetchResponse(outcome: Result<Address, ServiceError>): (resp: Response)
    ensures outcome.Ok? ==> resp == Response(StatusOk, Record(outcome.value))
    ensures outcome.Err? && outcome.error.ValueError? ==>
      resp == Response(StatusNotFound, Detail(AddressNotFound))
    ensures resp.Escaped? <==> outcome.Err? && !outcome.error.ValueError?
    ensures resp.Escaped? ==> resp.error == outcome.error
  {
    match outcome
    case Ok(a) => Response(StatusOk, Record(a))
    case Err(ValueError(_)) => Response(StatusNotFound, Detail(AddressNotFound))
    case Err(e) => Escaped(e)
  }

  /** `delete_address`: 204 with no body; any `ValueError` is a 404 "Address not found". */
  function DeleteResponse(outcome: Result<(), ServiceError>): (resp: Response)
    ensures outcome.Ok? ==> resp == Response(StatusNoContent, NoBody)
    ensures outcome.Err? && outcome.error.ValueError? ==>
      resp == Response(StatusNotFound, Detail(AddressNotFound))
    ensures resp.Escaped? <==> outcome.Err? && !outcome.error.ValueError?
    ensures resp.Escaped? ==> resp.error == outcome.error
  {
    match outcome
    case Ok(_) => Response(StatusNoContent, NoBody)
    case Err(ValueError(_)) => Response(StatusNotFound, Detail(AddressNotFound))
    case Err(e) => Escaped(e)
  }

  // ---------------------------------------------------------------------------
  // Handlers over the store

  /** `POST /addresses/`. The service never raises `ValueError`, so the 400 branch is never taken. */
  method CreateAddressRoute(store: AddressStore, data: AddressCreate, geocode: Geocoder, freshId: string, now: Timestamp)
    returns (resp: Response)
    requires store.Valid()
    requires freshId !in store.records
    modifies store
    ensures store.Valid()
    ensures resp.Response? ==>
      && resp.status == StatusCreated && resp.body.Record?
      && store.records == old(store.records)[freshId := resp.body.address]
    ensures resp.Response? ==>
      && CreateCoordinates(data, geocode).Ok?
      && resp.body.address == NewRecord(data.(latitude := Some(CreateCoordinates(data, geocode).value.0),
                                              longitude := Some(CreateCoordinates(data, geocode).value.1)),
                                        freshId, now)
    ensures resp.Escaped? ==> resp.error == UnpackNone && store.records == old(store.records)
    ensures resp.Escaped? <==>
      (data.latitude.None? || data.longitude.None?) && geocode(FullAddress(data.street, data.city, data.country)).None?
  {
    var outcome := store.CreateAddress(data, geocode, freshId, now);
    resp := CreateResponse(outcome);
  }

  /** `GET /addresses/{id}`. */
  function GetAddressRoute(store: AddressStore, id: string): (resp: Response)
    reads store
    ensures id in store.records ==> resp == Response(StatusOk, Record(store.records[id]))
    ensures id !in store.records ==> resp == Response(StatusNotFound, Detail(AddressNotFound))
  {
    FetchResponse(store.GetAddress(id))
  }

  /** `PUT /addresses/{id}`. */
  method UpdateAddressRoute(store: AddressStore, id: string, data: AddressUpdate, geocode: Geocoder, now: Timestamp)
    returns (resp: Response)
    requires store.Valid()
    modifies store
    ensures store.Valid()
    ensures id !in old(store.records) ==>
      resp == Response(StatusNotFound, Detail(AddressNotFound)) && store.records == old(store.records)
    ensures id in old(store.records) ==>
      match UpdatedRecord(old(store.records)[id], data, geocode, now)
      case Ok(a) => resp == Response(StatusOk, Record(a)) && store.records == old(store.records)[id := a]
      case Err(e) => resp == Escaped(e) && store.records == old(store.records)
  {
    var outcome := store.UpdateAddress(id, data, geocode, now);
    resp := FetchResponse(outcome);
  }

  /** `DELETE /addresses/{id}`. */
  method DeleteAddressRoute(store: AddressStore, id: string) returns (resp: Response)
    requires store.Valid()
    modifies store
    ensures store.Valid()
    ensures id in old(store.records) ==>
      resp == Response(StatusNoContent, NoBody) && store.records == old(store.records) - {id}
    ensures id !in old(store.records) ==>
      resp == Response(StatusNotFound, Detail(AddressNotFound)) && store.records == old(store.records)
  {
    var outcome := store.DeleteAddress(id);
    resp := DeleteResponse(outcome);
  }

  // ---------------------------------------------------------------------------
  // Search

  /** The query string of `GET /addresses/search/`. */
  datatype SearchQuery = SearchQuery(lat: Option<real>, lon: Option<real>, address: Option<string>, radiusKm: Option<real>)

  /** What the query parameters declare: optional coordinates in range, a required radius above zero. */
  predicate ValidSearchQuery(q: SearchQuery) {
    && InRange(q.lat, MinLatitude, MaxLatitude)
    && InRange(q.lon, MinLongitude, MaxLongitude)
    && q.radiusKm.Some? && q.radiusKm.value > 0.0
  }

  /**
   * The centre of a search: a non-empty address is geocoded and its answer replaces
   * any `lat`/`lon`; otherwise both `lat` and `lon` are needed. A failure is a 400.
   */
  function SearchCentre(q: SearchQuery, geocode: Geocoder): (r: Result<(real, real), Response>)
    ensures r.Err? ==> r.error.Response? && r.error.status == StatusBadRequest
    ensures q.address.Some? && q.address.value != "" ==>
      && (r.Ok? <==> geocode(q.address.value).Some?)
      && (r.Ok? ==> r.value == geocode(q.address.value).value)
      && (r.Err? ==> r.error.body == Detail(CannotGeocodeSearch))
    ensures !(q.address.Some? && q.address.value != "") ==>
      && (r.Ok? <==> q.lat.Some? && q.lon.Some?)
      && (r.Ok? ==> r.value == (q.lat.value, q.lon.value))
      && (r.Err? ==> r.error.body == Detail(NoSearchCentre))
  {
    if q.address.Some? && q.address.value != "" then
      match geocode(q.address.value)
      case None => Err(Response(StatusBadRequest, Detail(CannotGeocodeSearch)))
      case Some(centre) => Ok(centre)
    else if q.lat.None? || q.lon.None? then
      Err(Response(StatusBadRequest, Detail(NoSearchCentre)))
    else
      Ok((q.lat.value, q.lon.value))
  }

  /**
   * `GET /addresses/search/`. `cosOf` gives cos(radians(latitude)) and `scan` the order
   * in which the table returns its rows.
   */
  function SearchAddressesRoute(store: AddressStore, q: SearchQuery, geocode: Geocoder, scan: seq<string>,
                                cosOf: real -> real, distance: Distance): (resp: Response)
    reads store
    requires ValidSearchQuery(q)
    requires store.IsScan(scan)
    ensures SearchCentre(q, geocode).Err? ==> resp == SearchCentre(q, geocode).error
    ensures resp.Escaped? ==> resp.error == ZeroDivision
    ensures resp.Response? && resp.status == StatusOk ==>
      SearchCentre(q, geocode).Ok? && cosOf(SearchCentre(q, geocode).value.0) != 0.0
    ensures resp.Response? && resp.status == StatusOk ==>
      var centre := SearchCentre(q, geocode).value;
      && resp.body.Records?
      && resp.body == Records(store.GetAddressesWithinRadius(scan, centre.0, centre.1, q.radiusKm.value,
                                                             cosOf(centre.0), distance).value)
      && forall a :: a in resp.body.addresses ==>
           && a in store.records.Values
           && InBox(a, BoundingBox(centre.0, centre.1, q.radiusKm.value, cosOf(centre.0)))
           && WithinRadius(a, centre.0, centre.1, q.radiusKm.value, distance)
    ensures resp.Response? && resp.status == StatusOk ==>
      var centre := SearchCentre(q, geocode).value;
      forall id :: id in store.records ==>
        (InBox(store.records[id], BoundingBox(centre.0, centre.1, q.radiusKm.value, cosOf(centre.0)))
         && WithinRadius(store.records[id], centre.0, centre.1, q.radiusKm.value, distance)
         ==> store.records[id] in resp.body.addresses)
    ensures SearchCentre(q, geocode).Ok? && cosOf(SearchCentre(q, geocode).value.0) != 0.0 ==>
      resp.Response? && resp.status == StatusOk
    ensures SearchCentre(q, geocode).Ok? && cosOf(SearchCentre(q, geocode).value.0) == 0.0 ==>
      resp == Escaped(ZeroDivision)
  {
    match SearchCentre(q, geocode)
    case Err(failure) => failure
    case Ok((lat, lon)) =>
      match store.GetAddressesWithinRadius(scan, lat, lon, q.radiusKm.value, cosOf(lat), distance)
      case Ok(found) => Response(StatusOk, Records(found))
      case Err(e) => Escaped(e)
  }

  /** A non-empty address decides the centre on its own: the `lat` and `lon` sent beside it play no part. */
  lemma AddressOverridesCoordinates(q: SearchQuery, geocode: Geocoder, lat: Option<real>, lon: Option<real>)
    requires q.address.Some? && q.address.value != ""
    ensures SearchCentre(q.(lat := lat, lon := lon), geocode) == SearchCentre(q, geocode)
  {
  }

  /** An empty address counts as no address: only `lat` and `lon` can then give the centre. */
  lemma EmptyAddressIgnored(q: SearchQuery, geocode: Geocoder)
    requires q.address == Some("")
    ensures SearchCentre(q, geocode) == SearchCentre(q.(address := None), geocode)
  {
  }
}
