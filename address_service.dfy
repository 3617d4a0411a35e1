/**
 * The address service (src/services/address_service.py): a keyed store of address
 * rows with create, get, partial update, delete and a two-phase radius search.
 *
 * The ORM session and table become the `records` map of `AddressStore`; the
 * identifier and timestamp defaults of the ORM model become the `freshId` and `now`
 * parameters; the geocoder, the great-circle distance and cos(radians(latitude))
 * are parameters too (see module Geo).
 */
module AddressService {
  import opened Wrappers
  import opened Seqs
  import opened Geo
  import opened Schemas

  const AddressNotFound := "Address not found"
  const RadiusNotPositive := "Radius must be greater than zero"
  const UnableToGeocode := "Unable to geocode address"

  /** Kilometres per degree of latitude, the constant of the bounding box. */
  const KmPerDegree: real := 111.0

  /** The exceptions the service raises. */
  datatype ServiceError =
      /** `ValueError(message)`, the one the router catches. */
    | ValueError(message: string)
      /** `TypeError` from `lat, lon = geocode_address(...)` when the geocoder returns `None`. */
    | UnpackNone
      /** `ZeroDivisionError` from the longitude delta when the cosine of the latitude is zero. */
    | ZeroDivision

  /**
   * A stored row. Its text columns are nullable here because a partial update
   * assigns whatever the request carries, `None` included.
   */
  datatype Address = Address(
    id: string,
    name: Option<string>,
    street: Option<string>,
    city: Option<string>,
    postalCode: Option<string>,
    country: Option<string>,
    latitude: Option<real>,
    longitude: Option<real>,
    createdAt: Timestamp,
    updatedAt: Timestamp)

  /** Both coordinates are known. */
  predicate Geocoded(a: Address) {
    a.latitude.Some? && a.longitude.Some?
  }

  /** The text sent to the geocoder: `f"{street}, {city}, {country}"`. */
  function FullAddress(street: string, city: string, country: string): string {
    street + ", " + city + ", " + country
  }

  /** A nullable text column as an f-string renders it: `None` becomes "None". */
  function Text(t: Option<string>): string {
    if t.Some? then t.value else "None"
  }

  /** The row seen through the `AddressRead` schema, when its text columns are all non-null. */
  function ReadView(a: Address): Option<AddressRead> {
    if a.name.Some? && a.street.Some? && a.city.Some? && a.postalCode.Some? && a.country.Some?
    then Some(AddressRead(
      AddressBase(a.name.value, a.street.value, a.city.value, a.postalCode.value, a.country.value,
                  a.latitude, a.longitude),
      a.id, a.createdAt, a.updatedAt))
    else None
  }

  // ---------------------------------------------------------------------------
  // Create

  /**
   * The coordinates create stores: those of the request when both are given, otherwise
   * the geocoder's answer for the composed full address. A geocoder that finds nothing
   * makes the tuple unpack fail; the `ValueError("Unable to geocode address")` check
   * after it is never reached, since an answer is a pair of floats.
   */
  function CreateCoordinates(data: AddressCreate, geocode: Geocoder): (r: Result<(real, real), ServiceError>)
    ensures data.latitude.Some? && data.longitude.Some? ==> r == Ok((data.latitude.value, data.longitude.value))
    ensures data.latitude.None? || data.longitude.None? ==>
      var found := geocode(FullAddress(data.street, data.city, data.country));
      && (r.Err? <==> found.None?)
      && (found.Some? ==> r == Ok(found.value))
    ensures r.Err? ==> r.error == UnpackNone
    ensures r != Err(ValueError(UnableToGeocode))
  {
    if data.latitude.None? || data.longitude.None? then
      var found := geocode(FullAddress(data.street, data.city, data.country));
      if found.None? then Err(UnpackNone) else Ok(found.value)
    else
      Ok((data.latitude.value, data.longitude.value))
  }

  /** With both coordinates given, create does not consult the geocoder: any two geocoders give the same result. */
  lemma CreateIgnoresGeocoder(data: AddressCreate, g1: Geocoder, g2: Geocoder)
    requires data.latitude.Some? && data.longitude.Some?
    ensures CreateCoordinates(data, g1) == CreateCoordinates(data, g2)
  {
  }

  /** Create consults the geocoder about one text only, the composed full address. */
  lemma CreateAsksFullAddressOnly(data: AddressCreate, g1: Geocoder, g2: Geocoder)
    requires g1(FullAddress(data.street, data.city, data.country)) == g2(FullAddress(data.street, data.city, data.country))
    ensures CreateCoordinates(data, g1) == CreateCoordinates(data, g2)
  {
  }

  /** The row `AddressModel(**data.model_dump())` builds once the coordinates are settled. */
  function NewRecord(data: AddressCreate, id: string, now: Timestamp): (a: Address)
    ensures ReadView(a) == Some(AddressRead(data, id, now, now))
    ensures Geocoded(a) <==> data.latitude.Some? && data.longitude.Some?
  {
    Address(id, Some(data.name), Some(data.street), Some(data.city), Some(data.postalCode), Some(data.country),
            data.latitude, data.longitude, now, now)
  }

  // ---------------------------------------------------------------------------
  // Update

  /** One `(field, value)` item of `data.model_dump(exclude_unset=True)`. */
  datatype Field =
    | Name(text: Option<string>)
    | Street(text: Option<string>)
    | City(text: Option<string>)
    | PostalCode(text: Option<string>)
    | Country(text: Option<string>)
    | Latitude(number: Option<real>)
    | Longitude(number: Option<real>)

  /** The fields an update request explicitly carries, in declaration order; `postal_code` always. */
  function ExplicitFields(u: AddressUpdate): seq<Field>
  {
    (if u.name.Set? then [Name(u.name.value)] else [])
    + (if u.street.Set? then [Street(u.street.value)] else [])
    + (if u.city.Set? then [City(u.city.value)] else [])
    + [PostalCode(u.postalCode)]
    + (if u.country.Set? then [Country(u.country.value)] else [])
    + (if u.latitude.Set? then [Latitude(u.latitude.value)] else [])
    + (if u.longitude.Set? then [Longitude(u.longitude.value)] else [])
  }

  /** `setattr(address, field, value)`. */
  function SetAttr(a: Address, f: Field): Address {
    match f
    case Name(t) => a.(name := t)
    case Street(t) => a.(street := t)
    case City(t) => a.(city := t)
    case PostalCode(t) => a.(postalCode := t)
    case Country(t) => a.(country := t)
    case Latitude(x) => a.(latitude := x)
    case Longitude(x) => a.(longitude := x)
  }

  /** The row after `setattr` of each item in turn. */
  function SetAll(a: Address, items: seq<Field>): Address
    decreases |items|
  {
    if items == [] then a else SetAll(SetAttr(a, items[0]), items[1..])
  }

  /** What a partial update means: each column takes the request's value if the request carries it. */
  function Patched(a: Address, u: AddressUpdate): Address {
    a.(name := if u.name.Set? then u.name.value else a.name,
       street := if u.street.Set? then u.street.value else a.street,
       city := if u.city.Set? then u.city.value else a.city,
       postalCode := u.postalCode,
       country := if u.country.Set? then u.country.value else a.country,
       latitude := if u.latitude.Set? then u.latitude.value else a.latitude,
       longitude := if u.longitude.Set? then u.longitude.value else a.longitude)
  }

  lemma {:induction false} SetAllAppend(a: Address, s: seq<Field>, t: seq<Field>)
    ensures SetAll(a, s + t) == SetAll(SetAll(a, s), t)
    decreases |s|
  {
    if s == [] {
      assert s + t == t;
    } else {
      assert (s + t)[0] == s[0];
      assert (s + t)[1..] == s[1..] + t;
      SetAllAppend(SetAttr(a, s[0]), s[1..], t);
    }
  }

  lemma SetAllOne(a: Address, f: Field)
    ensures SetAll(a, [f]) == SetAttr(a, f)
  {
    assert [f][1..] == [];
  }

  /** Assigning the explicitly sent fields one after another yields the patched row. */
  lemma {:induction false} ExplicitFieldsApplied(a: Address, u: AddressUpdate)
    ensures SetAll(a, ExplicitFields(u)) == Patched(a, u)
  {
    var p1 := if u.name.Set? then [Name(u.name.value)] else [];
    var p2 := if u.street.Set? then [Street(u.street.value)] else [];
    var p3 := if u.city.Set? then [City(u.city.value)] else [];
    var p4 := [PostalCode(u.postalCode)];
    var p5 := if u.country.Set? then [Country(u.country.value)] else [];
    var p6 := if u.latitude.Set? then [Latitude(u.latitude.value)] else [];
    var p7 := if u.longitude.Set? then [Longitude(u.longitude.value)] else [];
    assert ExplicitFields(u) == p1 + p2 + p3 + p4 + p5 + p6 + p7;
    SetAllAppend(a, p1 + p2 + p3 + p4 + p5 + p6, p7);
    SetAllAppend(a, p1 + p2 + p3 + p4 + p5, p6);
    SetAllAppend(a, p1 + p2 + p3 + p4, p5);
    SetAllAppend(a, p1 + p2 + p3, p4);
    SetAllAppend(a, p1 + p2, p3);
    SetAllAppend(a, p1, p2);
    var a1 := SetAll(a, p1);
    var a2 := SetAll(a1, p2);
    var a3 := SetAll(a2, p3);
    var a4 := SetAll(a3, p4);
    var a5 := SetAll(a4, p5);
    var a6 := SetAll(a5, p6);
    if u.name.Set? { SetAllOne(a, p1[0]); }
    if u.street.Set? { SetAllOne(a1, p2[0]); }
    if u.city.Set? { SetAllOne(a2, p3[0]); }
    SetAllOne(a3, p4[0]);
    if u.country.Set? { SetAllOne(a4, p5[0]); }
    if u.latitude.Set? { SetAllOne(a5, p6[0]); }
    if u.longitude.Set? { SetAllOne(a6, p7[0]); }
  }

  /** The `for field, value in update_data.items(): setattr(address, field, value)` loop. */
  method ApplyUpdate(a: Address, u: AddressUpdate) returns (r: Address)
    ensures r == Patched(a, u)
  {
    var items := ExplicitFields(u);
    r := a;
    var i := 0;
    while i < |items|
      invariant 0 <= i <= |items|
      invariant SetAll(r, items[i..]) == SetAll(a, items)
    {
      assert items[i..][0] == items[i];
      assert items[i..][1..] == items[i + 1..];
      r := SetAttr(r, items[i]);
      i := i + 1;
    }
    ExplicitFieldsApplied(a, u);
  }

  /**
   * The row an update stores, or the error it raises, once the row exists: the
   * request's fields applied; if a coordinate is then null, both replaced by the
   * geocoder's answer for the post-update street, city and country; `updated_at` now.
   */
  function UpdatedRecord(a: Address, u: AddressUpdate, geocode: Geocoder, now: Timestamp): (r: Result<Address, ServiceError>)
    ensures var p := Patched(a, u);
      var found := geocode(FullAddress(Text(p.street), Text(p.city), Text(p.country)));
      && (Geocoded(p) ==> r == Ok(p.(updatedAt := now)))
      && (!Geocoded(p) ==> (r.Err? <==> found.None?))
      && (!Geocoded(p) && found.Some? ==>
            r == Ok(p.(latitude := Some(found.value.0), longitude := Some(found.value.1), updatedAt := now)))
    ensures r.Err? ==> r.error == UnpackNone
    ensures r.Ok? ==> Geocoded(r.value) && r.value.id == a.id && r.value.createdAt == a.createdAt && r.value.updatedAt == now
  {
    var p := Patched(a, u);
    if p.latitude.None? || p.longitude.None? then
      var found := geocode(FullAddress(Text(p.street), Text(p.city), Text(p.country)));
      if found.None? then Err(UnpackNone)
      else Ok(p.(latitude := Some(found.value.0), longitude := Some(found.value.1), updatedAt := now))
    else
      Ok(p.(updatedAt := now))
  }

  /** An update that leaves both coordinates set does not consult the geocoder. */
  lemma UpdateIgnoresGeocoder(a: Address, u: AddressUpdate, g1: Geocoder, g2: Geocoder, now: Timestamp)
    requires Geocoded(Patched(a, u))
    ensures UpdatedRecord(a, u, g1, now) == UpdatedRecord(a, u, g2, now)
  {
  }

  /** Every column the request does not carry keeps its value, apart from the coordinates a re-geocode replaces. */
  lemma UpdateKeepsUnsentFields(a: Address, u: AddressUpdate, geocode: Geocoder, now: Timestamp)
    requires UpdatedRecord(a, u, geocode, now).Ok?
    ensures var r := UpdatedRecord(a, u, geocode, now).value;
      && (u.name.Unset? ==> r.name == a.name)
      && (u.street.Unset? ==> r.street == a.street)
      && (u.city.Unset? ==> r.city == a.city)
      && (u.country.Unset? ==> r.country == a.country)
      && (u.latitude.Unset? && u.longitude.Unset? && Geocoded(a) ==> r.latitude == a.latitude && r.longitude == a.longitude)
  {
  }

  // ---------------------------------------------------------------------------
  // Radius search

  /** The inclusive latitude and longitude ranges of the pre-filter. */
  datatype Box = Box(minLatitude: real, maxLatitude: real, minLongitude: real, maxLongitude: real)

  /** `lat_delta = r / 111` and `lon_delta = r / (111 * cos(radians(lat)))` around the centre. */
  function BoundingBox(latitude: real, longitude: real, radiusKm: real, cosLatitude: real): (b: Box)
    requires cosLatitude != 0.0
    ensures radiusKm > 0.0 ==> b.minLatitude < latitude < b.maxLatitude
    ensures radiusKm > 0.0 && cosLatitude > 0.0 ==> b.minLongitude < longitude < b.maxLongitude
    ensures radiusKm > 0.0 && cosLatitude < 0.0 ==> b.maxLongitude < b.minLongitude
    ensures (b.maxLatitude - b.minLatitude) * KmPerDegree == 2.0 * radiusKm
    ensures b.minLatitude + b.maxLatitude == 2.0 * latitude
    ensures b.minLongitude + b.maxLongitude == 2.0 * longitude
    ensures (b.maxLongitude - b.minLongitude) * KmPerDegree * cosLatitude == 2.0 * radiusKm
  {
    var latDelta := radiusKm / KmPerDegree;
    var lonDelta := radiusKm / (KmPerDegree * cosLatitude);
    Box(latitude - latDelta, latitude + latDelta, longitude - lonDelta, longitude + lonDelta)
  }

  /**
   * Both `BETWEEN` conditions of the query hold. SQL's `BETWEEN` on a NULL column is not
   * true, so a row inside the box has both coordinates and the exact check that follows
   * is defined on every candidate.
   */
  predicate InBox(a: Address, b: Box) {
    && a.latitude.Some? && b.minLatitude <= a.latitude.value <= b.maxLatitude
    && a.longitude.Some? && b.minLongitude <= a.longitude.value <= b.maxLongitude
  }

  /** The exact check: the distance from the centre to the row is at most the radius. */
  predicate WithinRadius(a: Address, latitude: real, longitude: real, radiusKm: real, distance: Distance) {
    Geocoded(a) && distance(latitude, longitude, a.latitude.value, a.longitude.value) <= radiusKm
  }

  function Inside(b: Box): Address -> bool {
    (a: Address) => InBox(a, b)
  }

  function Near(latitude: real, longitude: real, radiusKm: real, distance: Distance): Address -> bool {
    (a: Address) => WithinRadius(a, latitude, longitude, radiusKm, distance)
  }

  /** The condition of the whole search: inside the box and within the radius. */
  function Matches(latitude: real, longitude: real, radiusKm: real, cosLatitude: real, distance: Distance): Address -> bool
    requires cosLatitude != 0.0
  {
    (a: Address) => InBox(a, BoundingBox(latitude, longitude, radiusKm, cosLatitude))
                    && WithinRadius(a, latitude, longitude, radiusKm, distance)
  }

  /**
   * The search over the table's rows in the order the database returns them: reject a
   * non-positive radius, select the rows inside the box, keep those within the radius.
   */
  function SearchRows(rows: seq<Address>, latitude: real, longitude: real, radiusKm: real,
                      cosLatitude: real, distance: Distance): (r: Result<seq<Address>, ServiceError>)
    ensures r == Err(ValueError(RadiusNotPositive)) <==> radiusKm <= 0.0
    ensures r.Ok? <==> radiusKm > 0.0 && cosLatitude != 0.0
    ensures r.Err? && radiusKm > 0.0 ==> r.error == ZeroDivision
    ensures r.Ok? ==> |r.value| <= |rows|
    ensures r.Ok? ==> forall a :: a in r.value <==>
      a in rows && InBox(a, BoundingBox(latitude, longitude, radiusKm, cosLatitude))
      && WithinRadius(a, latitude, longitude, radiusKm, distance)
  {
    if radiusKm <= 0.0 then Err(ValueError(RadiusNotPositive))
    else if cosLatitude == 0.0 then Err(ZeroDivision)
    else
      var box := BoundingBox(latitude, longitude, radiusKm, cosLatitude);
      var candidates := Filter(rows, Inside(box));
      FilterMembershipAll(rows, Inside(box));
      FilterMembershipAll(candidates, Near(latitude, longitude, radiusKm, distance));
      Ok(Filter(candidates, Near(latitude, longitude, radiusKm, distance)))
  }

  /** The two phases together are one order-preserving filter of the rows by "inside the box and within the radius". */
  lemma SearchIsOneFilter(rows: seq<Address>, latitude: real, longitude: real, radiusKm: real,
                          cosLatitude: real, distance: Distance, keep: Address -> bool)
    requires radiusKm > 0.0 && cosLatitude != 0.0
    requires forall a :: keep(a) == (InBox(a, BoundingBox(latitude, longitude, radiusKm, cosLatitude))
                                      && WithinRadius(a, latitude, longitude, radiusKm, distance))
    ensures SearchRows(rows, latitude, longitude, radiusKm, cosLatitude, distance) == Ok(Filter(rows, keep))
  {
    var box := BoundingBox(latitude, longitude, radiusKm, cosLatitude);
    FilterTwice(rows, Inside(box), Near(latitude, longitude, radiusKm, distance), keep);
  }

  /** Searching a concatenation of rows gives the results for the first part followed by those for the second. */
  lemma SearchKeepsOrder(rows1: seq<Address>, rows2: seq<Address>, latitude: real, longitude: real,
                         radiusKm: real, cosLatitude: real, distance: Distance)
    requires radiusKm > 0.0 && cosLatitude != 0.0
    ensures SearchRows(rows1 + rows2, latitude, longitude, radiusKm, cosLatitude, distance).value
         == SearchRows(rows1, latitude, longitude, radiusKm, cosLatitude, distance).value
          + SearchRows(rows2, latitude, longitude, radiusKm, cosLatitude, distance).value
  {
    var box := BoundingBox(latitude, longitude, radiusKm, cosLatitude);
    var near := Near(latitude, longitude, radiusKm, distance);
    FilterAppend(rows1, rows2, Inside(box));
    FilterAppend(Filter(rows1, Inside(box)), Filter(rows2, Inside(box)), near);
  }

  // ---------------------------------------------------------------------------
  // The store

  /** The address table, keyed by identifier. */
  class AddressStore {
    var records: map<string, Address>

    /** Every row is stored under its own identifier and has both coordinates. */
    ghost predicate Valid()
      reads this
    {
      forall id :: id in records ==> records[id].id == id && Geocoded(records[id])
    }

    constructor ()
      ensures Valid() && records == map[]
    {
      records := map[];
    }

    /** `create_address`. */
    method CreateAddress(data: AddressCreate, geocode: Geocoder, freshId: string, now: Timestamp)
      returns (r: Result<Address, ServiceError>)
      requires Valid()
      requires freshId !in records
      modifies this
      ensures Valid()
      ensures match CreateCoordinates(data, geocode)
        case Ok(c) =>
          && r == Ok(NewRecord(data.(latitude := Some(c.0), longitude := Some(c.1)), freshId, now))
          && records == old(records)[freshId := r.value]
        case Err(e) =>
          r == Err(e) && records == old(records)
    {
      var d := data;
      if d.latitude.None? || d.longitude.None? {
        var found := geocode(FullAddress(d.street, d.city, d.country));
        if found.None? {
          return Err(UnpackNone);
        }
        d := d.(latitude := Some(found.value.0), longitude := Some(found.value.1));
      }
      var address := NewRecord(d, freshId, now);
      records := records[freshId := address];
      r := Ok(address);
    }

    /** `get_address`. */
    function GetAddress(id: string): (r: Result<Address, ServiceError>)
      reads this
      ensures r.Ok? <==> id in records
      ensures r.Ok? ==> r.value == records[id]
      ensures r.Err? ==> r.error == ValueError(AddressNotFound)
    {
      if id in records then Ok(records[id]) else Err(ValueError(AddressNotFound))
    }

    /** `update_address`. */
    method UpdateAddress(id: string, data: AddressUpdate, geocode: Geocoder, now: Timestamp)
      returns (r: Result<Address, ServiceError>)
      requires Valid()
      modifies this
      ensures Valid()
      ensures id !in old(records) ==> r == Err(ValueError(AddressNotFound)) && records == old(records)
      ensures id in old(records) ==> r == UpdatedRecord(old(records)[id], data, geocode, now)
      ensures r.Ok? ==> records == old(records)[id := r.value]
      ensures r.Err? ==> records == old(records)
    {
      if id !in records {
        return Err(ValueError(AddressNotFound));
      }
      var address := ApplyUpdate(records[id], data);
      if address.latitude.None? || address.longitude.None? {
        var found := geocode(FullAddress(Text(address.street), Text(address.city), Text(address.country)));
        if found.None? {
          return Err(UnpackNone);
        }
        address := address.(latitude := Some(found.value.0), longitude := Some(found.value.1));
      }
      address := address.(updatedAt := now);
      records := records[id := address];
      r := Ok(address);
    }

    /** `delete_address`. */
    method DeleteAddress(id: string) returns (r: Result<(), ServiceError>)
      requires Valid()
      modifies this
      ensures Valid()
      ensures r.Ok? <==> id in old(records)
      ensures r.Ok? ==> records == old(records) - {id}
      ensures r.Err? ==> r.error == ValueError(AddressNotFound) && records == old(records)
    {
      if id !in records {
        return Err(ValueError(AddressNotFound));
      }
      records := records - {id};
      r := Ok(());
    }

    /** `scan` lists every stored identifier once: the order in which the table returns its rows. */
    predicate IsScan(scan: seq<string>)
      reads this
    {
      && (forall i :: 0 <= i < |scan| ==> scan[i] in records)
      && (forall i, j :: 0 <= i < j < |scan| ==> scan[i] != scan[j])
      && (forall id :: id in records ==> id in scan)
    }

    /** The rows of the identifiers in `scan`, in that order. */
    function Rows(scan: seq<string>): (rows: seq<Address>)
      reads this
      requires forall i :: 0 <= i < |scan| ==> scan[i] in records
      ensures |rows| == |scan|
      ensures forall i :: 0 <= i < |scan| ==> rows[i] == records[scan[i]]
    {
      if scan == [] then [] else [records[scan[0]]] + Rows(scan[1..])
    }

    /** A row is in a full scan exactly when it is a stored row. */
    lemma ScanRows(scan: seq<string>)
      requires IsScan(scan)
      ensures forall a :: a in Rows(scan) <==> a in records.Values
    {
      var rows := Rows(scan);
      forall a | a in records.Values ensures a in rows {
        var id :| id in records && records[id] == a;
        var i :| 0 <= i < |scan| && scan[i] == id;
        assert rows[i] == a;
      }
    }

    /** `get_addresses_within_radius`, with the rows in the order of `scan`. */
    function GetAddressesWithinRadius(scan: seq<string>, latitude: real, longitude: real, radiusKm: real,
                                      cosLatitude: real, distance: Distance): (r: Result<seq<Address>, ServiceError>)
      reads this
      requires IsScan(scan)
      ensures r == Err(ValueError(RadiusNotPositive)) <==> radiusKm <= 0.0
      ensures r.Ok? <==> radiusKm > 0.0 && cosLatitude != 0.0
      ensures r.Err? && radiusKm > 0.0 ==> r.error == ZeroDivision
      ensures r.Ok? ==> forall a :: a in r.value ==>
        && a in records.Values
        && InBox(a, BoundingBox(latitude, longitude, radiusKm, cosLatitude))
        && WithinRadius(a, latitude, longitude, radiusKm, distance)
      ensures r.Ok? ==> forall id :: id in records ==>
        (InBox(records[id], BoundingBox(latitude, longitude, radiusKm, cosLatitude))
         && WithinRadius(records[id], latitude, longitude, radiusKm, distance)
         ==> records[id] in r.value)
      ensures r.Ok? ==> r.value == Filter(Rows(scan), Matches(latitude, longitude, radiusKm, cosLatitude, distance))
    {
      ScanRows(scan);
      if radiusKm > 0.0 && cosLatitude != 0.0 then
        SearchIsOneFilter(Rows(scan), latitude, longitude, radiusKm, cosLatitude, distance,
                          Matches(latitude, longitude, radiusKm, cosLatitude, distance));
        SearchRows(Rows(scan), latitude, longitude, radiusKm, cosLatitude, distance)
      else
        SearchRows(Rows(scan), latitude, longitude, radiusKm, cosLatitude, distance)
    }
  }
}
