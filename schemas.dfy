/**
 * The request and response schemas of the address API (src/schemas/address.py):
 * the shape of each schema and the bounds its fields carry, with the validation
 * that turns a JSON request body into a schema instance or rejects it.
 */
module Schemas {
  import opened Wrappers

  /** A point in time (`datetime`), as an abstract count of ticks. */
  type Timestamp = nat

  const MaxNameLength: nat := 100
  const MaxStreetLength: nat := 255
  const MaxCityLength: nat := 100
  const MaxPostalCodeLength: nat := 10
  const MaxCountryLength: nat := 100

  const MinLatitude: real := -90.0
  const MaxLatitude: real := 90.0
  const MinLongitude: real := -180.0
  const MaxLongitude: real := 180.0

  /** One field of a JSON body as it arrives: absent, explicitly `null`, or a value. */
  datatype Raw<T> = Missing | Null | Given(value: T)

  /** A JSON body sent to create or update an address, before validation. */
  datatype RequestBody = RequestBody(
    name: Raw<string>,
    street: Raw<string>,
    city: Raw<string>,
    postalCode: Raw<string>,
    country: Raw<string>,
    latitude: Raw<real>,
    longitude: Raw<real>)

  /** `AddressBase`: five required texts and two optional coordinates. */
  datatype AddressBase = AddressBase(
    name: string,
    street: string,
    city: string,
    postalCode: string,
    country: string,
    latitude: Option<real>,
    longitude: Option<real>)

  /** `AddressCreate` adds nothing to `AddressBase`. */
  type AddressCreate = AddressBase

  /** A field of a partial update: not sent (`Unset`), or sent with a value that may be `None`. */
  datatype Patch<T> = Unset | Set(value: Option<T>)

  /**
   * `AddressUpdate`: every field defaults to `None` and is only "set" when the body
   * carries it, except `postal_code`, which the body must carry (possibly as `null`)
   * and which is therefore always set.
   */
  datatype AddressUpdate = AddressUpdate(
    name: Patch<string>,
    street: Patch<string>,
    city: Patch<string>,
    postalCode: Option<string>,
    country: Patch<string>,
    latitude: Patch<real>,
    longitude: Patch<real>)

  /** `AddressRead`: the base shape plus identifier and the two timestamps. */
  datatype AddressRead = AddressRead(base: AddressBase, id: string, createdAt: Timestamp, updatedAt: Timestamp)

  /** An optional number that, when present, lies in the inclusive range [lo, hi]. */
  predicate InRange(x: Option<real>, lo: real, hi: real) {
    x.Some? ==> lo <= x.value <= hi
  }

  /** A text that, when present, has at most `max` characters. */
  predicate FitsIn(t: Option<string>, max: nat) {
    t.Some? ==> |t.value| <= max
  }

  predicate ValidBase(b: AddressBase) {
    && |b.name| <= MaxNameLength
    && |b.street| <= MaxStreetLength
    && |b.city| <= MaxCityLength
    && |b.postalCode| <= MaxPostalCodeLength
    && |b.country| <= MaxCountryLength
    && InRange(b.latitude, MinLatitude, MaxLatitude)
    && InRange(b.longitude, MinLongitude, MaxLongitude)
  }

  /** The bounds of the base schema, applied to every field of an update that carries a value. */
  predicate ValidUpdate(u: AddressUpdate) {
    && (u.name.Set? ==> FitsIn(u.name.value, MaxNameLength))
    && (u.street.Set? ==> FitsIn(u.street.value, MaxStreetLength))
    && (u.city.Set? ==> FitsIn(u.city.value, MaxCityLength))
    && FitsIn(u.postalCode, MaxPostalCodeLength)
    && (u.country.Set? ==> FitsIn(u.country.value, MaxCountryLength))
    && (u.latitude.Set? ==> InRange(u.latitude.value, MinLatitude, MaxLatitude))
    && (u.longitude.Set? ==> InRange(u.longitude.value, MinLongitude, MaxLongitude))
  }

  // ---------------------------------------------------------------------------
  // Validation of one field. `None` means the body is rejected.

  /** A required `str` field with a maximum length. */
  function RequiredText(f: Raw<string>, max: nat): (r: Option<string>)
    ensures r.Some? <==> f.Given? && |f.value| <= max
    ensures r.Some? ==> r.value == f.value
  {
    match f
    case Given(s) => if |s| <= max then Some(s) else None
    case _ => None
  }

  /** An optional `float` field that defaults to `None`; a present value must lie in [lo, hi]. */
  function OptionalNumber(f: Raw<real>, lo: real, hi: real): (r: Option<Option<real>>)
    ensures r.Some? <==> (f.Given? ==> lo <= f.value <= hi)
    ensures r.Some? ==> InRange(r.value, lo, hi)
    ensures r.Some? ==> (r.value.Some? <==> f.Given?) && (f.Given? ==> r.value.value == f.value)
  {
    match f
    case Given(x) => if lo <= x <= hi then Some(Some(x)) else None
    case _ => Some(None)
  }

  /** A required field that may be `null` (`Optional[str] = Field(...)`). */
  function NullableText(f: Raw<string>, max: nat): (r: Option<Option<string>>)
    ensures r.Some? <==> !f.Missing? && (f.Given? ==> |f.value| <= max)
    ensures r.Some? ==> FitsIn(r.value, max)
    ensures r.Some? ==> (r.value.Some? <==> f.Given?) && (f.Given? ==> r.value.value == f.value)
  {
    match f
    case Missing => None
    case Null => Some(None)
    case Given(s) => if |s| <= max then Some(Some(s)) else None
  }

  /** An update field that defaults to `None`: absent means not set, `null` means set to `None`. */
  function PatchField<T>(f: Raw<T>, ok: T -> bool): (r: Option<Patch<T>>)
    ensures r.Some? <==> (f.Given? ==> ok(f.value))
    ensures r.Some? ==> (r.value.Unset? <==> f.Missing?)
    ensures r.Some? && f.Null? ==> r.value == Set(None)
    ensures r.Some? && f.Given? ==> r.value == Set(Some(f.value))
  {
    match f
    case Missing => Some(Unset)
    case Null => Some(Set(None))
    case Given(x) => if ok(x) then Some(Set(Some(x))) else None
  }

  // ---------------------------------------------------------------------------
  // Validation of a whole body.

  /** Validation of a body against `AddressBase` (and so `AddressCreate`). */
  function ParseBase(body: RequestBody): (r: Option<AddressBase>)
    ensures r.Some? ==> ValidBase(r.value)
    ensures r.Some? <==>
      && body.name.Given? && |body.name.value| <= MaxNameLength
      && body.street.Given? && |body.street.value| <= MaxStreetLength
      && body.city.Given? && |body.city.value| <= MaxCityLength
      && body.postalCode.Given? && |body.postalCode.value| <= MaxPostalCodeLength
      && body.country.Given? && |body.country.value| <= MaxCountryLength
      && (body.latitude.Given? ==> MinLatitude <= body.latitude.value <= MaxLatitude)
      && (body.longitude.Given? ==> MinLongitude <= body.longitude.value <= MaxLongitude)
    ensures r.Some? ==>
      BaseBody(r.value) == body.(latitude := if body.latitude.Missing? then Null else body.latitude,
                                 longitude := if body.longitude.Missing? then Null else body.longitude)
  {
    var name := RequiredText(body.name, MaxNameLength);
    var street := RequiredText(body.street, MaxStreetLength);
    var city := RequiredText(body.city, MaxCityLength);
    var postalCode := RequiredText(body.postalCode, MaxPostalCodeLength);
    var country := RequiredText(body.country, MaxCountryLength);
    var latitude := OptionalNumber(body.latitude, MinLatitude, MaxLatitude);
    var longitude := OptionalNumber(body.longitude, MinLongitude, MaxLongitude);
    if name.Some? && street.Some? && city.Some? && postalCode.Some? && country.Some?
       && latitude.Some? && longitude.Some?
    then Some(AddressBase(name.value, street.value, city.value, postalCode.value, country.value,
                          latitude.value, longitude.value))
    else None
  }

  /** Validation of a body against `AddressUpdate`. */
  function ParseUpdate(body: RequestBody): (r: Option<AddressUpdate>)
    ensures r.Some? ==> ValidUpdate(r.value)
    ensures r.Some? ==> !body.postalCode.Missing?
    ensures r.Some? ==>
      && (r.value.name.Unset? <==> body.name.Missing?)
      && (r.value.street.Unset? <==> body.street.Missing?)
      && (r.value.city.Unset? <==> body.city.Missing?)
      && (r.value.country.Unset? <==> body.country.Missing?)
      && (r.value.latitude.Unset? <==> body.latitude.Missing?)
      && (r.value.longitude.Unset? <==> body.longitude.Missing?)
  {
    var name := PatchField(body.name, (s: string) => |s| <= MaxNameLength);
    var street := PatchField(body.street, (s: string) => |s| <= MaxStreetLength);
    var city := PatchField(body.city, (s: string) => |s| <= MaxCityLength);
    var postalCode := NullableText(body.postalCode, MaxPostalCodeLength);
    var country := PatchField(body.country, (s: string) => |s| <= MaxCountryLength);
    var latitude := PatchField(body.latitude, (x: real) => MinLatitude <= x <= MaxLatitude);
    var longitude := PatchField(body.longitude, (x: real) => MinLongitude <= x <= MaxLongitude);
    if name.Some? && street.Some? && city.Some? && postalCode.Some? && country.Some?
       && latitude.Some? && longitude.Some?
    then Some(AddressUpdate(name.value, street.value, city.value, postalCode.value, country.value,
                            latitude.value, longitude.value))
    else None
  }

  // ---------------------------------------------------------------------------
  // Serialisation, the inverse of validation.

  function Emit<T>(x: Option<T>): Raw<T> {
    if x.Some? then Given(x.value) else Null
  }

  function EmitPatch<T>(p: Patch<T>): Raw<T> {
    if p.Unset? then Missing else Emit(p.value)
  }

  /** The JSON body that carries an `AddressBase`. */
  function BaseBody(b: AddressBase): RequestBody {
    RequestBody(Given(b.name), Given(b.street), Given(b.city), Given(b.postalCode), Given(b.country),
                Emit(b.latitude), Emit(b.longitude))
  }

  /** The JSON body that carries an `AddressUpdate`: unset fields are left out. */
  function UpdateBody(u: AddressUpdate): RequestBody {
    RequestBody(EmitPatch(u.name), EmitPatch(u.street), EmitPatch(u.city), Emit(u.postalCode),
                EmitPatch(u.country), EmitPatch(u.latitude), EmitPatch(u.longitude))
  }

  /** A base record survives serialisation and validation exactly when it is within the bounds. */
  lemma ParseBaseRoundTrip(b: AddressBase)
    ensures ParseBase(BaseBody(b)) == (if ValidBase(b) then Some(b) else None)
  {
  }

  /** An update survives serialisation and validation exactly when it is within the bounds. */
  lemma ParseUpdateRoundTrip(u: AddressUpdate)
    ensures ParseUpdate(UpdateBody(u)) == (if ValidUpdate(u) then Some(u) else None)
  {
  }

  /** A body that validates is, up to `null` for an absent coordinate, the body of what it validated to. */
  lemma ParseBaseInverse(body: RequestBody)
    requires ParseBase(body).Some?
    ensures ParseBase(BaseBody(ParseBase(body).value)) == ParseBase(body)
    ensures BaseBody(ParseBase(body).value).latitude == (if body.latitude.Given? then body.latitude else Null)
    ensures BaseBody(ParseBase(body).value).longitude == (if body.longitude.Given? then body.longitude else Null)
  {
  }
}
