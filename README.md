# Address book service: a Dafny model

This project models the core of an address-book HTTP API written in Python with FastAPI and SQLModel:

- the **service layer** (`src/services/address_service.py`). It is a keyed store of address rows. It supports create with geocode-if-missing, get, partial update with re-geocode, delete, and a two-phase radius search: a bounding-box pre-filter, then an exact distance check.
- the **router** (`src/routes/address.py`). It resolves the search centre and maps service exceptions to HTTP status codes.
- the **request schemas** (`src/schemas/address.py`). They set the field length limits and coordinate ranges, and say which fields are required or nullable.

Modules, one per source component:

| file | module | models |
|---|---|---|
| `wrappers.dfy` | `Wrappers` | `Option` (Python's `Optional`) and `Result` (a value or a raised exception) |
| `seqs.dfy` | `Seqs` | `Filter`, the order-preserving list comprehension with an `if`, and its lemmas |
| `geo.dfy` | `Geo` | the geocoder and the great-circle distance, as abstract function types |
| `schemas.dfy` | `Schemas` | `AddressBase`/`AddressCreate`/`AddressUpdate`/`AddressRead`, their bounds, and the validation of JSON bodies |
| `address_service.dfy` | `AddressService` | the stored row, the service's exceptions, the pure specifications and the `AddressStore` class |
| `routes.dfy` | `Routes` | status mapping, centre resolution and the five handlers |

How the model represents the source:

- The ORM session and table become `AddressStore.records: map<string, Address>`. `create`, `update` and `delete` are methods that reassign that map. `get` and the radius search are functions that read it.
- The ORM model assigns the identifier and the timestamps. Here they arrive as `freshId` and `now`, and `datetime.utcnow()` is `now` as well.
- The geocoder is a parameter of type `string -> Option<(real, real)>`. The haversine distance is a parameter of type `(real, real, real, real) -> real`. The value `cos(radians(latitude))` is a parameter `cosLatitude`, or `cosOf` in the router.
- Floats are `real`. The search rows come back in the order given by `scan`, a parameter that lists every stored identifier once. The database's row order is not specified, so the caller supplies it.
- Three exceptions are distinguished:
  - `ValueError(message)`, the only one the router catches;
  - `UnpackNone`, the `TypeError` raised by `lat, lon = geocode_address(...)` when the geocoder answers `None`;
  - `ZeroDivision`, raised by the longitude delta when the cosine is exactly zero.
- A handler's result is either `Response(status, body)` or `Escaped(error)` for an exception the handler does not catch.

Notes on the code as written:

- **Create.** A failed geocode raises at the tuple unpack on line 24. The `ValueError("Unable to geocode address")` check on lines 25-26 can never fire, because a geocoder answer is a pair of floats. The router catches only `ValueError`, so that failure escapes the handler instead of becoming a 400. `CreateCoordinates` proves it never yields that `ValueError`. `CreateAddressRoute` proves every response it gives is a 201.
- **Update.** A failed re-geocode does not leave the coordinates null. It raises the same unpack error on line 65 and nothing is stored. So every stored row always has both coordinates: `AddressStore.Valid`.
- **Poles.** The code does not guard the longitude delta at the poles. The model only separates a cosine of exactly zero (`ZeroDivisionError`) from any other value.
- **Partial update.** An update assigns every field the request carries, `null` included. `postal_code` must always be carried, because the schema declares it required, although it may be `null`. So a row's text columns can become null. The model's row keeps them as `Option<string>`, and a null column is rendered `"None"` in the text sent to the geocoder.

## Model

| member | source | states |
|---|---|---|
| `Seqs.Filter` | src/services/address_service.py:109-112 | the comprehension keeps only elements that pass, all taken from the input, never more than the input |
| `Seqs.FilterMembership` | src/services/address_service.py:109-112 | an element is in the result exactly when it is in the input and passes the test |
| `Seqs.FilterMembershipAll` | src/services/address_service.py:109-112 | the same, for every element at once |
| `Seqs.FilterAppend` | src/services/address_service.py:109-112 | the comprehension preserves order: filtering `s + t` gives the kept part of `s` followed by the kept part of `t` |
| `Seqs.FilterTwice` | src/services/address_service.py:103-112 | a filter followed by a filter equals one filter by the conjunction |
| `Schemas.RequiredText` | src/schemas/address.py:12-16 | a required `str` field is accepted exactly when present, not null and within its maximum length, and keeps its value |
| `Schemas.OptionalNumber` | src/schemas/address.py:17-18 | an optional coordinate defaults to `None`; a present value is accepted exactly when it lies in the inclusive range |
| `Schemas.NullableText` | src/schemas/address.py:35 | `postal_code` of an update must be present; it may be null; a text value obeys the 10-character limit |
| `Schemas.PatchField` | src/schemas/address.py:32-38 | an update field defaults to `None`: absent means unset, null means set to `None`, a value is set only within the base schema's bound |
| `Schemas.ParseBase` | src/schemas/address.py:8-25 | a body is an `AddressBase` (and an `AddressCreate`) exactly when all five texts are present within 100/255/100/10/100 characters and any coordinate lies in [-90, 90] / [-180, 180]; an accepted body satisfies `ValidBase` and carries every text of the body unchanged and each coordinate sent, an absent coordinate becoming `None` |
| `Schemas.ParseUpdate` | src/schemas/address.py:28-38 | an accepted update body has `postal_code` present and is within every bound; a field counts as set exactly when the body carries it |
| `Schemas.ParseBaseRoundTrip` | src/schemas/address.py:8-18 | serialising an `AddressBase` and validating it gives it back exactly when it is within the bounds, and a rejection otherwise |
| `Schemas.ParseUpdateRoundTrip` | src/schemas/address.py:28-38 | the same round trip for `AddressUpdate`, with unset fields left out of the body |
| `Schemas.ParseBaseInverse` | src/schemas/address.py:17-18 | an accepted body re-serialises to a body that validates to the same value; an absent latitude or longitude comes back as `null` |
| `AddressService.CreateCoordinates` | src/services/address_service.py:22-28 | with both coordinates given, they are used verbatim; otherwise the geocoder's answer for `street + ", " + city + ", " + country` replaces both; no answer is the unpack error and never the `ValueError` |
| `AddressService.CreateIgnoresGeocoder` | src/services/address_service.py:22 | with both coordinates given, the outcome is the same whatever the geocoder does, so it is not consulted |
| `AddressService.CreateAsksFullAddressOnly` | src/services/address_service.py:23-24 | the outcome depends on the geocoder only through its answer for the composed full address |
| `AddressService.NewRecord` | src/schemas/address.py:41-47 | a created row, read through `AddressRead`, is the request's base fields plus the new id and `created_at` = `updated_at` = now |
| `AddressService.ApplyUpdate` | src/services/address_service.py:59-61 | the `setattr` loop over the explicitly set fields produces `Patched`: each column the request carries takes its value, null included, and every other column is unchanged |
| `AddressService.SetAllAppend` | src/services/address_service.py:60-61 | assigning the items of `s + t` equals assigning those of `s` and then those of `t` |
| `AddressService.ExplicitFieldsApplied` | src/services/address_service.py:59-61 | assigning the fields of `model_dump(exclude_unset=True)` in turn yields `Patched` |
| `AddressService.UpdatedRecord` | src/services/address_service.py:59-69 | after the fields are applied, re-geocoding happens only if a coordinate is null, using the post-update street/city/country; it overwrites both coordinates or raises the unpack error; `updated_at` becomes now; the id and `created_at` are kept |
| `AddressService.UpdateIgnoresGeocoder` | src/services/address_service.py:63 | an update that leaves both coordinates set does not depend on the geocoder |
| `AddressService.UpdateKeepsUnsentFields` | src/services/address_service.py:59-67 | name, street, city and country keep their old values when the request does not carry them; the coordinates keep theirs only when the request carries neither and the row had both, since a re-geocode replaces both |
| `AddressService.BoundingBox` | src/services/address_service.py:100-101 | the box is centred on the point, with a latitude half-width of r/111 and a longitude half-width of r/(111·cos(latitude)); for a positive radius the centre lies strictly inside the latitude range; a positive cosine also puts it inside the longitude range; a negative one makes the longitude range empty |
| `AddressService.SearchRows` | src/services/address_service.py:97-112 | radius ≤ 0 is exactly the "Radius must be greater than zero" error; otherwise a row is in the result exactly when it is a row inside the inclusive box and within the radius |
| `AddressService.SearchIsOneFilter` | src/services/address_service.py:103-112 | the two-phase search equals one order-preserving filter of the rows by "inside the box and within the radius" |
| `AddressService.SearchKeepsOrder` | src/services/address_service.py:107-112 | searching rows `r1 + r2` gives the results for `r1` followed by those for `r2` |
| `AddressService.AddressStore.CreateAddress` | src/services/address_service.py:18-34 | on success the new row is stored under the fresh id and nothing else changes; on geocoder failure it raises the unpack error and stores nothing; the invariant is kept |
| `AddressService.AddressStore.GetAddress` | src/services/address_service.py:37-44 | returns the stored row exactly when the id is present, otherwise `ValueError("Address not found")` |
| `AddressService.AddressStore.UpdateAddress` | src/services/address_service.py:47-73 | an unknown id raises "Address not found" and changes nothing; otherwise the outcome is `UpdatedRecord`; on success exactly that key changes, on failure nothing does |
| `AddressService.AddressStore.DeleteAddress` | src/services/address_service.py:76-85 | succeeds exactly when the id is present and then removes exactly that key; otherwise raises "Address not found" and changes nothing |
| `AddressService.AddressStore.Rows` | src/services/address_service.py:107 | the rows of a scan, in scan order |
| `AddressService.AddressStore.ScanRows` | src/services/address_service.py:107 | a full scan yields exactly the stored rows |
| `AddressService.AddressStore.GetAddressesWithinRadius` | src/services/address_service.py:88-113 | radius ≤ 0 is exactly the radius error; every result is a stored row inside the inclusive box and within the radius; every stored row inside the box and within the radius is a result; the result is the rows of the scan that match, in scan order, each listed once; the store is only read |
| `Routes.CreateResponse` | src/routes/address.py:14-25 | success is 201 with the row; a `ValueError` is 400 carrying the service's message; any other exception escapes as raised |
| `Routes.FetchResponse` | src/routes/address.py:36-41 | success is 200 with the row; any `ValueError` is 404 "Address not found", whatever its message; any other exception escapes as raised |
| `Routes.DeleteResponse` | src/routes/address.py:61-74 | success is 204 with no body; any `ValueError` is 404 "Address not found"; any other exception escapes as raised |
| `Routes.CreateAddressRoute` | src/routes/address.py:14-25 | every response is a 201 with the stored row, which is the request's fields with the coordinates given or geocoded, the new id and both timestamps set to now; the handler fails, by an escaping unpack error with nothing stored, exactly when a coordinate is missing and geocoding the full address finds nothing |
| `Routes.GetAddressRoute` | src/routes/address.py:28-41 | 200 with the stored row when the id is present, else 404 "Address not found" |
| `Routes.UpdateAddressRoute` | src/routes/address.py:44-58 | an unknown id is 404 with the store unchanged; otherwise 200 with the updated row, or the escaping unpack error with the store unchanged |
| `Routes.DeleteAddressRoute` | src/routes/address.py:61-74 | a present id is 204 and exactly that row is removed; an unknown id is 404 with the store unchanged |
| `Routes.SearchCentre` | src/routes/address.py:90-103 | a non-empty address is geocoded and its answer is the centre, or 400 "Unable to geocode the provided address"; without one, both `lat` and `lon` are needed, or 400 "Either coordinates or address must be provided" |
| `Routes.SearchAddressesRoute` | src/routes/address.py:77-107 | a centre failure is returned before the service is asked; with the query bounds (radius > 0) the radius error never escapes; a 200 carries the service's result for the resolved centre, which lists exactly the stored rows inside the box and within the radius; a resolved centre whose latitude has cosine zero lets the `ZeroDivisionError` escape, and any other resolved centre gives a 200 |
| `Routes.AddressOverridesCoordinates` | src/routes/address.py:90-97 | with a non-empty address, the `lat`/`lon` sent beside it do not affect the centre |
| `Routes.EmptyAddressIgnored` | src/routes/address.py:90 | an empty address string is treated as no address |

`AddressCreate` is declared as a type synonym of `AddressBase`, so it accepts exactly what `AddressBase` accepts (src/schemas/address.py:21-25). The query bounds of the search handler (src/routes/address.py:79-82) are the predicate `Routes.ValidSearchQuery`, a precondition of `SearchAddressesRoute`, because FastAPI checks them before the handler runs.

## Left out

- `geocode_address` (src/utils/geo.py:8-30) is an HTTP client. It is an abstract `Geocoder` parameter. Transport errors and malformed provider answers are not modelled.
- `haversine_distance` (src/utils/geo.py:33-51) is floating-point trigonometry. It is an abstract `Distance` parameter. Its properties (zero on equal points, symmetry, numeric values) are not stated.
- `cos(radians(latitude))` is an abstract real. As a result, the guarantee that the bounding box contains every point within the radius is not stated. That guarantee needs spherical geometry, and the code neither wraps longitudes at the antimeridian nor guards the poles.
- Floats are exact reals: rounding, NaN and infinities are not modelled.
- The SQLModel session, `commit`/`refresh` and the `AddressModel` class are not part of this model. Column constraints, such as a NOT NULL on a text column that an update sets to null, and any database error on commit are therefore not modelled. The row order of the database is the `scan` parameter.
- `AddressStore.CreateAddress` requires that `freshId` is not yet a key. The ORM's identifier default is not shown, and it is assumed to produce fresh identifiers. Both timestamps of a new row are taken to be the same `now`.
- FastAPI routing, dependency injection, response serialisation, response-model validation and the automatic 422 responses are framework plumbing. Request validation is modelled as the `Parse…` functions and `ValidSearchQuery`. What the framework does with an escaping exception is not modelled.
- Pydantic's type coercion (numbers sent as strings, and the like) is not modelled. Fields are either of the declared type, null, or absent.
- Logging (src/core/logging.py) and application start-up (src/main.py) are plumbing.
- Concurrent requests are out of scope: every operation runs alone.
