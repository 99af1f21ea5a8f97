# Wedding Planner API — core model

The Wedding Planner API is a small FastAPI service. It has two operations:

- `GET /api/planners` reads planner documents from a document store and
  maps each one to a `PlannerOut` record. When the store cannot be read, it
  serves two built-in sample planners instead.
- `POST /api/inquiries` takes an inquiry body (`InquiryIn`) and rebuilds it
  as the stricter `Inquiry` schema, which has a validated email and a
  non-negative guest count. It then inserts the inquiry into the store and
  answers `{"status": "ok", "id": …}`. Any exception along the way is
  answered with a demo acknowledgement.

The schemas `PackageOption`, `Planner` and `Inquiry` define which fields
exist, their defaults and their bounds. The collection a schema is stored in
is its class name in lower case.

The model has four modules:

- `Wrappers` holds `Option` and `Result`.
- `Values` holds raw documents as untyped maps (`Value`, `Fields`), the
  exceptions (`Error`), `dict.get`, `str()`, and the per-field checks a
  pydantic model applies.
- `Schemas` holds the three schemas. Each has a `Decode…` function that
  validates keyword arguments into the schema or gives a `ValidationError`.
- `Endpoints` holds `PlannerOut`, the record mapper, the listing method, the
  sample fallback, `InquiryIn` and the inquiry acceptor.

The store is not code the model can see, so it enters as a parameter. The
listing receives a `FindReply`: either the documents, or `Raised` when the
read failed. The acceptor receives an `InsertReply`. Both handlers also
return the call they issued, so the model states what reaches the store.
Email syntax checking (`EmailStr`) is likewise a parameter, `EmailCheck`: it
maps a string to its normalised form, or to `None` when the address is
rejected.

A malformed email is not answered with a client error. The `Inquiry`
construction that checks it sits inside a `try` whose handler catches every
exception (main.py:134), so such a request gets the demo acknowledgement and
nothing is stored; see `Endpoints.MalformedEmailAcknowledged`.

The store path of the listing reads every field with `d.get`, so an absent
`name` becomes `None` and fails PlannerOut's validation. The fallback path
reads `name` and `location` with `x[...]`, which would raise `KeyError`. The
`Access` parameter (`ByGet` or `ByIndex`) captures this difference. The
arguments of `PlannerOut(...)` are evaluated in order. So a `KeyError`
comes first, then any exception from the package comprehension, and only
then PlannerOut's own validation.

## Model

| member | source | states |
|---|---|---|
| Values.StrItems | schemas.py:14 | a `List[str]` value validates exactly when every item is a string; the result has one string per item, in order |
| Values.StrListRoundTrip | schemas.py:23 | any list of strings, stored as a list, validates back to the same list |
| Values.NatTextRoundTrip | main.py:82 | the decimal text `str()` gives a non-negative integer id reads back as that integer (digits only, no leading zero) |
| Values.NatText | main.py:82 | the decimal text of a non-negative integer is at least one digit, all digits, with no leading zero |
| Values.IntText | main.py:102 | the text of an integer is its digits with no leading zero, after a `-` when negative, and reads back as the integer |
| Values.PyStr | main.py:82 | `str()` of an id: `"None"` for None, `"True"`/`"False"` for booleans, the string itself, the ObjectId's hex, and for an int its digits with no leading zero, after a `-` when negative, reading back as the int |
| Values.Get | main.py:84 | `d.get(key, default)` is the stored value when the key is present and the default only when it is absent |
| Schemas.CollectionName | schemas.py:4-5 | the collection name has the class name's length, no upper-case letter, and agrees with the class name lower-cased letter by letter |
| Schemas.CollectionNames | main.py:44 | `Planner` is stored in `planner` and `Inquiry` in `inquiry`, the literals the handlers use (main.py:44, main.py:132) |
| Schemas.DecodePackage | schemas.py:11-14 | an accepted package has a non-negative price, the given name and price (an int is widened to float), and features that default to `[]`; a rejected one is a `PackageOption` ValidationError naming at least one field |
| Schemas.PackageAccepted | schemas.py:11-14 | a package validates if and only if `name` is a string, `price` is a number ≥ 0, and `features` is absent or a list of strings |
| Schemas.PackageRejected | schemas.py:12-13 | a missing name, a missing price or a negative price is rejected |
| Schemas.PackageRoundTrip | schemas.py:11-14 | every valid package, written out as keyword arguments, validates back to itself |
| Schemas.PackageItems | schemas.py:25 | a `List[PackageOption]` validates exactly when every item is a mapping that validates as a package, one package per item, in order |
| Schemas.PackageListRoundTrip | schemas.py:25 | a list of valid packages, stored as mappings, validates back to the same list |
| Schemas.DecodePlanner | schemas.py:17-27 | an accepted planner is valid (rating in [0, 5], reviews ≥ 0, each package valid) and has the given name and location; an absent field takes its default (rating 5.0, reviews 0, empty specialties and packages, None for tagline, image_url, instagram and website); failures are `Planner` ValidationErrors naming at least one field |
| Schemas.PlannerPresent | schemas.py:19-27 | every optional field that is given is the value it validates to: rating, review count, specialties, packages, tagline, image_url, instagram and website |
| Schemas.PlannerDefaults | schemas.py:18-27 | a planner built from only a name and a location has every default |
| Schemas.PlannerRejected | schemas.py:18-25 | a missing name or location, a rating outside [0, 5], a negative review count, a `packages` value that is not a list, or a package item that is not a mapping or does not validate is rejected |
| Schemas.PlannerRoundTrip | schemas.py:17-27 | every valid planner, written out as keyword arguments, validates back to itself |
| Schemas.DecodeInquiry | schemas.py:30-37 | an accepted inquiry is valid (guest count ≥ 0 when present), has the given name, and its email is the one the email check returns; a missing name or email, a rejected email or a negative guest count gives an `Inquiry` ValidationError |
| Schemas.InquiryPresent | schemas.py:31-37 | each optional inquiry field is the value it validates to when given and None when absent |
| Endpoints.MapPackages | main.py:110 | the package comprehension over a list succeeds exactly when every item is a mapping that validates, and then yields those packages; `""` and `{}` yield none; any other value raises TypeError |
| Endpoints.MapPackageItems | main.py:90 | on failure, the exception is the one from the first item that is not a mapping (TypeError) or that does not validate (its ValidationError) |
| Endpoints.Required | main.py:83 | `x[key]` gives the stored value or raises KeyError for an absent key; `d.get(key)` (main.py:103) gives None instead |
| Endpoints.MapRecord | main.py:101-113 | a mapped record's id is `str()` of `_id` (`"None"` when absent); name and location are the document's strings; on the store path the failure is never a KeyError |
| Endpoints.MapRecordDefaults | main.py:102-112 | absent optional fields take 5.0, 0, `[]`, `[]`, None and id `"None"` |
| Endpoints.MapRecordPresent | main.py:102-112 | a field that is present is taken as given; a default never replaces it |
| Endpoints.MapRecordRejected | main.py:22-33 | a non-string or missing name or location, a `null` rating, review count or specialties, or packages that cannot be mapped fail the document |
| Endpoints.MapRecordErrorOrder | main.py:81-93 | under `x[key]` a missing name, then a missing location, raises KeyError first; then a package-comprehension exception; only when packages map does PlannerOut's ValidationError come |
| Endpoints.BadPackageRejects | main.py:110 | one package item that is not a mapping or does not validate fails the whole document |
| Endpoints.ListingSkipsRatingBound | main.py:27 | the listing accepts a rating of 7.0 that the Planner schema (schemas.py:21) rejects: PlannerOut has no range check |
| Endpoints.MapRecordRoundTrip | main.py:22-33 | a fully populated document with valid packages maps to the record whose every field equals the document's |
| Endpoints.MapEach | main.py:98-115 | the listing succeeds exactly when every document maps; the output has one record per document, in the same order; on failure the exception is the first failing document's |
| Endpoints.MapEachRaisesFirstBad | main.py:98-115 | when document k is the first that fails, the listing raises exactly that document's exception |
| Endpoints.MapEachFromRecords | main.py:98-115 | when each document maps to the record at its position, the listing is exactly those records |
| Endpoints.MapEachAllOrNothing | main.py:98-115 | one document that fails makes the whole listing fail: there is no partial result |
| Endpoints.SampleDocuments | main.py:47-79 | two sample documents, `demo1` "We Me Good Weddings" then `demo2` "EverAfter Collective", each spelling out all eleven keys |
| Endpoints.WeMeGoodSample | main.py:48-63 | the first sample's id, name and location, two packages, and string instagram and website |
| Endpoints.EverAfterSample | main.py:64-78 | the second sample's id, name and location, one package, and instagram and website present as None |
| Endpoints.FirstSampleMaps | main.py:48-63 | the first sample document maps, by index access, to the "We Me Good Weddings" record |
| Endpoints.SecondSampleMaps | main.py:64-78 | the second sample document maps to the "EverAfter Collective" record; its explicit `None` instagram and website stay None |
| Endpoints.FallbackPlanners | main.py:80-95 | the fallback list is exactly the two sample records, in order, with ids `demo1` and `demo2` |
| Endpoints.ListPlanners | main.py:41-115 | the store is asked for collection `planner` with an empty filter and the given limit (20 by default); with documents the answer is their listing under `get` access; when the store raises, the answer is the fallback listing |
| Endpoints.MapStored | main.py:98-115 | the loop appending one record per document, in store order, returns exactly the listing of the documents, and on the first document that fails, that document's exception |
| Endpoints.DecodeInquiryIn | main.py:118-125 | an accepted body has the given name and email; each optional field (planner_id, phone, event_date, guest_count, message) is its validated value when given and None when absent; a missing name or email is rejected; a rejected body is an `InquiryIn` ValidationError naming at least one field |
| Endpoints.InquiryInMinimal | main.py:118-125 | a body with only a name and any email string is accepted, with every optional field None |
| Endpoints.Dump | main.py:131 | `model_dump()` has exactly the seven InquiryIn keys, the name and email as strings, and `guest_count` None exactly when it was unset |
| Endpoints.DumpRoundTrip | main.py:131 | `model_dump()` of an accepted body validates back to the same body |
| Endpoints.InquiryFromPayload | main.py:131 | the dumped body builds an Inquiry if and only if the email check accepts the email and the guest count is not negative, and then carries every field over |
| Endpoints.SubmitInquiry | main.py:128-136 | the status is always "ok"; an insert into `inquiry` of a valid Inquiry is issued exactly when the Inquiry builds; the answer has no note exactly when the insert succeeded, and then carries the store's id; otherwise it is `demo-inquiry` with the preview note |
| Endpoints.MalformedEmailAcknowledged | main.py:130-136 | a rejected email inserts nothing and is answered with the demo acknowledgement, not an error |
| Endpoints.NegativeGuestCountNotStored | main.py:131 | a negative guest count never reaches the store |
| Endpoints.ValidInquiryStored | main.py:131-133 | a valid payload with a working store is inserted into `inquiry` and answered with the store's id and no note |

## Left out

- The FastAPI application is not modelled: routing, the CORS middleware, response-model re-serialisation to JSON (key order, float formatting) and uvicorn. The root `/` message and the `/test` diagnostics endpoint are left out too; neither is part of the planner or inquiry logic.
- The `database` module is not part of this model. Its reads and inserts are the `FindReply` and `InsertReply` parameters. Truncating to `limit` happens inside the store, so `ListPlanners` only states the limit it passes on. Whatever `create_document` or `get_documents` does besides returning an id or the documents, or raising, is not modelled.
- Request parsing by the framework is left out: query-string conversion of `limit`, and the 422 response for a rejected body, which `DecodeInquiryIn` gives as an `Err`.
- `EmailStr`'s syntax rules are not modelled; they are the `EmailCheck` parameter.
- Pydantic's lax coercions other than int to float are left out, such as numeric strings, booleans as integers, and whole floats as integers. A value of the wrong kind is rejected.
- Floating point is modelled as exact `real` arithmetic. The sample ratings 4.9 and 4.8 are the exact decimals.
- PyStr: the `str()` of a float, list or dict `_id` is the placeholder `"<repr>"`, not Python's repr text. The other kinds of value are exact.
- Schemas.CollectionName: lower-cases ASCII letters only; Unicode case mapping is not modelled.
- The error location a ValidationError reports is reduced to the top-level field names, in declaration order. Nested item locations and messages are left out.
- Concurrency and logging are left out.
