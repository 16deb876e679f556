# EV charging-station management: a Dafny model of the station core

This project models the core of a small CRUD application for EV charging
stations. The backend is an Express router over a MongoDB collection. The
frontend is a Vue application with two Pinia stores. The model covers four
pieces:

- **Station entity** (`station_model.dfy`). The document schema becomes the
  entity invariant `StationModel.Valid`:
  - a trimmed, non-empty name;
  - latitude in [-90, 90] and longitude in [-180, 180];
  - status `active` or `inactive`;
  - a non-negative power output;
  - one of five connector types.

  `Materialize` models building a document and saving it. The `trim` setter
  and the `active` default run, then every validator; the document is stored
  only if no validator fails.
- **Station routes** (`station_routes.dfy`). This part holds:
  - the six request validators, each failure reported in chain order;
  - the owner-or-admin access rule and the access check;
  - the listing filter and its `canModify` annotation;
  - the handlers, as methods of the class `StationService`.

  The class holds the collection as a `map` from id to station, plus the
  order in which the database returns documents. Database faults are a `Db`
  parameter: did the read succeed, did the write succeed. The id the database
  assigns to a new document is also a parameter.
- **Client station cache** (`station_store.dfy`). The Pinia station store is
  the class `StationCache`, with the fields `stations`, `currentStation`,
  `loading` and `error`. Its actions update these fields in place. Each
  request's outcome is a parameter of type `Http`: the response data, or the
  server's `message` and validation `msg`s.
- **Client session** (`auth_store.dfy`). The Pinia auth store is the class
  `Session`, with the fields `user`, `token` and `persistedToken`. The last
  one stands for the `localStorage` entry. The class also holds a reference
  to the station cache, which `Logout` empties.

`values.dfy` holds `Option`, `Result`, `Http` and JavaScript string
truthiness. `text.dfy` models `String.prototype.trim` (the ECMAScript
white-space set) and `Array.prototype.join`.

Two behaviours of the code are worth stating up front:

- **Owner on update.** `Object.assign(station, req.body)`
  (backend/src/routes/station.routes.js:239) merges the whole request body
  into the loaded station, so a body that carries `createdBy` hands the
  station to that user. `StationRoutes.ValidBodyUpdates` states the merged
  owner as the code computes it.
- **Every route installs `auth`.** The middleware sits on every route
  (backend/src/routes/station.routes.js:74, 129, 180, 231, 274). `Create`,
  `List`, `Update` and `Delete` take `req.user` as an `Actor` parameter.
  `Get` does not read it and takes no actor. The middleware's own 401 reply
  is left out.

## Model

| member | source | states |
|---|---|---|
| `Text.TrimStart` | backend/src/models/station.model.js:8 | the result is the suffix of the input from its first non-space character on, and only white space was dropped |
| `Text.TrimEnd` | backend/src/models/station.model.js:8 | the result is the prefix of the input up to its last non-space character, and only white space was dropped |
| `Text.TrimEdges` | backend/src/models/station.model.js:8 | the result of `trim` has no white space at either end |
| `Text.TrimSlice` | backend/src/models/station.model.js:8 | the result of `trim` is the contiguous slice of its input that starts at its first non-space character |
| `Text.TrimOutside` | backend/src/models/station.model.js:8 | only white space lies before and after the slice that `trim` keeps |
| `Text.TrimFixed` | backend/src/models/station.model.js:8 | a string with no white space at either end is returned unchanged by `trim` |
| `Text.TrimIdempotent` | backend/src/routes/station.routes.js:8 | trimming twice (the route's sanitizer, then the schema's setter) gives the same name as trimming once |
| `Text.TrimEmpty` | backend/src/routes/station.routes.js:8 | `trim().notEmpty()` fails exactly when the name is made only of white space |
| `Text.JoinSnoc` | frontend/src/stores/auth.js:125 | joining one more message appends ", " and that message, so messages appear in the server's order |
| `Text.JoinLength` | frontend/src/stores/auth.js:125 | the joined text's length is the messages' total length plus one separator per pair of neighbours |
| `StationModel.Materialize` | backend/src/models/station.model.js:3-49 | a document is stored iff name (after trim) is non-empty, both coordinates are present and in range, status is absent or one of the two, power is present and non-negative, the connector type is one of the five and `createdBy` is present. A stored station satisfies `Valid`, holds the draft's fields with the name trimmed, and has status `active` when none was given. A rejection lists the failing paths |
| `StationModel.MaterializeRoundTrip` | backend/src/models/station.model.js:3-49 | saving the fields of any valid station stores exactly that station: the schema neither rejects nor alters what it allows |
| `StationRoutes.FailingFrom` | backend/src/routes/station.routes.js:7-24 | the errors of the rules from position k on: a rule's error is present iff the rule fails, and errors come in chain order |
| `StationRoutes.NoFailureIffValid` | backend/src/routes/station.routes.js:7-24 | no rule of the chain reports an error exactly when the body passes all six rules |
| `StationRoutes.BodyErrors` | backend/src/routes/station.routes.js:7-24 | the error list is empty iff all six field rules hold. Each rule's error appears iff that rule fails (all failures are collected, not just the first), and the errors follow the order of the validator chain |
| `StationRoutes.ValidBodyCreates` | backend/src/routes/station.routes.js:76-86 | a body that passes the validators always yields a station the schema accepts. That station carries the body's fields (name trimmed) and is owned by the acting user, whatever `createdBy` the body named |
| `StationRoutes.ValidBodyUpdates` | backend/src/routes/station.routes.js:238-240 | merging a valid body into any stored station yields a schema-valid station with the body's fields. Its owner is the body's `createdBy` when the body has one, otherwise the old owner |
| `StationRoutes.CheckAccess` | backend/src/routes/station.routes.js:27-44 | a missing id gives `Missing` (404). Otherwise access is granted iff the role is `admin` or the station's `createdBy` is the user's id, and is `Denied` (403) in every other case |
| `StationRoutes.BuildQuery` | backend/src/routes/station.routes.js:131-136 | the filter document matches a station iff the station satisfies every supplied non-empty filter: equal status, equal connector type, power at least `minPower`. Absent filters constrain nothing |
| `StationRoutes.Selection` | backend/src/routes/station.routes.js:138 | every selected station is stored under its id and satisfies the filters, and the selection is no longer than the collection |
| `StationRoutes.SelectionComplete` | backend/src/routes/station.routes.js:138 | every stored station that satisfies the filters is selected |
| `StationRoutes.SelectionAppend` | backend/src/routes/station.routes.js:138 | the selection follows the collection's order: stations of an earlier stretch come before those of a later one |
| `StationRoutes.Annotate` | backend/src/routes/station.routes.js:143-146 | the annotated list has the same length and order as the selection, and each entry's `canModify` equals the access rule for the caller |
| `StationRoutes.Without` | backend/src/routes/station.routes.js:276 | removing an id keeps exactly the other ids and keeps them distinct |
| `StationRoutes.StationService.Create` | backend/src/routes/station.routes.js:74-91 | on a validation failure: 400 with the error list and the collection unchanged. Otherwise the station the schema builds from the sanitized body, with `createdBy` forced to the acting user, is added under the new id (201). A failed save gives 500 and no change. The collection invariant is kept |
| `StationRoutes.StationService.List` | backend/src/routes/station.routes.js:129-153 | a healthy read gives 200 with the annotated selection, in collection order; a failed read gives 500 |
| `StationRoutes.StationService.Get` | backend/src/routes/station.routes.js:180-190 | 200 with the stored station iff the id is stored, else 404; a failed read gives 500 |
| `StationRoutes.StationService.Update` | backend/src/routes/station.routes.js:231-245 | the access check comes first: a missing id gives 404, and a caller who is neither owner nor admin gets 403 whatever the body holds. Then an invalid body gives 400. A valid body is merged and saved (200). Every non-200 reply leaves the collection unchanged, and the collection invariant is kept |
| `StationRoutes.StationService.Delete` | backend/src/routes/station.routes.js:274-281 | 404 for a missing id and 403 for a caller who is neither owner nor admin, both with no change. A permitted delete removes the station from the map and from the order (200) |
| `StationRoutes.StationService.Insert` | backend/src/routes/station.routes.js:86 | saving a new valid station stores it under its fresh id and appends the id to the order; the collection invariant is kept |
| `StationRoutes.StationService.Replace` | backend/src/routes/station.routes.js:240 | saving a loaded station replaces it under its id and leaves the order alone; the collection invariant is kept |
| `StationRoutes.StationService.Remove` | backend/src/routes/station.routes.js:276 | removing a station drops it from the map and from the order; the collection invariant is kept |
| `StationRoutes.StationService.CreateThenGet` | backend/src/routes/station.routes.js:180-186 | creating succeeds iff the body is valid, and reading the new id back returns the body's fields with the creator as owner |
| `StationRoutes.StationService.DeleteThenGet` | backend/src/routes/station.routes.js:274-277 | a delete succeeds iff the station exists and the caller may modify it. After a successful delete, a read returns 404 and a second delete returns 404 |
| `StationStore.BuildParams` | frontend/src/stores/station.js:35-38 | the query string holds exactly the present, non-empty filters, each once with its own value, in the order status, connectorType, minPower |
| `StationStore.AppendFilter` | frontend/src/stores/station.js:36-38 | appending one filter when it is present and non-empty keeps the query string exact and ordered for every key up to and including that one |
| `StationStore.WithStatus` | frontend/src/stores/station.js:26-27 | a record is kept iff it is in the list and has the given status |
| `StationStore.WithStatusAppend` | frontend/src/stores/station.js:26-27 | the status filter preserves the relative order of the records it keeps |
| `StationStore.PartitionByStatus` | frontend/src/stores/station.js:26-27 | the active and the inactive stations together number exactly the stations whose status is one of the two |
| `StationStore.PartitionOfValid` | frontend/src/stores/station.js:26-27 | when every cached station has a valid status, the two getters together account for the whole list |
| `StationStore.WithoutId` | frontend/src/stores/station.js:131 | a record survives iff it was in the list and its `_id` differs from the deleted id |
| `StationStore.WithoutIdAppend` | frontend/src/stores/station.js:131 | removing an id preserves the order of the remaining records |
| `StationStore.StationCache.constructor` | frontend/src/stores/station.js:18-23 | the cache starts empty, with no current station, not loading and no error |
| `StationStore.StationCache.FindIndex` | frontend/src/stores/station.js:103 | returns the first index whose `_id` equals the id, or -1 iff no record has it |
| `StationStore.StationCache.FetchStations` | frontend/src/stores/station.js:31-52 | sends exactly the present, non-empty filters in order. On success the list is replaced and `error` is null. On failure the list is unchanged and `error` is the server's message or "Failed to fetch stations". `loading` ends false |
| `StationStore.StationCache.FetchStation` | frontend/src/stores/station.js:54-70 | on success the current station becomes the fetched one; on failure it is unchanged and `error` is the message or its default. The list is untouched and `loading` ends false |
| `StationStore.StationCache.CreateStation` | frontend/src/stores/station.js:72-92 | on success exactly the returned record is appended and the earlier records are unchanged; on failure nothing changes but `error` |
| `StationStore.StationCache.UpdateStation` | frontend/src/stores/station.js:94-120 | on success only the first record with that `_id` is replaced and the length is kept, so the list is unchanged when none matches. The current station is replaced iff its `_id` matches. On failure nothing changes but `error` |
| `StationStore.StationCache.DeleteStation` | frontend/src/stores/station.js:122-145 | on success every record with that `_id` is removed, and the current station is cleared iff it matched. On failure nothing changes but `error` |
| `AuthStore.PreValidate` | frontend/src/stores/auth.js:86-105 | checks in order: any missing or empty field gives "All fields are required"; then a password shorter than 6 gives its message; then an email without '@' gives its message. No message means all three checks passed |
| `AuthStore.RegisterErrorOrder` | frontend/src/stores/auth.js:123-129 | server validation messages are reported joined by ", " in the server's order |
| `AuthStore.Session.constructor` | frontend/src/stores/auth.js:50-53 | the token is restored from storage, an empty stored token counting as none, so the session starts authenticated iff a non-empty token was stored |
| `AuthStore.Session.Login` | frontend/src/stores/auth.js:61-82 | on success the token and user come from the response and the token is persisted; the session is then authenticated iff that token is non-empty. On failure token, user and stored token are unchanged and the message (or "Login failed") is returned |
| `AuthStore.Session.Register` | frontend/src/stores/auth.js:84-137 | a request is made iff the pre-checks pass. A failed pre-check returns its message with the state unchanged. Success sets and persists the token and user. A server failure leaves the state unchanged and reports the joined validation messages, or else the message |
| `AuthStore.Session.FetchUser` | frontend/src/stores/auth.js:139-152 | on success only `user` changes. On failure the session is logged out: user, token and stored token are null, the station list is empty and the current station null, so the user is not authenticated |
| `AuthStore.Session.Logout` | frontend/src/stores/auth.js:154-163 | user, token and stored token become null, so the session is not authenticated; the station list is emptied and the current station cleared |

## Left out

- HTTP transport, axios instances and interceptors, `API_URL` construction, the default `Authorization` header and `router.push('/login')` are not modelled. Each request is one atomic step whose outcome is a parameter.
- Async interleavings are not modelled: every store action runs sequentially and atomically.
- `localStorage` is the field `Session.persistedToken`.
- The Express app wiring (`backend/src/index.js`), CORS, logging, Swagger and the database connection are not modelled. They hold no stateable logic.
- The auth middleware and auth routes (password hashing, token issuance and verification) are not part of this model, and neither is the middleware's 401 reply for a missing or bad token. The acting user `req.user` is the `Actor` parameter of `Create`, `List`, `Update` and `Delete`; `Get` does not use it.
- Float parsing is not modelled. A numeric body field is `Option<real>`, with `None` for absent or not a number. The `minPower` query parameter is `Number(minPower)` of a present, non-empty parameter. `NaN` and string-to-number edge cases are left out.
- ObjectId casting, `populate`/`lean`, timestamps and the `2dsphere` index are not modelled. Ids are opaque strings compared by equality.
- `StationRoutes.StationService.List`: does not model that `populate` replaces `createdBy` with the owner's name and email. It also does not model that a station whose owner no longer exists makes the handler fail with 500.
- `StationRoutes.StationService.Update`: merges only the seven modelled fields. Other body keys (`_id`, timestamps, unknown fields) are not modelled, and neither is a `createdBy` that fails to cast to an ObjectId.
- `StationRoutes.StationService.Delete`: models `req.station.remove()` as removing the document. Mongoose 7 and later no longer provide `Document.prototype.remove`; the model assumes a version that still does.
- `StationRoutes.StationService.Create`: the spread `{...req.body}` (backend/src/routes/station.routes.js:81-82) can carry a client `_id` into the new document. The model takes the new id as the parameter `newId`, which must be fresh, so it does not model a client-chosen `_id` or the duplicate-key 500 that a clashing one causes.
- The 400 reply's entries are `FieldError` values, which carry the path and message of each failure. The `value` and `location` fields that express-validator adds to each entry are not modelled.
- The natural order of the collection is modelled as insertion order, which an update does not change.
- The route validators read values through `toString()`. The model does not cover non-string inputs, such as arrays or numbers given for `name`, `status` or `connectorType`.
- `AuthStore.PreValidate`: counts password length in Unicode scalar values, while JavaScript's `length` counts UTF-16 code units.
- The client's `filters.minPower` is taken as a string, as a form field holds it. A number `0` would be falsy in the source and is not modelled.
- The `userRole` getter is modelled as `Session.UserRole` and states nothing further.
