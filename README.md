# Online store catalog: the in-memory product store and its REST handlers

The server of this online store keeps its whole catalog in one process-local,
ordered list of product records and exposes it through five handlers under
`/api/products`: list all, get one by id, create, partially update, and delete.
This project models that list and those handlers in Dafny and proves what
each handler answers (200, 201, 204, 400 or 404, with its error message) and
exactly what it does to the list.

The model has four modules:

- `Text` (text.dfy): `String.prototype.trim`, which the handlers apply to the
  name, category and description. It is defined by counting leading and
  trailing whitespace. It is proved to be the unique whitespace-only cut that
  leaves neither end whitespace, idempotent, and empty exactly on blank input.
- `Catalog` (catalog.dfy): the `Product` record and the request `Payload`,
  where each of the seven fields is an `Option` and `None` stands for an
  absent (`undefined`) field. It also holds the three lookups the handlers use
  (`find`, `some`, `filter` on the id), the presence test and record builder
  of POST, and the field-by-field assignment of PATCH.
- `Routes` (routes.dfy): each handler as a function from the list before the
  request to the reply and the list after it. Lemmas relate one request to
  the next: GET after POST, PATCH or DELETE; PATCH idempotence; DELETE
  removing exactly one record; ids staying distinct and stored text staying
  trimmed.
- `Server` (store.dfy): class `Store`, whose `products: seq<Product>` field is
  the module-level `products` array. It has one method per handler. `Create`
  appends, `Update` assigns the present fields one at a time to the record
  found and writes it back, and `Delete` rebuilds the list without the id. Each
  method is proved to produce exactly the reply and list of its route function.
  The object invariant `Valid()` says that ids are distinct.

Numbers in request bodies and records are exact `real`s. The id that `nanoid(6)`
draws is a parameter. The source never checks that this id is new, so
`Store.Create` and the constructor require fresh ids.

Behaviour of `server/server.js` worth noting:
- The presence test of POST runs before trimming. A name, category or
  description made only of whitespace therefore passes it and is stored as ""
  (`Routes.BlankNameAccepted`).
- `image` is never trimmed: PATCH stores any present image as given, and POST
  stores it unless it is falsy, in which case it stores the placeholder.
- Id uniqueness is not enforced by the code. It is a precondition here.
- POST stores `rating ? Number(rating) : 0`. For numbers, a rating of 0 and
  an absent rating give the same record (`Routes.PostRatingZeroAsAbsent`).

## Model

| member | source | states |
|---|---|---|
| `Text.Trim` | server/server.js:355-357 | the result is a cut of the input where everything removed before and after it is whitespace, and it neither starts nor ends with whitespace |
| `Text.TrimUnique` | server/server.js:355-357 | any whitespace-only cut of a string that neither starts nor ends with whitespace equals `Trim` of it, so the contract of `Trim` determines it |
| `Text.TrimFixesTrimmed` | server/server.js:422-424 | trimming twice is trimming once, and `Trim(s) == s` exactly when s has no whitespace at either end |
| `Text.TrimEmptyIffBlank` | server/server.js:355-357 | trim yields "" exactly when the string is whitespace only |
| `Catalog.FindIndex` | server/server.js:189 | `products.find` by id: None exactly when no record has the id; otherwise the position of a record with the id with no earlier such record |
| `Catalog.AnyWithId` | server/server.js:453 | `products.some` by id: true exactly when some record carries the id |
| `Catalog.Without` | server/server.js:457 | `products.filter(p => p.id !== id)`: no record with the id remains, the list gets no longer, and strictly shorter when the id was present |
| `Catalog.WithoutCounts` | server/server.js:457 | the filter keeps each record with another id exactly as many times as it occurred and drops every record with the id |
| `Catalog.WithoutConcat` | server/server.js:457 | the filter distributes over concatenation, so surviving records keep their relative order |
| `Catalog.WithoutAbsent` | server/server.js:457 | filtering by an id that no record carries leaves the list as it was |
| `Catalog.WithoutUnique` | server/server.js:457 | with distinct ids, filtering out a present id removes exactly the record at its position, and the length drops by one |
| `Catalog.MissingRequired` | server/server.js:350-352 | the 400 test of POST: a body that passes carries name, category, description, price and stock; an empty text field fails it; with price and stock 0 the verdict depends only on the three text fields, so 0 counts as present |
| `Catalog.PresenceIgnoresOptional` | server/server.js:350 | the presence test does not depend on rating or image, nor on the value of a present price or stock |
| `Catalog.NewProduct` | server/server.js:353-362 | the created record has the drawn id, trimmed name/category/description, price and stock as given, the given rating or else 0, and the given image when it is truthy, else the placeholder URL |
| `Catalog.NothingToUpdate` | server/server.js:419-421 | the 400 test of PATCH holds only for the body with all seven fields absent |
| `Catalog.NothingToUpdateIffNoEffect` | server/server.js:419-428 | PATCH rejects a body exactly when applying it would leave every record unchanged: with any one field present, some record is changed |
| `Catalog.ApplyPatch` | server/server.js:422-428 | the patched record keeps the id and every field the body leaves out, holds the trimmed name, category and description when present, and price, stock, rating and image as given when present |
| `Catalog.PatchIdempotentRecord` | server/server.js:422-428 | applying the same PATCH body twice to a record gives the same record as applying it once |
| `Catalog.PatchKeepsTrimmed` | server/server.js:422-424 | a record whose text fields are trimmed stays so after PATCH |
| `Routes.FindOr404` | server/server.js:188-195 | findProductOr404: the 404 "Product not found" reply exactly when no record has the id, otherwise the position of the first record with the id |
| `Routes.GetRoute` | server/server.js:298-303 | GET by id answers 200 or 404. It answers 404 "Product not found" exactly when no record has the id, and otherwise 200 with the first record carrying it |
| `Routes.PostRoute` | server/server.js:348-365 | POST answers 400 "Missing required fields" with the list unchanged exactly when a text field is falsy or price/stock is absent. Otherwise it answers 201 with the new record, which is appended: one longer, every earlier record in place |
| `Routes.PatchRoute` | server/server.js:413-430 | PATCH answers 404 with the list unchanged exactly when the id is unknown, whatever the body. A known id with all seven fields absent gives 400 "Nothing to update" with the list unchanged. The length never changes and a 200 reply carries a record with the id |
| `Routes.PatchUpdatesFound` | server/server.js:422-429 | a successful PATCH replaces the first record with the id by its patched copy, replies with that copy, and leaves every other record as it was |
| `Routes.DeleteRoute` | server/server.js:451-459 | DELETE answers 404 with the list unchanged exactly when the id is unknown. Otherwise it answers 204, and the new list is the filter of the old one (see `Catalog.WithoutCounts` and `Catalog.WithoutConcat`), strictly shorter. Afterwards no record carries the id |
| `Routes.PostKeepsIdsUnique` | server/server.js:353-363 | POST with a fresh id keeps ids distinct |
| `Routes.PatchKeepsIdsUnique` | server/server.js:422-428 | PATCH keeps ids distinct |
| `Routes.DeleteKeepsIdsUnique` | server/server.js:457 | DELETE keeps ids distinct |
| `Routes.PostKeepsTrimmed` | server/server.js:355-357 | POST keeps every stored name, category and description trimmed |
| `Routes.PatchKeepsTrimmedList` | server/server.js:422-424 | PATCH keeps every stored name, category and description trimmed |
| `Routes.DeleteKeepsTrimmed` | server/server.js:457 | DELETE keeps every stored name, category and description trimmed |
| `Routes.GetUnique` | server/server.js:188-195 | with distinct ids, GET answers 200 with the one record carrying the id |
| `Routes.GetAfterPost` | server/server.js:348-365 | GET on a freshly created id returns exactly the record POST created |
| `Routes.GetAfterDelete` | server/server.js:451-459 | after DELETE of an id, whatever DELETE answered, GET on that id is 404 "Product not found" |
| `Routes.GetAfterPatch` | server/server.js:413-430 | after a successful PATCH, GET on the id returns what PATCH replied |
| `Routes.PatchIdempotent` | server/server.js:413-430 | sending the same PATCH twice gives the same reply and the same list as sending it once |
| `Routes.DeleteRemovesOne` | server/server.js:451-459 | with distinct ids, a successful DELETE answers 204 and leaves the list with exactly the one record removed, the rest in order |
| `Routes.BlankNameAccepted` | server/server.js:350-355 | a non-empty, whitespace-only name passes the presence test (it runs before trimming): with the other required fields present, POST answers 201 and stores the name "" |
| `Routes.PostRatingZeroAsAbsent` | server/server.js:350-360 | POST with rating 0 has the same outcome as POST with no rating, for every list, id and body, the 400 case included |
| `Routes.PostMugExample` | server/server.js:348-365 | a POST of a mug with no rating or image on a ten-record list answers 201, stores rating 0 and the placeholder image, and leaves eleven records |
| `Server.SeedProducts` | server/server.js:84-185 | the list at start has ten records, the k-th carrying the k-th drawn id and the k-th seed record's data |
| `Server.Store.constructor` | server/server.js:84-185 | at process start the store holds the seed list and, given distinct drawn ids, satisfies the invariant |
| `Server.Store.List` | server/server.js:271-273 | GET /api/products answers 200 with the whole list in its current order and changes nothing |
| `Server.Store.Get` | server/server.js:298-303 | GET by id answers as `GetRoute` on the current list and changes nothing |
| `Server.Store.Create` | server/server.js:348-365 | the reply and the new list are those of `PostRoute` on the old list, and ids stay distinct |
| `Server.Store.Update` | server/server.js:413-430 | assigning the present fields one at a time to the found record produces the reply and list of `PatchRoute`, and ids stay distinct |
| `Server.Store.Delete` | server/server.js:451-459 | the reply and the new list are those of `DeleteRoute` on the old list; by the invariant that ids are distinct, a 204 removes exactly one record and keeps the rest in order; ids stay distinct |

## Left out

- Express setup, JSON body parsing, CORS and the OPTIONS preflight handler (server/server.js:13-28): HTTP framework plumbing.
- Request logging and console output (server/server.js:31-39, 473-485): I/O.
- Swagger generation and `getBaseUrl` (server/server.js:42-80): a foreign library and process environment.
- `nanoid(6)` (server/server.js:3, 86-176, 354): randomness. The drawn id is a parameter, and its freshness is a precondition of `Server.Store.Create` and of the constructor. The source only makes a collision unlikely.
- `Number(...)` coercion (server/server.js:358-360, 425-427): body fields are taken as already numeric. NaN, Infinity, floating-point rounding, numeric strings and `null` (which `Number` turns into 0) are not modelled. A numeric rating that is falsy is therefore only 0.
- Non-string values in the request body: the model types name, category, description and image as strings. In the source a falsy non-string text field (`0`, `false`, `null`) fails the presence test of POST and gets the 400 reply; a truthy non-string text field in POST, and any present non-string text field in PATCH (`null` included), makes `.trim()` throw, and the 500 handler answers. A truthy non-string `image` is stored as given by POST, and any present one by PATCH.
- Server.Store.Update: a `.trim()` that throws part-way through PATCH (server/server.js:422-424) leaves the fields assigned before it in the stored record while the reply is 500. The model has no such half-applied update.
- The catch-all 404 for unknown API routes and the 500 error handler (server/server.js:462-470): framework routing and exception propagation.
- Server.Store.Update: a JS product object is shared between the array and the reply. Here records are values, so the update is built on a local copy and written back into the list; aliasing is not modelled. With one reference in the list and a reply sent at once, the visible result is the same.
- Server.Store.constructor: the seed records' text fields are not proved trimmed, so `Valid()` covers only distinct ids. Trimmed storage is instead proved to be preserved by each handler (`Routes.PostKeepsTrimmed`, `Routes.PatchKeepsTrimmedList`, `Routes.DeleteKeepsTrimmed`).
- Client code (client/src/api/index.js, client/src/components/*.jsx): network calls, React rendering, and the form checks in ProductModal.jsx, which rest on JS number parsing and `alert`.
