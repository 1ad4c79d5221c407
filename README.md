# Delta sync of categories and products

A Dafny model of the two sync handlers of `index.js`, an Express server that
copies categories and products from a source catalog API into a destination
API. Each handler fetches both catalogs, collects the destination ids
(`categoryID` / `productID`), keeps the source records whose id
(`id_categoria` / `id_producto`) is not among them, in source order, and
renames their fields into the destination's vocabulary. If nothing is left,
it answers "nothing new" without writing. Otherwise it POSTs all of them in
one request and reports how many it sent. Any error thrown on the way ends
up in one catch block. That block logs one of four diagnostic branches and
answers 500 with `{success: false, message, error}`.

The two handlers have the same shape, so the model has one generic engine:

- `Delta`: the id set, the order-preserving filter, the mapping, and their
  soundness, completeness, order and idempotence.
- `SyncRun`: one invocation. The HTTP calls are inputs: the awaited result of
  each GET, and the reply the destination gives to a POST of a given payload.
  A run returns the calls it issued (`GetSource`, `GetDestination`,
  `Post(payload)`), the JSON envelope and the logged diagnostic branch.
- `Categories` and `Products`: the engine instantiated with each handler's id
  fields, field mapping and fixed texts.
- `Js`: the JavaScript values a record field can hold, and `Boolean(x)`.
- `Failures`: what the catch block receives, and how it is classified.
- `Wrappers`: `Option` and `Result`.

A payload is read with `x || []`: `data?.data` from the source
(`index.js:18`, `index.js:89`) and `data` from the destination
(`index.js:24`, `index.js:95`). `SyncRun.Payload` is the raw value: an array
of records, or any other JavaScript value. `SyncRun.Records` applies the
`|| []`. An array stands for its records. A falsy value (ECMAScript's
ToBoolean table) stands for no records. A truthy value that is not an array
makes the later `.map` (destination, `index.js:28`) or `.filter` (source,
`index.js:31`) throw a `TypeError`, which the catch block handles as a
non-Axios error. The destination's `.map` runs before the source's
`.filter`, so a non-array destination payload is the error that gets
reported when both payloads are non-arrays.

Other points of the handlers' behaviour worth stating explicitly:

- The failure envelope carries only `error.message`. The HTTP status and
  response body of a rejected request are only logged (`index.js:62-63`,
  `index.js:73-77`). `Outcome.diagnostic` records the logged branch; it is
  not part of `Envelope.Failed`.
- The success envelope is `{success, sincronizadas|sincronizados,
  respuestaDestino}` (`index.js:53-57`, `index.js:128-132`).
- The two fetches are sequential: source first, then destination
  (`index.js:17`, `index.js:23`). A failed source fetch means the
  destination is never fetched.
- The result of `parseFloat` on the price is passed to the POST whatever it
  is (`index.js:109`); a `NaN` is sent as `null` once serialised. There is no
  default value for a price that does not parse.

## Model

| member | source | states |
|---|---|---|
| Js.Truthy | index.js:36 | `Boolean(activo)` is false exactly for the falsy values of ECMAScript's ToBoolean table (undefined, null, false, 0, NaN, "", 0n), and true for everything else |
| Js.FlagValues | index.js:111 | the flag 1 maps to active; 0, a missing flag and null map to inactive; the string "0" maps to active |
| Failures.Classify | index.js:60-71 | the diagnostic branch is "rejected", with that response's status and data, exactly when an Axios error has a response; "unanswered" exactly when it has a request but no response; "misconfigured" when it has neither; "unexpected" exactly for non-Axios errors |
| Delta.IdSet | index.js:28 | an id is in the set exactly when some destination record has that id |
| Delta.Unmatched | index.js:31-32 | every kept record is a source record whose id is absent from the set (soundness); every source record with an absent id is kept (completeness); the result is no longer than the source |
| Delta.UnmatchedIsSubsequence | index.js:31-32 | the filter keeps source order: its result is a subsequence of the source |
| Delta.UnmatchedCounts | index.js:31-32 | a record whose id is absent is kept as many times as it occurs in the source; a record whose id is present is never kept |
| Delta.AllMatchedIsEmpty | index.js:31-32 | when every source id is in the set, the filter yields nothing |
| Delta.MapAll | index.js:33-37 | the mapping keeps the length, and the i-th output is the mapping of the i-th input |
| Delta.NewRecords | index.js:31-37 | each record to be written is the mapping of a source record whose id is absent from the destination, and there are no more of them than source records |
| Delta.NewRecordsExact | index.js:28-37 | if the mapping carries the source id into the destination id, no written record has an id the destination already holds, and every source record missing downstream is written |
| Delta.SyncTwiceFindsNothing | index.js:28-37 | idempotence: once the destination is extended by the written records, recomputing the delta from the same source gives the empty sequence |
| SyncRun.Records | index.js:18-24 | the empty-array default: an array reads as its records; any other value reads as the empty sequence exactly when it is in ECMAScript's falsy set, and otherwise as no records at all (the later `.map`/`.filter` throws) |
| SyncRun.FalsyPayloadIsEmpty | index.js:18-24 | every falsy payload (undefined, null, false, 0, NaN, "", 0n) reads as the empty sequence, and every truthy non-array payload reads as no records |
| SyncRun.Sync | index.js:11-79 | a run always starts with the source fetch and issues at most three calls; a POST, if any, is the last call; the envelope reports `success: true` exactly when no diagnostic branch was logged, and a failure always carries the handler's failure message |
| SyncRun.ShortCircuit | index.js:41-57 | with both payloads in hand, an empty delta answers "nothing new" with no POST; a non-empty delta is sent whole in one POST, and a successful reply reports its length, which is at most the number of source records; a failed POST ends in the failure envelope |
| SyncRun.PostCarriesDelta | index.js:41-48 | a POST is only issued after both fetches succeeded with array-or-missing payloads, and its payload is that run's non-empty delta |
| SyncRun.MissingPayload | index.js:18-24 | a falsy destination payload behaves exactly as an empty array; a falsy source payload yields "nothing new" with no POST whenever the destination fetch yields an array or a falsy payload |
| SyncRun.FailureAborts | index.js:12-77 | a failed source fetch ends the run after that one call; a failed destination fetch or a truthy non-array payload ends it after the two fetches with no POST; each ends in the failure envelope with the classified branch |
| SyncRun.FailureEnvelopeUniform | index.js:73-77 | the failure envelope depends only on the error's message, not on which of the four branches the error falls in |
| SyncRun.SecondRunIsNoOp | index.js:28-48 | when the mapping carries the source id into the destination id, rerunning against the same source and the destination extended by the records a run would post answers "nothing new" after the two fetches, with no POST (`PostCarriesDelta` says a posted payload is exactly those records) |
| Categories.SyncCategories | index.js:11-79 | the category handler's envelopes: the failure message "Error sincronizando categorías" with status 500, the "nothing new" message, and the count field `sincronizadas` with a count of at least one |
| Categories.CategoryDelta | index.js:28-37 | the categories posted are exactly the source categories whose `id_categoria` is not a destination `categoryID`, each with `categoryID`, `categoryName` and `isActive` taken from `id_categoria`, `nombre` and the truthiness of `activo` |
| Categories.CategorySyncIdempotent | index.js:28-48 | rerunning the category sync against the destination extended by the categories a run would post issues only the two fetches and answers "nothing new" |
| Categories.OneMissingCategory | index.js:28-57 | Books (1, active) and Toys (2, inactive) upstream with category 1 downstream: a single POST of Toys as inactive, and the count 1 |
| Categories.CategoriesAllPresent | index.js:41-44 | when every source id is already downstream, the run answers "nothing new" after the two fetches and issues no POST |
| Products.SyncProducts | index.js:82-154 | the product handler's envelopes: the failure message "Error sincronizando productos" with status 500, the "nothing new" message, and the count field `sincronizados` with a count of at least one |
| Products.ProductDelta | index.js:99-112 | the products posted are exactly the source products whose `id_producto` is not a destination `productID`, each with `productID`, `sku`, `productName`, `categoryID`, `price`, `stock` and `isActive` taken from `id_producto`, `sku`, `nombre`, `id_categoria`, `parseFloat(precio)`, `stock` and the truthiness of `activo` |
| Products.ProductSyncIdempotent | index.js:99-123 | rerunning the product sync against the destination extended by the products a run would post issues only the two fetches and answers "nothing new" |

## Left out

- The Express app, the route registration and `app.listen`: these are server plumbing.
- The Axios GET and POST calls themselves. They are inputs to `SyncRun.Sync`: a `Result` per fetch and a reply function for the POST.
- The text of the `console.log` / `console.error` output. Only the diagnostic branch the catch block picks is kept, as `Outcome.diagnostic`.
- `parseFloat`: it is a function parameter of the product handler and is not interpreted, so nothing is said about the numeric value of a price.
- Ids are integers. JavaScript `Set` semantics for `undefined`, `null` or string ids are not modelled.
- Record fields that are only copied across (`nombre`, `sku`, `stock`) get fixed types (`string`, `int`). The model does not follow arbitrary JSON values through them.
- Array elements that are not objects, which would make a field access throw, are not modelled. Every payload element is a well-formed record.
- `Js.JsValue` has no infinities and no separate -0. Both would give the same truthiness as other non-zero numbers and as 0.
- The exact text of an Axios error message is an input (`Failure.message`). The two `TypeError` texts are those of the V8 engine.
- Concurrency between requests: the handlers share no mutable state.
