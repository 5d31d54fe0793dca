# Order service, modelled in Dafny

A model of a small CRUD service that keeps "order" records in an in-memory
list. The service accepts JSON payloads, checks them against an order schema
(a string `user_id`, a `products` record of positive quantities, a string
`payment_info`) and offers six routes: list all orders, create, get by id,
replace (PUT), merge (PATCH) and delete.

The model has four modules:

- `Json` (`json.dfy`): JSON values, a superset of what the body parser delivers. It also
  holds the two pieces of JavaScript behaviour the handlers rely on.
  `Truthy` is the `if (!data)` test. `OwnProps` gives the properties that
  `Object.assign` copies: an object's fields, or an array's elements and a
  string's characters under their decimal index keys.
- `OrderSchema` (`order_schema.dfy`): the declarative shape `ValidOrder`, and
  the set of issues the schema parser reports (`Issues`). Also the service's
  wrapper `ValidateOrderData`, which holds exactly when there are no issues.
- `Orders` (`orders.dfy`): the collection as a `seq<Order>`, where
  `Order = map<string, Value>`. Each route handler is a pure function from
  the old sequence and the request's inputs to a `Step`, which pairs a reply
  tag with the new sequence. Lookups are specified by the *first* match
  (`IsFirstMatch`), as `find`/`findIndex` behave. `Handle` dispatches one
  request and `Run` folds a sequence of requests.
- `OrderProperties` (`order_properties.dfy`): properties that span several
  calls. They cover create-then-get and delete-then-get, replace against
  merge, which handlers keep the stored orders in the schema's shape and
  their ids distinct, and the collection's size over a run.

Object spread and `Object.assign` both let later keys win. Dafny's map union
`m1 + m2` does the same, so `{ id: x, ...data }` is `map["id" := Str(x)] + data`
(`Orders.WithId`) and `Object.assign(o, data)` is `o + OwnProps(data)`
(`Orders.Assign`).

Some behaviours of the code are easy to miss. Each is stated by a lemma:

- The comments at app.js:28 and app.js:50 call the generated id unique, but
  nothing checks it against the stored ids. `CreateThenGet` and
  `CreateKeepsDistinct` therefore take a new id as a hypothesis.
- A payload with its own `"id"` key overrides the generated id on create
  (app.js:54) and the URL id on replace (app.js:102). A merge can also rewrite
  `"id"` (app.js:130). `CreateWithPayloadId` shows that the id in the create
  reply then finds nothing. `PatchDuplicatesId` shows that two orders can end
  up sharing an id.
- Ids can repeat, so every lookup takes the first match (app.js:69, 94, 122,
  144). A delete followed by a get under the same id answers "not found"
  exactly when no later order shares the id (`DeleteThenGetExact`). In
  particular it does so whenever ids are distinct (`DeleteThenGet`). With a
  later duplicate, that order is still found (`DeleteThenGetDuplicate`).
- The merge tests only the truthiness of the body (app.js:117) and then
  copies its own properties (app.js:130). The body parser (app.js:13) accepts
  only objects and arrays at the top level, so an array body merges its
  elements under the keys "0", "1", ... . The model takes any `Value` as a
  body; see "## Left out".

## Model

| member | source | states |
|---|---|---|
| `Json.Truthy` | app.js:117 | `false`, `0`, `""` and `null`/`undefined` are falsy; every array and every object, even an empty one, is truthy |
| `Json.OwnProps` | app.js:130 | what `Object.assign` copies from a body: an object's own fields; an array's elements and a string's characters under their index keys, every other key being a canonical numeral below the length; nothing from null, booleans and numbers |
| `Json.OwnPropsIndexKeysExact` | app.js:130 | an array or string body exposes a key exactly when it is a canonical decimal numeral below its length, so no key other than its index keys |
| `Json.CanonicalIsIndexKey` | app.js:130 | every canonical decimal numeral is the index key of the number it denotes, the converse of the index-key round trip |
| `Json.IndexKeyRoundTrip` | app.js:130 | an index key reads back as its index, so different indices never collide as property keys |
| `OrderSchema.ValidOrder` | orderSchema.js:4-8 | an object with a string `user_id`, a string `payment_info` and a `products` object whose every value is a number greater than zero; other keys are ignored |
| `OrderSchema.Issues` | orderSchema.js:4-8 | the parser reports nothing exactly when the payload has the order shape; a non-object gets a single root issue; a missing or non-string `user_id`/`payment_info`, a missing or non-object `products`, and each non-numeric or non-positive quantity get their own issue at that path, in both directions |
| `OrderSchema.ProductsIssuesExact` | orderSchema.js:6 | the products check is silent exactly when `products` is an object whose every value is a number greater than zero |
| `OrderSchema.ValidateOrderData` | app.js:19-26 | the wrapper answers true exactly when the payload matches the schema, and only for objects |
| `OrderSchema.MissingFieldInvalid` | orderSchema.js:4-8 | a payload lacking `user_id`, `products` or `payment_info` is refused |
| `OrderSchema.NonObjectInvalid` | orderSchema.js:4 | a payload that is not an object is refused with one issue at the root |
| `OrderSchema.EmptyProductsValid` | orderSchema.js:6 | an empty products record is accepted |
| `OrderSchema.BadQuantityInvalid` | orderSchema.js:6 | one zero, negative or non-numeric quantity makes the payload invalid and is reported under its product id |
| `OrderSchema.ExtraKeysIgnored` | orderSchema.js:4-8 | adding or changing any key other than the three required ones never changes the verdict |
| `Orders.HasId` | app.js:69 | an order matches when it has an `"id"` that is the very string asked for; a missing or non-string `"id"` never matches |
| `Orders.FindIndex` | app.js:94 | the result is -1 exactly when no order has the id; otherwise it is the least index of an order with that id |
| `Orders.WithId` | app.js:54 | a new record holds every payload field with the payload's value, plus `"id"`, which is the given id unless the payload has its own |
| `Orders.Assign` | app.js:130 | a merged record has the old keys plus the body's; the body's values win and the other old values stay |
| `Orders.List` | app.js:33-40 | the reply is the whole collection, which is unchanged |
| `Orders.Create` | app.js:43-61 | an invalid payload gets "Incomplete order data" with the collection unchanged; a valid one gets the generated id and grows the collection by one record at the end, with every earlier order unchanged; the record's `"id"` is the payload's when present |
| `Orders.Get` | app.js:64-82 | the reply is the order at the first index with the id, or not found exactly when no order has it; the collection never changes |
| `Orders.Replace` | app.js:85-108 | validation comes before lookup, so an invalid payload is refused even for an absent id; an absent id gives not found with no change; otherwise only the first match changes, and it holds exactly the payload's keys plus `"id"` |
| `Orders.Patch` | app.js:111-136 | a falsy body gets "No data provided for update"; an absent id gives not found with no change; otherwise only the first match changes, it gains the body's properties, and its other keys keep their values |
| `Orders.Delete` | app.js:139-158 | an absent id gives not found with no change; otherwise the first match is removed, earlier orders keep their places, later ones move up by one, and no other order is lost |
| `Orders.Handle` | app.js:33-158 | only a successful create adds an order and only a successful delete removes one; a create succeeds exactly for a valid payload and a delete exactly for a present id |
| `Orders.Run` | app.js:16 | a run of requests against the one shared collection yields exactly one reply per request |
| `OrderProperties.CreateThenGet` | app.js:51-77 | a created order with no payload `"id"` and a new generated id is then found under that id, as `{ id, ...payload }` |
| `OrderProperties.CreateWithPayloadId` | app.js:54-56 | with a payload `"id"`, the reply names the generated id, but a lookup under it finds nothing while the payload's id finds the order |
| `OrderProperties.DeleteThenGet` | app.js:144-152 | while ids are distinct, a deleted id is no longer found |
| `OrderProperties.DeleteThenGetDuplicate` | app.js:144-152 | when a later order shares the id, a lookup after the delete still finds it |
| `OrderProperties.DeleteThenGetExact` | app.js:144-152 | after the first match is deleted, a lookup under the same id answers not found exactly when no later order shares that id |
| `OrderProperties.ReplaceDropsPatchKeeps` | app.js:102-130 | an old field the payload does not mention is dropped by replace but kept with its value by merge |
| `OrderProperties.WithIdValid` | app.js:54 | attaching an id to a valid payload keeps it in shape |
| `OrderProperties.HandleKeepsValid` | app.js:43-158 | list, create, get, replace and delete keep every stored order in the schema's shape |
| `OrderProperties.PatchBreaksValid` | app.js:117-130 | a merge is not validated: setting `user_id` to a number leaves an order outside the schema |
| `OrderProperties.RunKeepsValid` | app.js:16-158 | any run of requests without merges keeps every stored order in shape |
| `OrderProperties.CreateKeepsDistinct` | app.js:51-55 | a create with a new generated id and no payload `"id"` keeps ids distinct |
| `OrderProperties.DeleteKeepsDistinct` | app.js:144-152 | a delete keeps ids distinct |
| `OrderProperties.ReplaceKeepsDistinct` | app.js:94-102 | a replace whose payload has no `"id"` keeps ids distinct |
| `OrderProperties.PatchDuplicatesId` | app.js:122-130 | a merge that copies one order's id onto another succeeds and leaves two orders with the same id |
| `OrderProperties.RunConcat` | app.js:16 | running two batches one after the other is running them as one: each request sees the collection the previous one left, and replies come in request order |
| `OrderProperties.RunSize` | app.js:16-158 | after any run, the collection's size is the starting size plus successful creates minus successful deletes |
| `OrderProperties.RunFromInitial` | app.js:16 | from the empty start-up collection, N successful creates and M successful deletes leave N - M orders |

## Left out

- HTTP wiring is not modelled: route registration, request and response objects, status codes and JSON serialisation (app.js:1-13, 162-164). Each outcome is a `Reply` tag, and the success messages are implied by the tag.
- Request logging and `console.error` are left out; they are side effects with nothing to verify.
- The `try`/`catch` paths that answer 500 are left out. They fire only on unexpected runtime faults inside a handler. A malformed JSON body never reaches them: the body parser (app.js:13) refuses it before any handler runs.
- The model takes any `Json.Value` as a request body, which over-approximates the body parser (app.js:13). That parser accepts only an object or an array at the top level, or no body at all. So the merge's string, number and boolean cases are states the running service never reaches. The model keeps them because the handler itself (app.js:117-130) treats them by truthiness and `Object.assign` alone.
- The random 8-character id generator is replaced by the `newId` parameter of `Create`. Its collision resistance is not modelled, and nothing in the code checks uniqueness.
- The listening port and its environment variable are configuration, not behaviour.
- Numbers are mathematical reals: NaN, infinities and floating-point rounding are not modelled, and neither is the distinction between `0` and `-0`.
- `Json.Value` has no separate `undefined`: `Null` stands for both, since they are falsy alike and carry no properties.
- Key order inside objects is not modelled (maps are unordered), so the order of fields in a serialised reply is not either.
- OrderSchema.Issues: gives the parser's issues as a set with a path and a code each. It leaves out the order in which they are reported and their message texts.
- Json.OwnProps: indexes a string by Dafny characters rather than UTF-16 code units. It also leaves out the special `__proto__` key, which `Object.assign` treats as a prototype change.
