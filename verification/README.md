# Warehouse RPC handlers, modelled in Dafny

This project models the request-handling layer of the warehouse service in
`warehouse-app/src/api/warehouseMethods.js`, together with the sanitizer it
uses from `warehouse-app/src/utils.js`. The service exposes eleven RPC methods:

- `get…ById`, `find…`, `insert…`, `update…ById` and `delete…` for each of the
  Manufacturer and Item collections;
- `prepareOrder`, which reserves stock for each ordered line and then posts the
  order to a logistics service.

Every failure is passed through `throwThriftError`. That function classifies it
as one of three typed RPC errors (EntityNotFound, Validation or Database), and
the error keeps the original message.

The modules are:

- `Js` (`js.dfy`) holds the dynamic values a handler sees. A value is `null`,
  `undefined`, a string or a number. A record is a map from field name to value.
  A failure has a name, an optional code and a message.
- `Utils` (`utils.dfy`) holds `filterOutNullValues`. It is a loop that deletes
  null fields in place from a `Dto` object, proved against the pure function
  `WithoutNulls`.
- `ObjectIds` (`object_ids.dfy`) holds store identifiers and their text form,
  with a parse/print round trip.
- `DocumentStore` (`document_store.dfy`) holds the mongoose models that the
  handlers call. The store's state is a `Store` value. Each store call is a
  function that returns an outcome and the new state. A `Collection` class holds
  that state in fields and updates it in place.
- `ThriftErrors` (`thrift_errors.dfy`) holds the local `EntityNotFoundError`,
  the classifier `throwThriftError`, and the `try/catch` that wraps every handler.
- `HandlerSpecs` (`handler_specs.dfy`) gives each CRUD handler shape a
  specification function over the store. Lemmas relate successive calls, such as
  an insert followed by a get, an update followed by a get, and a delete
  followed by a get.
- `OrderSpecs` (`order_specs.dfy`) specifies `prepareOrder` with the lines
  handled one after another. It proves what the workflow saves, what it posts,
  and where it stops.
- `WarehouseMethods` (`warehouse_methods.dfy`) holds the `Warehouse` class with
  its two collections and the eleven methods. Each method is proved to return
  and store exactly what its specification function says.

The store collaborator is modelled as follows:

- The schema is strict, with the fields and required fields of
  `warehouse-app/src/storage.js`. Fields outside the schema are dropped on create
  and on update.
- A required field counts as missing when it is absent, `null`, `undefined` or
  the empty string.
- An Item's `arrivalDate` defaults to the store's clock.
- Casting and validation happen locally, before the store is contacted. An
  identifier that does not parse raises `CastError`, and a failed required field
  raises `ValidationError`, whether or not the store is reachable.
- An unreachable store raises `MongoNetworkError`, which is classified as
  Database.
- `updateOne` runs no validators, which is mongoose's default. An update that is
  empty once cast (no schema field and no `_id`) is not sent and answers a count
  of 0, so the handler answers NotFound even for a stored record.
- An `_id` inside an update must name the record being updated. Any other
  identifier is refused by the store as a change of the immutable `_id`
  (code 66), which is classified as Database.
- `save` runs the required validators on the fetched record with its changed
  field, and fails with `DocumentNotFoundError` when the record is gone.
- `find` is exact field equality, with results in identifier order.
- `deleteOne` removes the first match.

A text that is not an identifier, such as `"nonexistent-id"`, fails the store's
cast. So `update…ById` on it answers DatabaseError, not NotFound
(`UpdateByIdResult`: Database whenever the identifier does not parse).

## Model

| member | source | states |
|---|---|---|
| Utils.WithoutNulls | warehouse-app/src/utils.js:2-9 | the sanitized record has no null field, its keys are exactly the original keys minus the null ones, and every kept field (an undefined one included) keeps its value |
| Utils.FilterOutNullValues | warehouse-app/src/utils.js:2-9 | deletes in place exactly the null fields of the object, visiting the keys taken before the loop, and returns the same object |
| Utils.WithoutNullsIdempotent | warehouse-app/src/utils.js:3-7 | sanitizing twice is the same as sanitizing once |
| Utils.WithoutNullsUnchangedIff | warehouse-app/src/utils.js:4-6 | sanitizing leaves a record unchanged if and only if it has no null field |
| ObjectIds.ParseId | warehouse-app/src/api/warehouseMethods.js:18 | an identifier text parses if and only if it is canonical text |
| ObjectIds.IdToString | warehouse-app/src/api/warehouseMethods.js:46 | the text form `doc._id + ''` of an identifier is canonical text |
| ObjectIds.IdRoundTrip | warehouse-app/src/api/warehouseMethods.js:46 | the text form `doc._id + ''` of an identifier parses back to the same identifier |
| ObjectIds.IdCanonical | warehouse-app/src/api/warehouseMethods.js:18 | a property of the decimal stand-in for identifiers: every text that parses is the printed form of what it parses to, so in the model each identifier has exactly one text (the program's cast accepts more, see below) |
| DocumentStore.Matching | warehouse-app/src/api/warehouseMethods.js:31 | every document `find` returns is stored, unchanged and matches the conditions, and the results are in strictly increasing identifier order |
| DocumentStore.MatchingCompleteAll | warehouse-app/src/api/warehouseMethods.js:31 | every stored document that matches the conditions is among the results of `find` |
| DocumentStore.MatchingEmptyIff | warehouse-app/src/api/warehouseMethods.js:32-33 | `find` answers an empty sequence if and only if no stored document matches |
| DocumentStore.FirstMatchIsLowest | warehouse-app/src/api/warehouseMethods.js:67 | when something matches, the first match `deleteOne` removes is a stored matching record with the lowest identifier of all matches |
| DocumentStore.FirstMatch | warehouse-app/src/api/warehouseMethods.js:67 | the record `deleteOne` removes is stored, matches the conditions, and has the lowest identifier of all matches |
| DocumentStore.FindByIdOp | warehouse-app/src/api/warehouseMethods.js:18 | `findById` answers if and only if the identifier parses and the store is up; it answers a document if and only if the identifier is stored, and then that document as stored; an identifier that does not parse raises the cast failure |
| DocumentStore.FindOp | warehouse-app/src/api/warehouseMethods.js:31 | `find` answers if and only if an `_id` condition (if any) casts and the store is up, and then only stored, unchanged, matching documents in increasing identifier order; a condition that does not cast raises the cast failure |
| DocumentStore.CreateOp | warehouse-app/src/storage.js:11-45 | creating a document keeps every stored identifier below the next fresh one |
| DocumentStore.UpdateOneOp | warehouse-app/src/api/warehouseMethods.js:55 | updating by identifier keeps every stored identifier below the next fresh one (its outcomes, including the count of 0 for an empty update and the refusal of a changed `_id`, are stated by `UpdateByIdResult`) |
| DocumentStore.DeleteOneOp | warehouse-app/src/api/warehouseMethods.js:67 | deleting keeps every stored identifier below the next fresh one |
| DocumentStore.SaveFieldOp | warehouse-app/src/api/warehouseMethods.js:149 | `save` succeeds if and only if the record with its changed field passes the required validators, the store is up and the record is still stored; it then writes exactly that field of that record, and otherwise changes nothing; a record failing the validators raises ValidationError |
| DocumentStore.Collection.constructor | warehouse-app/src/storage.js:47-48 | a new collection of the given model is empty, reachable and valid |
| DocumentStore.Collection.FindById | warehouse-app/src/api/warehouseMethods.js:18 | answers the findById outcome of the collection's current state and changes nothing |
| DocumentStore.Collection.Find | warehouse-app/src/api/warehouseMethods.js:31 | answers the find outcome of the collection's current state and changes nothing |
| DocumentStore.Collection.Create | warehouse-app/src/api/warehouseMethods.js:45 | the outcome and the new state of the collection are those of a create on the old state |
| DocumentStore.Collection.UpdateOne | warehouse-app/src/api/warehouseMethods.js:55 | the outcome and the new state are those of an updateOne on the old state |
| DocumentStore.Collection.DeleteOne | warehouse-app/src/api/warehouseMethods.js:67 | the outcome and the new state are those of a deleteOne on the old state |
| DocumentStore.Collection.SaveField | warehouse-app/src/api/warehouseMethods.js:149 | the outcome and the new state are those of a save of one field on the old state |
| ThriftErrors.EntityNotFoundError | warehouse-app/src/api/warehouseMethods.js:176-181 | the local not-found error is named `EntityNotFound`, has no code and carries the given message |
| ThriftErrors.ThrowThriftError | warehouse-app/src/api/warehouseMethods.js:183-197 | every failure becomes exactly one typed error with the original message: NotFound if and only if it is named `EntityNotFound`; otherwise Validation if and only if it is named `ValidationError` or has code 121; otherwise Database |
| ThriftErrors.EntityNotFoundClassified | warehouse-app/src/api/warehouseMethods.js:187-188 | the local not-found error always reaches the caller as EntityNotFoundError with its own message |
| ThriftErrors.NotFoundBeforeValidation | warehouse-app/src/api/warehouseMethods.js:187-190 | the name test wins over the code test: an `EntityNotFound` failure with code 121 is still NotFound |
| ThriftErrors.Catch | warehouse-app/src/api/warehouseMethods.js:17-25 | a returned value is the result, and a thrown failure is classified by `throwThriftError` |
| HandlerSpecs.GetByIdResult | warehouse-app/src/api/warehouseMethods.js:16-26 | Ok with the stored record if and only if the store is up and the identifier parses and is stored; NotFound with "Manufacturer with id … wasn't found." (or "No items found." for items) if and only if it parses but is not stored; Database otherwise |
| HandlerSpecs.FindResult | warehouse-app/src/api/warehouseMethods.js:28-40 | with the search fields sanitized: Ok if and only if some record matches, and then the answer is non-empty, sound, complete and in strictly increasing identifier order, so it is exactly the store's answer, returned as is; NotFound with "No manufacturers found." / "No items found." if and only if none matches; Database if the store is down or the conditions do not cast |
| HandlerSpecs.InsertResult | warehouse-app/src/api/warehouseMethods.js:42-50 | with the record sanitized: Ok with the text of the fresh identifier, storing the schema fields under it, if and only if the required fields are present and the store is up; Validation with nothing stored if and only if one is missing (checked before the store is contacted); Database if and only if they are present and the store is down |
| HandlerSpecs.UpdateByIdResult | warehouse-app/src/api/warehouseMethods.js:52-62 | with the record sanitized: Ok, overlaying the schema fields on the stored record, if and only if the identifier and any `_id` in the update cast, the update is not empty once cast, the store is up, the identifier is stored and any `_id` in the update names that same record; NotFound with "… with id … wasn't found." if and only if everything casts and the update is empty, or the store is up and the identifier is not stored; Database in every other case; anything but Ok changes nothing |
| HandlerSpecs.DeleteResult | warehouse-app/src/api/warehouseMethods.js:64-74 | with the conditions sanitized: Ok, removing the lowest-identifier matching record and nothing else, if and only if one matches; NotFound with "… with specified conditions wasn't found." and no change if and only if none does; Database otherwise |
| HandlerSpecs.InsertThenGet | warehouse-app/src/api/warehouseMethods.js:42-50 | the identifier an insert returns finds exactly the record it stored, under a fresh identifier, and every earlier record is unchanged |
| HandlerSpecs.InsertMissingRequiredIsValidation | warehouse-app/src/storage.js:24-45 | an insert whose required field is absent, null or undefined is a Validation error that stores nothing, whether or not the store is up (an Item's `arrivalDate` has a default instead) |
| HandlerSpecs.InsertStoresNoNull | warehouse-app/src/api/warehouseMethods.js:44-45 | the record an insert stores has no null field |
| HandlerSpecs.UpdateWritesNoNull | warehouse-app/src/api/warehouseMethods.js:54-55 | an update never sets a field to null |
| HandlerSpecs.UpdateThenGet | warehouse-app/src/api/warehouseMethods.js:52-62 | after a successful update, getById answers the old record overlaid with the sanitized schema fields of the update |
| HandlerSpecs.UpdateOfNullsIsNotFound | warehouse-app/src/api/warehouseMethods.js:54-57 | an update whose every field is null is empty once sanitized, so it answers NotFound and changes nothing, even for a stored record |
| HandlerSpecs.UpdateChangingIdIsDatabase | warehouse-app/src/api/warehouseMethods.js:55 | an update whose `_id` is the text of another identifier is refused by the store as a change of the immutable `_id`, answers Database and changes nothing |
| HandlerSpecs.DeleteByIdThenGet | warehouse-app/src/api/warehouseMethods.js:64-74 | after a successful delete on `{_id: id}`, getById of that identifier is NotFound |
| WarehouseMethods.GetById | warehouse-app/src/api/warehouseMethods.js:16-26 | the handler answers `GetByIdResult` for the collection's state |
| WarehouseMethods.Find | warehouse-app/src/api/warehouseMethods.js:28-40 | the handler sanitizes the search fields in place and answers `FindResult` |
| WarehouseMethods.Insert | warehouse-app/src/api/warehouseMethods.js:42-50 | the handler sanitizes the record in place, and its answer and the new state are `InsertResult` |
| WarehouseMethods.UpdateById | warehouse-app/src/api/warehouseMethods.js:52-62 | the handler sanitizes the record in place, and its answer and the new state are `UpdateByIdResult` |
| WarehouseMethods.Delete | warehouse-app/src/api/warehouseMethods.js:64-74 | the handler sanitizes the conditions in place, and its answer and the new state are `DeleteResult` |
| WarehouseMethods.Warehouse.constructor | warehouse-app/src/api/warehouseMethods.js:15 | the service starts with two distinct, empty, reachable collections |
| WarehouseMethods.Warehouse.GetManufacturerById | warehouse-app/src/api/warehouseMethods.js:16-26 | answers `GetByIdResult` on the Manufacturer collection |
| WarehouseMethods.Warehouse.FindManufacturers | warehouse-app/src/api/warehouseMethods.js:28-40 | sanitizes the search fields in place and answers `FindResult` on the Manufacturer collection |
| WarehouseMethods.Warehouse.InsertManufacturer | warehouse-app/src/api/warehouseMethods.js:42-50 | sanitizes in place; the answer and the new Manufacturer state are `InsertResult`, and Items are untouched |
| WarehouseMethods.Warehouse.UpdateManufacturerById | warehouse-app/src/api/warehouseMethods.js:52-62 | sanitizes in place; the answer and the new Manufacturer state are `UpdateByIdResult` |
| WarehouseMethods.Warehouse.DeleteManufacturer | warehouse-app/src/api/warehouseMethods.js:64-74 | sanitizes in place; the answer and the new Manufacturer state are `DeleteResult` |
| WarehouseMethods.Warehouse.GetItemById | warehouse-app/src/api/warehouseMethods.js:76-86 | answers `GetByIdResult` on the Item collection |
| WarehouseMethods.Warehouse.FindItems | warehouse-app/src/api/warehouseMethods.js:88-100 | sanitizes the search fields in place and answers `FindResult` on the Item collection |
| WarehouseMethods.Warehouse.InsertItem | warehouse-app/src/api/warehouseMethods.js:102-110 | sanitizes in place; the answer and the new Item state are `InsertResult` |
| WarehouseMethods.Warehouse.UpdateItemById | warehouse-app/src/api/warehouseMethods.js:112-122 | sanitizes in place; the answer and the new Item state are `UpdateByIdResult` |
| WarehouseMethods.Warehouse.DeleteItem | warehouse-app/src/api/warehouseMethods.js:124-134 | sanitizes in place; the answer and the new Item state are `DeleteResult` |
| WarehouseMethods.Warehouse.ReserveItem | warehouse-app/src/api/warehouseMethods.js:142-160 | the task for one line: its answer and the new Item state are those of reserving that line on the old state |
| WarehouseMethods.Warehouse.PrepareOrder | warehouse-app/src/api/warehouseMethods.js:136-173 | renames the user's `_id` to `id` in place; the answer, the posted payload and the new Item state are `PrepareOrderResult` of the old state, with the lines reserved one after another |
| OrderSpecs.RenameUserId | warehouse-app/src/api/warehouseMethods.js:138-139 | `_id` is gone, `id` holds what `_id` held (undefined if absent), and every other field is kept |
| OrderSpecs.AsNumber | warehouse-app/src/api/warehouseMethods.js:147 | the number `info.quantity -= …` reads from a decrementable quantity: the number itself, and 0 for null |
| OrderSpecs.Decrementable | warehouse-app/src/api/warehouseMethods.js:147 | a quantity that `-=` turns into a number: a number or null (anything else gives NaN, which the save refuses) |
| OrderSpecs.Descriptor | warehouse-app/src/api/warehouseMethods.js:151-159 | a line's descriptor carries the line's item text and requested quantity, the given price, dimensions 10 x 10 x 10 and weight 100 |
| OrderSpecs.ReserveLine | warehouse-app/src/api/warehouseMethods.js:143-159 | with the store up and the item available (stored, a decrementable quantity, the other required fields filled in), one line answers its descriptor with the stored price and lowers exactly that item's quantity by the amount requested; otherwise it fails and changes nothing |
| OrderSpecs.Reserve | warehouse-app/src/api/warehouseMethods.js:142-162 | the lines, one after another, stopping at the first failure; a success answers one descriptor per line |
| OrderSpecs.PrepareOrderResult | warehouse-app/src/api/warehouseMethods.js:136-173 | the store ends as reserving left it; a payload of the renamed user and the descriptors is posted if and only if reserving succeeded; the order succeeds if and only if reserving succeeded and the post did not fail; a reserving failure or a post failure reaches the caller through `throwThriftError` |
| OrderSpecs.SavableIff | warehouse-app/src/api/warehouseMethods.js:147-149 | with a number written into `quantity`, an item record passes the required validators if and only if its other required fields are filled in |
| OrderSpecs.AvailableOnlyQuantities | warehouse-app/src/api/warehouseMethods.js:143-149 | a change that touches only quantities (and keeps them decrementable) does not change whether a line's item is available |
| OrderSpecs.ReserveLineOnlyQuantities | warehouse-app/src/api/warehouseMethods.js:143-149 | reserving one line changes no record except in its quantity, and a quantity that could be decremented still can |
| OrderSpecs.ReserveOnlyQuantities | warehouse-app/src/api/warehouseMethods.js:142-160 | reserving all lines creates and removes no record and changes no field but `quantity` |
| OrderSpecs.ReserveSucceedsIff | warehouse-app/src/api/warehouseMethods.js:142-162 | the lines reserve if and only if the store is up (or there are none) and every line's item is available: stored, with a quantity that can be decremented and the other required fields filled in |
| OrderSpecs.ReserveDescriptors | warehouse-app/src/api/warehouseMethods.js:151-159 | after a successful reservation there is one descriptor per line, in order, with dimensions 10 x 10 x 10, weight 100, the stored price and the requested quantity |
| OrderSpecs.ReserveQuantities | warehouse-app/src/api/warehouseMethods.js:147-149 | after a successful reservation each requested item's stored quantity has dropped by the total requested of it (with no lower bound), and every other record is unchanged |
| OrderSpecs.ReserveQuantitiesStep | warehouse-app/src/api/warehouseMethods.js:147-149 | the last line's decrement on top of the earlier lines' decrements lowers each item by the new total requested of it |
| OrderSpecs.ReserveStopsAtFailure | warehouse-app/src/api/warehouseMethods.js:144-146 | once a line fails, the lines after it are not processed |
| OrderSpecs.PrepareOrderMissingItem | warehouse-app/src/api/warehouseMethods.js:143-146 | a line naming an item that is not stored fails the order with "Item with id … wasn't found." as NotFound, nothing is posted, and the earlier lines' decrements stay saved |
| OrderSpecs.PrepareOrderCommits | warehouse-app/src/api/warehouseMethods.js:136-168 | with every line available and the post succeeding, the order succeeds, posts the renamed user with one descriptor per line, leaves each item decremented by the total requested of it and leaves every other record unchanged |
| OrderSpecs.PrepareOrderLogisticsFailure | warehouse-app/src/api/warehouseMethods.js:163-171 | a failing post fails the order with that failure's classification, after the payload was sent, and the decrements stay saved |
| OrderSpecs.UpdateThenReserveIsValidation | warehouse-app/src/api/warehouseMethods.js:147-149 | after an update blanks an item's `name`, reserving a line of it fails with the Item ValidationError and changes nothing |
| OrderSpecs.RacedLine | warehouse-app/src/api/warehouseMethods.js:143-149 | one line's task with its lookup on an earlier store and its save on the current one: no record is created or removed, the other records are unchanged, and the item is saved with the quantity read earlier minus the request |
| OrderSpecs.RacedReserve | warehouse-app/src/api/warehouseMethods.js:142-162 | all lookups resolve before any save: the saves create and remove no record |
| OrderSpecs.RacedReserveLosesDecrement | warehouse-app/src/api/warehouseMethods.js:142-162 | with two lines for one item whose lookups both resolve before either save, stock 10 and requests 3 and 4 leave 6 in the store, where reserving one line after another leaves 3 |

## Left out

- The concurrency of `Promise.all` (warehouseMethods.js:142-162) is left out. The model handles the lines one after another and stops at the first failing line. In the code, the other lines' tasks go on running and saving after one of them rejects. `RacedLine` and `RacedReserve` model only the one schedule used in the finding below.
- The post to the logistics service (`httpreq.post`) is modelled as the parameter `logistics`, the failure the post raises, if any. Its response is not used.
- Logging (`console.log`, `console.error`) has no effect on any result and is left out.
- `filterOutNullValues(orderedItems)` is left out. The model's lines are typed records, so there is no null entry to delete. Deleting an array slot in JavaScript would leave a hole that `map` skips.
- ObjectIds.ParseId: the model accepts only canonical decimal text, while the program's ObjectId cast accepts more (24 hexadecimal digits in either case, and any 12-character string), so in the program several texts can name one record. Only parsing, printing and their round trip matter to the handlers.
- The store's type casting is not modelled. This covers `Double` prices, `NumberInt` 32-bit quantities and the `Date` arrival date. The exception is a quantity that cannot be decremented, which fails the save as a ValidationError. A quantity below the 32-bit range is not rejected.
- JavaScript's coercion of a numeric string in `info.quantity -= item.quantity` is not modelled. Such a quantity is treated as NaN, and a null quantity counts as 0.
- Mongo query operators, and matching on null or undefined, are not modelled. A query matches by exact equality of every field, with `_id` compared as an identifier.
- The `!manufacturers` / `!items` test for a falsy `find` answer is left out, because the store always answers a sequence.
- A caller-supplied `_id` on insert is dropped: the store always assigns a fresh identifier. (An `_id` inside an update is modelled, see above.)
- The store's casting of an update is modelled only for `_id`. A value of the wrong type for a schema field is written as given.
- `warehouse-app/src/app.js`, `warehouse-app/src/api/warehouse.js`, the connection retry loop, `payments-app` and the tests are not part of this model.
- The schema in `warehouse-app/src/storage.js` is modelled only as field sets inside `DocumentStore`.

## Findings

| source | as written | input that shows it | evidently intended | confidence | as-written member | corrected member |
|---|---|---|---|---|---|---|
| warehouse-app/src/api/warehouseMethods.js:142-162 | each line's task fetches the item, subtracts its quantity from the fetched copy and saves it, and all tasks run at once under `Promise.all`, so two lines for the same item can both read the old stock and the later save overwrites the earlier | an item stored with quantity 10 and an order with the lines (item, 3) and (item, 4), where both lookups resolve before either save: the store ends at 6 | the stock drops by the total requested, 10 - 3 - 4 = 3 | not executed; depends on the lookups' completion order | OrderSpecs.RacedReserveLosesDecrement | OrderSpecs.ReserveQuantities |
