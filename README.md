# Menu catalogue: a Dafny model

This project models the record-keeping core of a restaurant-menu catalogue service. The service is a FastAPI application over MongoDB that stores products and categories.

The repository holds three revisions of the catalogue. All three are modelled:

- **The layered app** consists of the `app/models/products.py` schemas, `BaseRepository`, `ProductRepository`, `ProductService` and the product routes in `app/api/endpoints/products.py`. A malformed id is reported as not found (404, "ID inválido"). A store fault becomes a `DatabaseException`, which no route maps, so it answers 500. An update is a partial `$set` merge that is then re-read.
- **The flat app** consists of `app/database.py` and `app/api.py` over the unconstrained records of `app/models.py`. Reads and deletes answer 400 for a malformed id. A write's matched, modified and deleted counts decide between the success message, 404 and 422. A stored document that does not fit a read route's `response_model` answers 500.
- **The prototype** is `database.py` at the repository root. It has no id guard, and its update overwrites every field.

A Mongo collection is a `Store.Collection`. It is a class holding a `map<Oid, Document>` and the insertion order. Its methods `FindOne`, `Find`, `InsertOne`, `UpdateOne` and `DeleteOne` are proved against pure functions of the old state (`AfterUpdate`, `UpdateCounts`, `Select`). Each layer's class (`BaseRepository`, `ProductRepository`, `ProductService`, the two `Database` classes and `AppApi.Api`) has methods that change the collection in place. Each method's `ensures` ties its result and the new collection to an outcome function of the old collection. The properties the source promises are proved as lemmas about those outcome functions. `Revisions` places the three revisions side by side on the same stored collection.

A few facts about the code that the model keeps:

- The layered app answers 404 for a malformed id (app/repositories/base_repository.py:13, app/api/endpoints/products.py:17-20).
- A category name is limited to 50 characters (app/models/products.py:7).
- `create_*` in the flat app answers 200 (app/api.py:50-59).
- No revision checks names for uniqueness before an insert (app/database.py:51-58, app/api.py:50-59).

Several things are parameters rather than computed values:

- A store fault is an explicit `fault: Option<string>` input. A layered update also takes a second input, `rereadFault`, for the re-read that follows the write.
- URL validity (pydantic's `HttpUrl`) is the predicate `urlOk`.
- The id the driver assigns on insert is the input `newId`.

## Model

| member | source | states |
|---|---|---|
| ObjectIds.IsValidObjectId | app/utils.py:5-10 | true exactly for strings of 24 hex digits (either case), false for everything else, never failing |
| ObjectIds.WrongLengthRejected | app/utils.py:7-10 | a string whose length is not 24 is refused and does not parse to an id |
| ObjectIds.NonHexRejected | app/utils.py:7-10 | a 24-character string with a non-hex character is refused and does not parse |
| ObjectIds.Parse | app/utils.py:7 | `ObjectId(s)` on a str: the 12 bytes spelled by 24 hex digits, none when it raises; acceptance is proved in IsValidObjectId and the round trips in StringFormAccepted and AcceptedIsStringForm |
| ObjectIds.ToHex | app/repositories/base_repository.py:21 | the text of a byte string has two characters per byte, all hex digits, none upper case |
| ObjectIds.OidString | app/repositories/base_repository.py:21 | `str()` of an id is 24 characters long |
| ObjectIds.FromHex | app/utils.py:7 | hex decoding succeeds exactly on even-length all-hex strings, giving half as many bytes |
| ObjectIds.FromHexOfToHex | app/repositories/base_repository.py:21 | decoding the hex text of any byte string gives those bytes back |
| ObjectIds.ToHexOfFromHex | app/utils.py:7 | re-encoding decoded hex gives the input in lower case |
| ObjectIds.StringFormAccepted | app/repositories/base_repository.py:21 | `str()` of any stored id is accepted by the validator and parses back to that same id |
| ObjectIds.AcceptedIsStringForm | app/repositories/base_repository.py:9-13 | for any accepted string, `str(ObjectId(s))` is `s` in lower case |
| Store.SetFields | app/repositories/base_repository.py:30-32 | `$set` gives the named keys their new values and keeps every other key of the document |
| Store.SetFieldsNoOp | app/database.py:64-66 | `$set` leaves a document unchanged exactly when the document already holds every value it sets |
| Store.UpdateCountsMeaning | app/database.py:64-71 | matched count is 1 exactly when the id is stored; modified count is 0 exactly when nothing matched or the document already agreed, which is exactly when the collection stays the same |
| Store.AfterUpdateFrame | app/repositories/base_repository.py:30-32 | an update keeps the set of ids, changes only the named document, and that document becomes the `$set` merge |
| Store.Select | app/database.py:27-28 | every listed document matches the filter and is stored, and every stored match is listed |
| Store.MatchingPositions | app/database.py:27-28 | the positions of the collection order whose document matches the filter, each below the order's length |
| Store.MatchingPositionsMeaning | app/database.py:27-28 | the matching positions are strictly increasing and contain a position exactly when its document matches the filter |
| Store.SelectInOrder | app/database.py:27-28 | a find lists one entry per matching position, in collection order: its k-th document is the one stored at the k-th matching position |
| Store.SelectAll | app/database.py:23-24 | a find with no filter returns every stored document in collection order |
| Store.Without | app/repositories/base_repository.py:44 | removing an id from the order drops exactly that id and keeps the order duplicate-free |
| Store.Collection.FindOne | app/repositories/base_repository.py:17 | returns the stored document for the id, none when absent, or the fault |
| Store.Collection.Find | app/database.py:23-32 | the loop's list is the filtered selection of the whole collection, or the fault |
| Store.Collection.InsertOne | app/database.py:51-58 | with no fault and a fresh id, the document is added under it and appended to the order; a reused id is a duplicate-key error; nothing changes on error |
| Store.Collection.UpdateOne | app/repositories/base_repository.py:30-32 | returns the matched and modified counts and the collection becomes the `$set` merge; a fault changes nothing |
| Store.Collection.DeleteOne | app/repositories/base_repository.py:44 | the deleted count is 1 exactly when the id was stored, and exactly that document is removed |
| ProductModels.LengthViolations | app/models/products.py:7 | a length bound fails exactly when the length is outside the inclusive range |
| ProductModels.UrlViolations | app/models/products.py:10 | a URL field fails exactly when the URL predicate refuses it |
| ProductModels.PriceViolations | app/models/products.py:53 | the price fails exactly when it is not strictly greater than 0 |
| ProductModels.CategoryRules | app/models/products.py:5-10 | a category is valid exactly when its name has 1 to 50 characters and its image is a URL |
| ProductModels.ProductRules | app/models/products.py:43-54 | a product is valid exactly when name is 1-100, description 1-300, tags 1-10 long, price > 0, image a URL and category a valid category |
| ProductModels.UpdateUsesBaseRules | app/models/products.py:83-96 | an update with every field given fails exactly as the same record does as a `ProductBase` |
| ProductModels.UpdateRules | app/models/products.py:83-96 | an update is valid exactly when each given field obeys its `ProductBase` bound; left-out and null fields pass |
| ProductModels.EmptyUpdateAccepted | app/models/products.py:64-96 | the update with no fields is accepted |
| ProductModels.CategoryDump | app/models/products.py:6 | a dumped category holds name and image, and `id` unless it was left out and unset fields are excluded |
| ProductModels.ProductDump | app/models/products.py:43-54 | a dumped product holds exactly the six schema fields |
| ProductModels.UpdateDump | app/services/product_service.py:39 | `model_dump(exclude_unset=True)` of an update; its keys and values are proved in UpdateDumpKeys |
| ProductModels.UpdateDumpKeys | app/models/products.py:83-96 | the dump of an update with unset fields excluded holds exactly the fields the caller set, each given field with its value and each null field as null |
| Documents.StrItems | app/models/products.py:50-52 | a stored `List[str]` reads back exactly when every item is a string, giving those strings in order |
| Documents.StrListOfStrItems | app/models.py:8 | strings read from a list are that list written back |
| ProductModels.DecodeId | app/models/products.py:6 | the optional id read from `_id`, else from `id`: absent, null or the string; any other value is refused |
| ProductModels.DecodeCategory | app/models/products.py:5-10 | `Category(**fields)` before its rules: an object with string name and image and a readable id; extra keys are ignored |
| ProductModels.DecodeProduct | app/models/products.py:43-54 | the record fields of a document before the rules; DecodeProductMeaning proves it gives exactly the product the document reads as |
| ProductModels.DecodeProductMeaning | app/models/products.py:43-54 | a document decodes to a product exactly when each schema field reads as that product's field |
| ProductModels.ReadsAsIgnoresId | app/models/products.py:61-62 | the `_id` key plays no part in the product a document reads as |
| ProductModels.DecodesAsReadsAs | app/models/products.py:43-54 | a document decodes to exactly the products it reads as, field by field |
| ProductModels.DecodeResponse | app/models/products.py:61-62 | a returned response carries the document's id and a valid product the document reads as; and whenever the id is readable and the document reads as a valid product, that product is returned |
| ProductModels.DecodeIdOfString | app/models/products.py:62 | a string `_id` is read as the response's `id` |
| Documents.StrItemsOfStrList | app/models/products.py:50-52 | dumped tags decode to the same tags |
| ProductModels.ResponseOfDump | app/models/products.py:43-62 | a valid product, dumped and stored with a string `_id`, reads back as that product with that id |
| BaseRepositories.ValidateId | app/repositories/base_repository.py:9-13 | succeeds exactly for valid ids, with the parsed id whose string is the input in lower case; otherwise NotFound "ID inválido" |
| BaseRepositories.FindByIdOutcome | app/repositories/base_repository.py:15-26 | what `find_by_id` returns or raises; its meaning is proved in FindByIdMeaning, MalformedIdIsNotFound and FaultsBecomeDatabaseErrors |
| BaseRepositories.UpdateOutcome | app/repositories/base_repository.py:28-40 | what `update` returns or raises; proved in UpdateMerges, UpdateMissLeavesCollection and NoOpUpdateSucceeds |
| BaseRepositories.UpdatedDocs | app/repositories/base_repository.py:28-40 | the collection after `update`; proved in UpdateMerges and UpdateMissLeavesCollection |
| BaseRepositories.DeleteOutcome | app/repositories/base_repository.py:42-52 | what `delete` returns or raises; proved in DeleteMeaning |
| BaseRepositories.DeletedDocs | app/repositories/base_repository.py:42-52 | the collection after `delete`: the named document is gone when the id is valid and no fault occurs; proved in DeleteMeaning |
| BaseRepositories.DeletedOrder | app/repositories/base_repository.py:42-52 | the collection order after `delete`: the id is dropped when the id is valid and no fault occurs |
| BaseRepositories.MalformedIdIsNotFound | app/repositories/base_repository.py:9-13 | for a malformed id, find, update and delete raise NotFound "ID inválido" and leave the collection unchanged, whatever the store would do |
| BaseRepositories.FindByIdMeaning | app/repositories/base_repository.py:15-26 | `find_by_id` fails exactly when the id is malformed or not stored, always as NotFound; otherwise it returns the stored document with `_id` set to the id's string |
| BaseRepositories.UpdateMerges | app/repositories/base_repository.py:28-40 | a matched update changes only the named keys of that document, keeps its other keys and every other document, then returns the re-read document; a fault in the re-read is wrapped twice as a DatabaseException |
| BaseRepositories.UpdateMissLeavesCollection | app/repositories/base_repository.py:33-34 | an update of an unstored id raises NotFound and leaves the collection unchanged |
| BaseRepositories.NoOpUpdateSucceeds | app/repositories/base_repository.py:28-36 | an update that modifies nothing still succeeds and returns the document |
| BaseRepositories.DeleteMeaning | app/repositories/base_repository.py:42-52 | `delete` returns True exactly when the id is valid and stored, removing only that document; otherwise it raises NotFound and removes nothing |
| BaseRepositories.FaultsBecomeDatabaseErrors | app/repositories/base_repository.py:23-26 | a store fault in find, update or delete of a valid id becomes a DatabaseException, never NotFound |
| BaseRepositories.BaseRepository.FindById | app/repositories/base_repository.py:15-26 | returns the `find_by_id` outcome on the current collection; a missing collection fails as a DatabaseException |
| BaseRepositories.BaseRepository.Update | app/repositories/base_repository.py:28-40 | the collection becomes the update's new state and the result is the update's outcome |
| BaseRepositories.BaseRepository.Delete | app/repositories/base_repository.py:42-52 | the collection becomes the delete's new state and the result is the delete's outcome |
| ProductRepositories.ProductRepository.constructor | app/repositories/product_repository.py:5-6 | a new repository has no collection |
| ProductRepositories.ProductRepository.Initialize | app/repositories/product_repository.py:8-11 | assigns the products collection only when none is set, so repeated calls change nothing |
| ProductRepositories.ProductRepository.GetById | app/repositories/product_repository.py:18-21 | initializes, then has exactly the `find_by_id` outcome on the products collection |
| ProductRepositories.ProductRepository.Update | app/repositories/product_repository.py:28-31 | initializes, then has exactly the base update's outcome and new state |
| ProductRepositories.ProductRepository.Delete | app/repositories/product_repository.py:33-36 | initializes, then has exactly the base delete's outcome and new state |
| ProductServices.ConvertImages | app/services/product_service.py:42-46 | the two `str()` conversions of the update dict; proved in ConvertImagesMeaning |
| ProductServices.ConvertImagesMeaning | app/services/product_service.py:42-46 | the `str()` conversions add no key and change no string; a null image becomes "None"; a null category raises TypeError |
| ProductServices.CreateRequest | app/services/product_service.py:23-30 | the dict `create_product` passes holds every schema field, and it equals the record's dump |
| ProductServices.CreateRoundTrip | app/services/product_service.py:19-33 | a created valid product, stored under an id, is returned as that product with that id |
| ProductServices.UpdateRequestMeaning | app/services/product_service.py:37-46 | the dict `update_product` passes holds exactly the fields the caller set, each with its given value, a null name, description, tags or price as null and a null image as the text "None"; a null category raises TypeError instead |
| ProductServices.UpdateRequest | app/services/product_service.py:37-46 | the dict `update_product` passes never holds `_id`; its contents are proved in UpdateRequestMeaning |
| ProductServices.ResponseOf | app/services/product_service.py:16-17 | `ProductResponse(**product)` on what the repository returned: its error passes through, a document that fails validation is a validation error |
| ProductServices.GetProductOutcome | app/services/product_service.py:13-17 | what `get_product_by_id` returns or raises; proved in StoredDecodes and, at the route, MalformedIdIs404 |
| ProductServices.UpdateProductOutcome | app/services/product_service.py:35-49 | what `update_product` returns or raises; proved in UpdateIsTypedMerge, UpdateReadsBack and the two null-field lemmas |
| ProductServices.ResponsesOf | app/services/product_service.py:11 | the response list has one entry per document, in order, each the document read as a response; it fails only if some document does not validate |
| ProductServices.GetAllProducts | app/services/product_service.py:7-11 | an empty or missing repository result gives the empty list; otherwise the result succeeds exactly when every document decodes, and then holds one response per document, the i-th being the i-th document's; a failure is an invalid record |
| ProductServices.MergeValid | app/models/products.py:83-96 | a valid update applied to a valid product gives a valid product |
| ProductServices.SetFieldsReadsAsMerge | app/services/product_service.py:35-49 | `$set` of an update with no nulls turns a document that reads as `p` into one that reads as `p` with the given fields replaced |
| ProductServices.UpdateIsTypedMerge | app/services/product_service.py:35-49 | updating a stored, readable product with a valid update that has no nulls returns the old response with the given fields replaced, under the same id |
| ProductServices.StoredDecodes | app/services/product_service.py:13-17 | a product the service can get is the stored document read with its string id |
| ProductServices.UpdateReadsBack | app/services/product_service.py:35-49 | an update of a stored product returns the merged document read back as a response |
| ProductServices.NullNameIsWrittenThenUnreadable | app/services/product_service.py:35-49 | an update setting the name to null passes validation and writes null into the store, and then the re-read fails validation |
| ProductServices.NullCategoryRaisesTypeError | app/services/product_service.py:42 | an update setting the category to null raises TypeError before any write, leaving the store unchanged |
| ProductServices.ProductService.GetProductById | app/services/product_service.py:13-17 | the result is the repository's document read as a response, or its error |
| ProductServices.ProductService.UpdateProduct | app/services/product_service.py:35-49 | for an update that passed its field rules, the products collection becomes the update's new state, its order kept, and the result is the update's outcome |
| ProductServices.ProductService.DeleteProduct | app/services/product_service.py:51-54 | returns the repository's result; the collection and its order become the delete's new state |
| Http.FailureResponse | app/api/endpoints/products.py:20 | an HTTPException answers its own status and detail; any other exception answers 500 with "Internal Server Error" |
| ProductEndpoints.NotFoundTo404 | app/api/endpoints/products.py:17-20 | NotFound becomes 404 with the exception's message as detail; any other service error answers 500 |
| ProductEndpoints.ListProducts | app/api/endpoints/products.py:9-12 | the list handler: 200 with the responses, 500 for any exception; proved in StatusCodes |
| ProductEndpoints.GetProduct | app/api/endpoints/products.py:14-20 | the get handler: 200 with the response, NotFound as 404, others 500; proved in StatusCodes and MalformedIdIs404 |
| ProductEndpoints.CreateProduct | app/api/endpoints/products.py:22-25 | the create handler: 201 with the created response, 500 for any exception; proved in StatusCodes |
| ProductEndpoints.UpdateProduct | app/api/endpoints/products.py:27-33 | the update handler: 200 with the response, NotFound as 404, others 500; proved in StatusCodes |
| ProductEndpoints.DeleteProduct | app/api/endpoints/products.py:35-41 | the delete handler: 204, NotFound as 404, others 500; proved in DeleteAnswers204 |
| ProductEndpoints.CreateRoute | app/api/endpoints/products.py:22-25 | the create route as served: a `ProductCreate` body that breaks a rule is answered 422 before the handler; proved in RequestBodyValidation |
| ProductEndpoints.UpdateRoute | app/api/endpoints/products.py:27-33 | the update route as served: a `ProductUpdate` body that breaks a rule is answered 422 before the handler; proved in RequestBodyValidation |
| ProductEndpoints.UpdateRouteDocs | app/api/endpoints/products.py:27-33 | the collection after the update route: unchanged for a refused body, else the service update's new state |
| ProductEndpoints.RequestBodyValidation | app/api/endpoints/products.py:22-33 | create and update answer 422 exactly when the body breaks a field rule, and a refused update leaves the store unchanged; create answers only 201, 422 or 500, update only 200, 404, 422 or 500 |
| ProductEndpoints.StatusCodes | app/api/endpoints/products.py:9-41 | once the body has validated, list answers only 200 or 500, create only 201 or 500, get and update only 200, 404 or 500, delete only 204, 404 or 500 |
| ProductEndpoints.DatabaseErrorIs500 | app/api/endpoints/products.py:9-41 | a DatabaseException answers 500 on every product route |
| ProductEndpoints.MalformedIdIs404 | app/api/endpoints/products.py:14-41 | at the handlers, a malformed id answers 404 "ID inválido" on get, delete and update (unless the update's category is null); at the update route this holds once the body validates |
| ProductEndpoints.DeleteAnswers204 | app/api/endpoints/products.py:35-41 | delete answers 204 exactly when the id is valid and stored, and 404 otherwise |
| ProductEndpoints.HandleGet | app/api/endpoints/products.py:14-20 | the response is the get route's answer on the service's outcome |
| ProductEndpoints.HandleUpdate | app/api/endpoints/products.py:27-33 | a body that breaks the update rules answers 422 and leaves the store as it was; otherwise the response is the handler's answer and the collection becomes the update's new state; the order is kept |
| ProductEndpoints.HandleDelete | app/api/endpoints/products.py:35-41 | the response is the delete route's answer, and the collection and its order become the delete's new state |
| LegacyModels.ProductDict | app/database.py:56-58 | a product's `.dict()` holds exactly the five schema fields |
| LegacyModels.DecodeProduct | app/models.py:4-9 | `Product(**doc)`: the five fields with their types, other keys ignored; its meaning is proved in DecodeRecordMeaning |
| LegacyModels.DecodeCategory | app/models.py:11-12 | `Category(**doc)`: a string name, other keys ignored; its meaning is proved in DecodeRecordMeaning |
| LegacyModels.DecodeRecord | app/models.py:4-12 | a document read as its collection's model gives a record of that kind which the document holds |
| LegacyModels.DecodeRecordMeaning | app/models.py:4-12 | a document reads as a record exactly when it holds that record's fields |
| LegacyModels.RecordDictInjective | app/models.py:4-12 | two records of one kind have the same dict exactly when they are equal |
| AppDatabase.GetByIdOutcome | app/database.py:35-48 | what `get_*_by_id` returns or raises: unhandled InvalidId for a malformed id, the fault, the stored non-empty document, or None; proved in GetByIdMeaning |
| AppDatabase.UpdateOutcome | app/database.py:61-83 | what `update_*` returns or raises; proved in UpdateMeaning |
| AppDatabase.UpdatedDocs | app/database.py:61-83 | the collection after `update_*`; proved in UpdateMeaning |
| AppDatabase.DeleteOutcome | app/database.py:86-111 | what `delete_*` returns or raises; proved in DeleteMeaning |
| AppDatabase.DeleteReply | app/database.py:91-97 | the reply to a deleted count, with its three branches; DeleteNever422 proves the last unreachable |
| AppDatabase.DeletedDocs | app/database.py:86-111 | the collection after `delete_*`; proved in DeleteMeaning |
| AppDatabase.DeletedOrder | app/database.py:86-111 | the collection order after `delete_*`: the id is dropped when the id is valid and no fault occurs |
| AppDatabase.UpdateReply | app/database.py:66-71 | success with the "updated" message exactly when something was modified; else 404 when nothing matched; else 422 |
| AppDatabase.DeleteNever422 | app/database.py:91-97 | the 422 branch of delete is unreachable; delete succeeds exactly when a document was deleted |
| AppDatabase.GetByIdMeaning | app/database.py:35-48 | for a valid id, the lookup returns the stored document exactly when it is present and not empty, and None otherwise |
| AppDatabase.UpdateMeaning | app/database.py:61-83 | an update succeeds exactly when the stored document does not already hold the record; an unstored id gives 404 and an unchanged document gives 422; after the update the document holds the record |
| AppDatabase.DeleteMeaning | app/database.py:86-111 | a malformed id gives 400 with nothing removed; with no fault, delete succeeds with the "deleted" message exactly when the id is stored, else 404, and removes only that document; never 422 |
| AppDatabase.Database.List | app/database.py:23-32 | the list is the collection's selection for the filter, or the fault |
| AppDatabase.Database.GetById | app/database.py:35-48 | the result is the lookup's outcome on the kind's collection |
| AppDatabase.Database.Create | app/database.py:51-58 | with no fault and a fresh id, the record's dict is added to its kind's collection and its id appended to the order; otherwise nothing changes and the error is unhandled |
| AppDatabase.Database.Update | app/database.py:61-83 | the collection becomes the update's new state, its order kept, and the result is its reply |
| AppDatabase.Database.Delete | app/database.py:86-111 | the collection and its order become the delete's new state and the result is its reply |
| AppApi.DecodeAll | app/api.py:9-22 | a list reads as `List[Product]` or `List[Category]` exactly when every document reads as the model, giving each one's record in order |
| AppApi.ListResponse | app/api.py:9-22 | the list routes with their `response_model`: the failure's response, 500 when a document does not fit, else 200 with the records; proved in ListMeaning |
| AppApi.ListMeaning | app/api.py:9-22 | a fetched list answers only 200 or 500; when every document holds a record of the model it answers 200 with those records' dicts in order, and it answers 500 exactly when some document holds none |
| AppApi.ReadResponse | app/api.py:25-46 | the read routes with their `response_model`: 400 before the lookup, then the failure, 404 on None, 500 for a document that does not fit, or 200 with its record; proved in ReadMeaning |
| AppApi.ReadMeaning | app/api.py:25-46 | a read answers 400 exactly for a malformed id; 500 exactly on a store fault or for a stored non-empty document that holds no record of the model; 404 when nothing non-empty is stored; and 200 with a record exactly when the stored document holds it |
| AppApi.CreatedRecordReadsBack | app/api.py:25-59 | a record just inserted under an id reads back at that id's string form as that record |
| AppApi.CreateResponse | app/api.py:49-59 | a create whose insert returned answers 200 with the "created" message; a failed insert answers as its failure does |
| AppApi.DeleteResponse | app/api.py:61-81 | the delete routes as written, with their own 404 fallback; proved in DeleteMeaning |
| AppApi.DeleteMeaning | app/api.py:61-81 | 400 for a malformed id; otherwise 200 with the data layer's message exactly when the id is stored, else 404; the route's own 404 after a successful call is unreachable |
| AppApi.UpdateResponse | app/api.py:84-98 | the update routes as written, with their own 404 fallback; proved in UpdateMeaning |
| AppApi.UpdateMeaning | app/api.py:84-98 | a malformed id answers 500; otherwise 200 exactly when the document changes, 404 when the id is not stored, 422 when it already holds the record; the route's own 404 is unreachable |
| AppApi.Api.List | app/api.py:9-22 | the response is the list route's answer on the collection's selection, or the fault's 500 |
| AppApi.Api.Read | app/api.py:25-46 | the response is the read route's answer on the kind's collection |
| AppApi.Api.Create | app/api.py:49-59 | with no fault and a fresh id, the record's dict is added, its id appended to the order, and the answer is 200 "created"; otherwise 500 with nothing changed |
| AppApi.Api.Delete | app/api.py:61-81 | the collection and its order become the delete's new state and the response is the delete route's answer |
| AppApi.Api.Update | app/api.py:84-98 | the collection becomes the update's new state, its order kept, and the response is the update route's answer |
| PrototypeDatabase.GetProductOutcome | database.py:29-30 | what `get_product_by_id` returns or raises; proved in GetProductMeaning |
| PrototypeDatabase.GetProductMeaning | database.py:29-30 | the lookup succeeds exactly for a valid id with no fault, returning the stored document (even an empty one) or None |
| PrototypeDatabase.UpdateProductOutcome | database.py:43-44 | `update_product` raises only for a malformed id or a fault and otherwise reports nothing |
| PrototypeDatabase.UpdateProductDocs | database.py:43-44 | the collection after `update_product`; proved in UpdateOverwritesSchema |
| PrototypeDatabase.UpdateOverwritesSchema | database.py:43-44 | an update overwrites all five schema fields and keeps other keys and other documents; with no stored document it changes nothing and still reports nothing |
| PrototypeDatabase.DeleteProductOutcome | database.py:40-41 | `delete_product` raises only for a malformed id or a fault and otherwise reports nothing |
| PrototypeDatabase.DeleteProductDocs | database.py:40-41 | the collection after `delete_product`; proved in DeleteIsSilent |
| PrototypeDatabase.DeleteIsSilent | database.py:40-41 | a delete of a valid id succeeds whether or not it was stored, and removes exactly that document |
| PrototypeDatabase.Database.List | database.py:20-27 | the list is the collection's selection for the filter, or the fault |
| PrototypeDatabase.Database.GetProductById | database.py:29-30 | the result is the lookup's outcome on the products collection |
| PrototypeDatabase.Database.Create | database.py:32-38 | with no fault and a fresh id, the record's dict is added; otherwise nothing changes |
| PrototypeDatabase.Database.DeleteProduct | database.py:40-41 | the collection and its order become the delete's new state, with no result checked |
| PrototypeDatabase.Database.UpdateProduct | database.py:43-44 | the collection becomes the full-record update's new state, its order kept, with no result checked |
| Revisions.MalformedIdAcrossRevisions | app/api.py:25-34 | a malformed id answers 400 on the flat app's read, 404 on the layered get, is an unhandled error in the prototype, and 500 on the flat app's update |
| Revisions.NoOpUpdateAcrossRevisions | app/database.py:66-71 | writing back what a document holds answers 422 in the flat app but returns the document in the layered repository |
| Revisions.OverwriteVersusMerge | database.py:43-44 | the prototype overwrites every schema field, while the layered update keeps a description the caller left unset |
| Revisions.EmptyDocumentAcrossRevisions | app/database.py:35-40 | a document that projects to `{}` is None (404) in the flat app but is returned in the prototype |

## Left out

- ObjectId parsing follows "24 characters that `bytes.fromhex` accepts". `fromhex` skipping whitespace between byte pairs is not modelled, because the bson library is not part of this model. Every hex-only 24-character string is handled exactly.
- URL syntax and normalisation of pydantic's `HttpUrl` are not modelled. Every URL check is the parameter `urlOk`, and a valid URL is kept as the given text.
- Price is a Dafny `real`. Floating-point rounding and non-finite values are not modelled.
- async/await, the motor and pymongo drivers, the connection lifecycle and `get_collection`'s errors are not modelled. Store calls run in sequence, and a driver exception is the `fault` input.
- ProductServices.GetAllProducts: takes the repository's `get_all()` result as input. `find_all`, which that call uses, is not in the `BaseRepository` shown. For the same reason `create_product` is modelled only up to the dict it passes (`CreateRequest`) and the read-back of what the store returns (`CreateRoundTrip`).
- The `app.exceptions` module is not part of this model. NotFoundException and DatabaseException are the `RepoError` variants, and `str(e)` is the detail they carry.
- Serialisation of responses to JSON is not modelled. `response_model` validation and filtering are modelled for the flat app's list and read routes; the layered routes already return `ProductResponse` values.
- LegacyModels.DecodeProduct: a price stored as numeric text, which pydantic's lax mode would turn into a float, is read as not fitting; the flat app's own writes always store a number.
- ProductModels.DecodeProduct: for the same reason, a stored price that is numeric text is read as not fitting, so get and update answer 500 where `ProductResponse(**doc)` would accept it; the layered app's own writes always store a number.
- The 422 body FastAPI sends for a request that fails its schema is the list of violated rules, not pydantic's exact error objects. For the layered product routes the field rules of the request body are modelled on an already-typed `ProductCreate` or `ProductUpdate`; a body with a missing or ill-typed field, which FastAPI also answers 422, is taken as given. In the flat app, whose records carry no field rules, only the field types are checked, and the model takes those as given.
- Mongo's matching of an array field against a scalar filter is not modelled: `{"category": name}` compares the stored value for equality. Keys containing dots in a `$set` are treated as plain keys.
- An empty `$set` is treated as an update that matches and modifies nothing, as MongoDB 5.0 and later do.
- Store.Collection.InsertOne, Store.Collection.UpdateOne: require that the caller's dict has no `_id` key, because the stored documents keep the id as the map key. No caller in the modelled code passes one.
- Collection order is insertion order, with deletions removed. Mongo's natural order is otherwise unspecified.
- main.py, app/main.py, app/conn_db.py, app/core/database.py and app/core/config.py are not part of this model. They hold route registration, connection setup, CORS, static files and text indexes.
- Users, roles, tokens, password rules, pagination, case-insensitive name uniqueness and the "category still has products" deletion guard are not modelled, because none of them appears in the modelled code.
