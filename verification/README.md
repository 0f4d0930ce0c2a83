# Collection list and CRUD rules of r2day/collections, in Dafny

This project models the query logic of r2day/collections, a multi-tenant back-office data layer over MongoDB. It covers:

- how a list request (a merchant id, the caller's filter map, a status flag, a sort and a range) becomes either a **reference request** or a **plain query**;
- how each operation reacts to the counts and errors the store returns;
- which operations stamp the record's `CreatedAt`/`UpdatedAt` before writing it.

The two kinds of list request work like this:

- A **reference request** fetches the ids named by one filter entry.
- A **plain query** is a predicate list that starts with `merchant_id`, plus a sort, a skip and a limit.

Three source files are modelled, one module each:

- `ManagerAccount` (`MangerAccount.go`): class `Account`.
- `CRole` (`crole/method.go`): class `Model`.
- `Roles` (`Roles.go`): class `Role`.

Each record type is a class. Its methods overwrite the timestamp fields in place, and `Doc()` gives the document the record is written as.

Two shared modules sit under them:

- `Store` holds ObjectIds, filter predicates, find options, errors and store requests.
- `ListQuery` holds the list routine. `MangerAccount.go` and `crole/method.go` contain the same statements for this routine, up to logging and the name of the id-fetch helper, so it is defined once, as `ListQuery.RunList`. Its loop is proved against the recursive specification `PlanFrom`/`PlanOf` and `ListSpec`.

The store is not modelled. Its replies enter every operation as input values: the count or error, the found documents or error, the DeletedCount, the MatchedCount and the inserted id. Every operation returns, next to its result, the list of requests it sent to the store, each tagged with its collection. That is how the model states three facts:

- the count and the find of a list use the same predicate list;
- `GetOne` with a malformed id sends nothing;
- a reference request is not scoped to the merchant.

Go's map iteration order is unspecified. The filter map is therefore a sequence in arbitrary order, and the properties hold for every order:

- The request is a reference request iff some key is the resource name or `"id"`.
- It then fetches the ids of the first such key met.
- A plain query's predicates are the same multiset under any reordering.

Two behaviours of the code are easy to misread, and the model follows the code:

- A malformed id string in a batch is not skipped. It becomes the nil ObjectId, because the parse error is discarded.
- The sort direction is -1 exactly when `SortType == rest.AES`, and +1 otherwise.

## Model

| member | source | states |
|---|---|---|
| `ListQuery.FirstReferenceIndex` | MangerAccount.go:174-178 | the position at which the filter loop meets its first key equal to the resource name or "id" (or the number of entries): every earlier key is not a reference key, and the key there is one |
| `ListQuery.FindOptionsOf` | MangerAccount.go:212-221 | the find options sort on Sort.Key, at -1 exactly when SortType == rest.AES and at +1 otherwise, skip Range.Offset and limit to Range.Limit |
| `ListQuery.PlanFrom` | MangerAccount.go:174-197 | from any point of the filter loop, a plain outcome keeps the predicates accumulated so far as its prefix, and a reference outcome carries the value of a reference entry at or after that point |
| `ListQuery.PlanOf` | MangerAccount.go:170-197 | a plain query's predicate list starts with ("merchant_id", merchantID); a reference request carries the value of some entry whose key is the resource name or "id" |
| `ListQuery.PlanFromPlain` | MangerAccount.go:174-197 | from any point of the loop with no reference key ahead, the loop ends with the accumulated predicates, one predicate per remaining entry in order, then the status predicate iff HasFilter |
| `ListQuery.PlanFromReference` | MangerAccount.go:174-186 | from any point of the loop, the first reference key ahead decides the outcome: a reference request for that entry's value |
| `ListQuery.PlanOfClosedForm` | MangerAccount.go:170-221 | the plan of a list request in closed form: the reference request of the first reference entry, otherwise merchant_id, every entry in order, status iff HasFilter, and the find options |
| `ListQuery.PlanIsReferenceIff` | MangerAccount.go:174-186 | a request is a reference request iff some filter key is the resource name or "id", in any iteration order, and its ids are then the value of such an entry |
| `ListQuery.PlainPlanShape` | MangerAccount.go:170-221 | a plain query has 1 + (number of FilterMap entries) + (1 if HasFilter) predicates: ("merchant_id", merchantID) first, the entries next, ("status", Status) last iff HasFilter; sort on Sort.Key at -1 iff SortType == rest.AES, else +1; skip = Range.Offset, limit = Range.Limit |
| `ListQuery.ReferenceIgnoresRest` | MangerAccount.go:178-186 | a reference request ignores the merchant id, HasFilter, the status, the sort, the range and every entry after the first reference key |
| `ListQuery.EntryPredicatesPermute` | MangerAccount.go:174-191 | reordering the filter entries only reorders the predicates they become |
| `ListQuery.PlainPlanOrderIndependent` | MangerAccount.go:174-197 | for a plain query the iteration order of FilterMap does not matter: same predicates as a multiset, merchant_id still first, same find options |
| `ListQuery.IdsOrNil` | MangerAccount.go:253-256 | id conversion yields exactly as many ObjectIds as input strings |
| `ListQuery.IdsOrNilAt` | MangerAccount.go:253-256 | id conversion yields exactly one ObjectId per input string, in input order; a rejected string yields the nil ObjectId and is not dropped |
| `ListQuery.ObjectIdsFromHex` | MangerAccount.go:253-256 | the conversion loop builds that same sequence of ids, the i-th id from the i-th string |
| `ListQuery.GetManyInIds` | MangerAccount.go:244-269 | one `$in` find over the converted ids; the store's documents or error are returned as they are |
| `ListQuery.ListSpec` | MangerAccount.go:161-241 | a list call returns documents exactly when it returns no error, sends one or two requests, and sends them all to its collection |
| `ListQuery.RunList` | MangerAccount.go:161-241 | the list loop, the status append, the count and the find send exactly the requests, and give exactly the reply, of the specification `ListSpec` |
| `ListQuery.ListQueriesShareScopedFilter` | MangerAccount.go:199-224 | every request of a list call goes to its collection; the count and the find carry the same predicate list, and it begins with ("merchant_id", merchantID) |
| `ListQuery.ListReplies` | MangerAccount.go:180-239 | decision table of a list call: count error gives (nil, 0, err) and no find; find or cursor error gives (nil, total, err); success gives the page and the count; a reference request sends one `$in` find over the converted ids, returns the find's error, and reports the page's length as the total (0 on error) |
| `ListQuery.ReferenceListUnscoped` | MangerAccount.go:178-186 | a reference request does not depend on the merchant id: two merchants sending the same filter entries get the same requests and replies |
| `ManagerAccount.Account.SimpleSave` | MangerAccount.go:82-97 | sets CreatedAt and UpdatedAt, then inserts the stamped record; returns the insert's error |
| `ManagerAccount.Account.UpdateById` | MangerAccount.go:100-111 | sets UpdatedAt, then updates by the record's own id with the stamped record; only a store error is an error, MatchedCount is not examined |
| `ManagerAccount.Account.Delete` | MangerAccount.go:138-159 | deletes by the parsed id (the nil id for a malformed one); a store error is returned; DeletedCount < 1 returns the nil err, i.e. success |
| `ManagerAccount.Account.Update` | MangerAccount.go:291-311 | sets UpdatedAt before writing by the parsed id (nil id if malformed); store error returned; MatchedCount < 1 gives "no matched record"; otherwise nil |
| `ManagerAccount.Account.GetManyInIds` | MangerAccount.go:244-269 | one `$in` find on the account collection whose ids are one per input string, in order, the nil id for a malformed one |
| `ManagerAccount.Account.ListIsReferenceIff` | MangerAccount.go:77-79 | with the resource name "account", a list is a single `$in` find exactly when some filter key is "account" or "id", and otherwise begins with its count |
| `ManagerAccount.Account.List` | MangerAccount.go:161-241 | the list routine with resource name "account" on collection sys_manage_account |
| `CRole.Model.CollectionName` | crole/method.go:24-26 | the collection name is collectionNamePrefix, then modelName (the resource name), then collectionNameSubffix, with nothing in between |
| `CRole.Model.ListIsReferenceIff` | crole/method.go:19-21 | with the model name as resource name, a list is a single `$in` find exactly when some filter key is the model name or "id", and otherwise begins with its count |
| `CRole.Model.Create` | crole/method.go:30-46 | sets CreatedAt and UpdatedAt before the insert; returns ("", err) on insert failure, otherwise the inserted id's hex string and nil |
| `CRole.Model.Delete` | crole/method.go:50-70 | deletes by the parsed id (the nil id for a malformed one); a store error is returned; DeletedCount < 1 only warns and returns nil |
| `CRole.Model.GetOne` | crole/method.go:74-95 | a malformed id returns (nil, err) without any query; otherwise one find by the id, whose document or error is returned |
| `CRole.Model.GetMany` | crole/method.go:99-124 | one `$in` find whose ids are one per input string, in order, the nil id for a malformed one |
| `CRole.Model.Update` | crole/method.go:128-147 | sets UpdatedAt before writing by the parsed id (nil id if malformed); store error returned; MatchedCount < 1 only warns and returns nil |
| `CRole.Model.GetList` | crole/method.go:151-232 | the same list routine as the account list, with the model name as resource name, on the model's collection; accountID has no effect |
| `Roles.Role.SimpleSave` | Roles.go:52-68 | sets CreatedAt and UpdatedAt, then inserts the stamped record; returns the insert's error |
| `Roles.Role.Delete` | Roles.go:71-92 | deletes by the parsed id (the nil id for a malformed one); a store error is returned; DeletedCount < 1 returns the nil err, i.e. success |
| `Roles.Role.Update` | Roles.go:155-174 | writes the record as it is, UpdatedAt untouched, by the parsed id (nil id if malformed); store error returned; MatchedCount < 1 gives "no matched record" |
| `Roles.Role.List` | Roles.go:94-133 | the count and the find filter on exactly ("merchant_id", merchantId); the find sorts by "name" at +1 and passes offset and limit unchanged |
| `Roles.ListIsFixedPlanList` | Roles.go:94-133 | the role list equals the account list routine with no filter entries, no status filter and a non-AES sort on "name": same requests, same replies, including (nil, 0, err) on a count error and (nil, total, err) on a find or cursor error |

## Left out

- The MongoDB driver: the meaning of `$in`, `$set` merging, sorting, skip and limit, `CountDocuments` and cursor decoding. Store replies are inputs. A find error and a `cursor.All` error are one `found` input, because the code treats them alike.
- The `mongo.ErrNoDocuments` tests before the general error tests in the list routines: both branches return the same values, so they are one branch.
- The global handle `db.MDB`, `context.Context`, logrus logging and the `fmt.Println` in `Roles.List`: side effects with no bearing on results.
- The clock and `rtime.FomratTimeAsReader`: each clock reading is an input string. `SimpleSave` and `Create` read the clock twice, so they take two strings.
- The internals of `primitive.ObjectIDFromHex` and `ObjectID.Hex`: they are a parser function and a formatter function passed in.
- The parsing of `rest.UrlParams` and the value of `rest.AES`: `SortType` is `AES` or any other value.
- `FilterCommon.Status` is declared in the rest package, which is not part of this model. It is a boolean here, like the records' `Status` field.
- `crole/model.go` is not part of this model: `collectionNamePrefix`, `modelName` and `collectionNameSubffix` are a `CollectionNames` value, and the record's fields other than its timestamps are a name-to-string map.
- 64-bit widths: counts, offsets and limits are unbounded integers. `int64(len(results))` cannot overflow for a slice that exists.
- Go's nil slice is `None` and an empty page is `Some([])`.
- `FindByPhone`, `FindByAccountId` and `Detail` (MangerAccount.go, Roles.go): single `FindOne` lookups, outside the list and update rules modelled here.
- `DeployModeKey` and `StandaloneModeValue`: unused constants.
- The struct-only files (`affiliate/*`, `dishes/items`, `command/order`, `trade/*`, `system/*`, `auth/*`, `scm/supplier`, `reviews/comment`, `cdata`, `clog`, `corg`, `common.go`): they declare fields and no operations.
