/** Values shared by every collection: document identifiers, BSON filter
    predicates, find options, the errors the store reports, and the requests
    an operation sends to the store.

    The store itself (the MongoDB driver) is not modelled: its replies enter
    each operation as plain input values, and each operation returns, next to
    its result, the list of requests it issued. */
module Store {

  datatype Option<+T> = None | Some(value: T)

  /** A store reply or an operation result: a value or an error. */
  datatype Result<+T> = Ok(value: T) | Err(error: Error)

  /** The errors that surface to callers. */
  datatype Error =
    | NoDocuments                 // mongo.ErrNoDocuments
    | StoreFailure(reason: string) // any other error reported by the driver
    | InvalidHex(text: string)     // primitive.ObjectIDFromHex refused the text
    | NoMatchedRecord              // errors.New("no matched record")

  /** primitive.ObjectID: twelve bytes. */
  datatype ObjectId = ObjectId(bytes: seq<bv8>)

  /** primitive.NilObjectID, which ObjectIDFromHex returns beside its error. */
  const NilId: ObjectId := ObjectId(seq(12, _ => 0 as bv8))

  /** A hex parser in the shape of primitive.ObjectIDFromHex: an id, or None
      when the text is rejected. Its internals are not part of this model. */
  type HexParser = string -> Option<ObjectId>

  /** `objID, _ := primitive.ObjectIDFromHex(s)`: the error is dropped and a
      rejected text leaves the nil id. */
  function IdOrNil(parse: HexParser, s: string): ObjectId
  {
    match parse(s)
    case Some(id) => id
    case None => NilId
  }

  /** The values a filter predicate compares a field with. */
  datatype Value =
    | Str(s: string)          // a plain string, e.g. the merchant id
    | Strs(ss: seq<string>)   // the []string value of a FilterMap entry
    | Flag(b: bool)           // the status flag
    | Oid(id: ObjectId)       // an `_id` value

  /** bson.E and bson.D */
  type Predicate = (string, Value)
  type Filter = seq<Predicate>

  /** `bson.D{{Key: "_id", Value: id}}` */
  function IdFilter(id: ObjectId): Filter
  {
    [("_id", Oid(id))]
  }

  /** options.Find() with one sort key, a skip and a limit. */
  datatype FindOptions = FindOptions(sortKey: string, sortDir: int, skip: int, limit: int)

  /** One request to the store, over documents of type D. */
  datatype Op<D> =
    | CountDocuments(filter: Filter)
    | Find(filter: Filter, options: FindOptions)   // Find followed by cursor.All
    | FindIn(ids: seq<ObjectId>)                   // {"_id": {"$in": ids}}
    | FindOne(filter: Filter)
    | InsertOne(doc: D)
    | UpdateOne(filter: Filter, update: D)          // {"$set": doc}
    | DeleteOne(filter: Filter)

  /** A request addressed to a named collection. */
  datatype Call<D> = Call(collection: string, op: Op<D>)

  /** The `err` a store call hands back, with its value dropped. */
  function ErrorOf<T>(r: Result<T>): Option<Error>
  {
    match r
    case Ok(_) => None
    case Err(e) => Some(e)
  }
}
