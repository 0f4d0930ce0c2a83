/** The generic config model of package crole (crole/method.go): a record
    whose collection name is built from a prefix, the model name and a
    suffix; create, delete, fetch-one, fetch-many, update and list. The
    package's constants and the record's other fields are declared in
    crole/model.go, which is not part of this model, so they are values
    here. */
module CRole {
  import opened Store
  import opened ListQuery

  /** collectionNamePrefix, modelName and collectionNameSubffix. */
  datatype CollectionNames = CollectionNames(prefix: string, modelName: string, suffix: string)

  /** The record as written to the store: its timestamps and the rest of
      its fields, by name. */
  datatype ModelDoc = ModelDoc(createdAt: string, updatedAt: string, fields: map<string, string>)

  class Model {
    const names: CollectionNames
    var createdAt: string
    var updatedAt: string
    var fields: map<string, string>

    function Doc(): ModelDoc
      reads this
    {
      ModelDoc(createdAt, updatedAt, fields)
    }

    constructor (names: CollectionNames, d: ModelDoc)
      ensures this.names == names && Doc() == d
    {
      this.names := names;
      createdAt, updatedAt, fields := d.createdAt, d.updatedAt, d.fields;
    }

    /** ResourceName: the model name. */
    function ResourceName(): string
    {
      names.modelName
    }

    /** CollectionName: the prefix, then the resource name, then the
        suffix, with nothing in between. */
    function CollectionName(): (r: string)
      ensures |r| == |names.prefix| + |ResourceName()| + |names.suffix|
      ensures r[..|names.prefix|] == names.prefix
      ensures r[|names.prefix|..|names.prefix| + |ResourceName()|] == ResourceName()
      ensures r[|names.prefix| + |ResourceName()|..] == names.suffix
    {
      names.prefix + names.modelName + names.suffix
    }

    /** Create: stamps CreatedAt and UpdatedAt (two clock readings), then
        inserts the record. On an insert error it returns ("", err);
        otherwise the inserted id in hex (`hex` is ObjectID.Hex). */
    method Create(clock1: string, clock2: string, inserted: Result<ObjectId>, hex: ObjectId -> string)
      returns (idHex: string, err: Option<Error>, calls: seq<Call<ModelDoc>>)
      modifies this
      ensures Doc() == old(Doc()).(createdAt := clock1, updatedAt := clock2)
      ensures calls == [Call(CollectionName(), InsertOne(Doc()))]
      ensures inserted.Err? ==> idHex == "" && err == Some(inserted.error)
      ensures inserted.Ok? ==> idHex == hex(inserted.value) && err == None
    {
      createdAt := clock1;
      updatedAt := clock2;
      calls := [Call(CollectionName(), InsertOne(Doc()))];
      match inserted {
        case Err(e) => idHex, err := "", Some(e);
        case Ok(insertedId) => idHex, err := hex(insertedId), None;
      }
    }

    /** Delete: a malformed id deletes by the nil id; a DeletedCount below
        1 is only a warning, so the result is nil. */
    method Delete(parse: HexParser, idHex: string, deleted: Result<int>)
      returns (err: Option<Error>, calls: seq<Call<ModelDoc>>)
      ensures calls == [Call(CollectionName(), DeleteOne(IdFilter(IdOrNil(parse, idHex))))]
      ensures parse(idHex).None? ==> calls[0].op.filter == [("_id", Oid(NilId))]
      ensures deleted.Err? ==> err == Some(deleted.error)
      ensures deleted.Ok? ==> err == None
    {
      var objId := IdOrNil(parse, idHex);
      calls := [Call(CollectionName(), DeleteOne(IdFilter(objId)))];
      match deleted {
        case Err(e) => err := Some(e);
        case Ok(deletedCount) =>
          if deletedCount < 1 {
            // only a warning is logged
            err := None;
          } else {
            err := None;
          }
      }
    }

    /** GetOne: unlike Delete and Update, a malformed id is an error
        returned before any query; otherwise one find by the id. */
    method GetOne(parse: HexParser, idHex: string, foundOne: Result<ModelDoc>)
      returns (got: Result<ModelDoc>, calls: seq<Call<ModelDoc>>)
      ensures parse(idHex).None? ==> got == Err(InvalidHex(idHex)) && calls == []
      ensures parse(idHex).Some? ==>
        calls == [Call(CollectionName(), FindOne(IdFilter(parse(idHex).value)))] && got == foundOne
    {
      match parse(idHex) {
        case None =>
          got, calls := Err(InvalidHex(idHex)), [];
        case Some(objId) =>
          calls := [Call(CollectionName(), FindOne(IdFilter(objId)))];
          got := foundOne;
      }
    }

    /** GetMany: one id per string, in order, the nil id for a malformed
        string; one `$in` find over them. */
    method GetMany(parse: HexParser, ids: seq<string>, found: Result<seq<ModelDoc>>)
      returns (got: Result<seq<ModelDoc>>, calls: seq<Call<ModelDoc>>)
      ensures got == found
      ensures |calls| == 1 && calls[0].collection == CollectionName() && calls[0].op.FindIn?
      ensures |calls[0].op.ids| == |ids|
      ensures forall i :: 0 <= i < |ids| ==> calls[0].op.ids[i] == IdOrNil(parse, ids[i])
    {
      got, calls := ListQuery.GetManyInIds(CollectionName(), parse, ids, found);
      IdsOrNilAt(parse, ids);
    }

    /** Update: stamps UpdatedAt, then `$set`s the record on the parsed id
        (the nil id for a malformed one). A MatchedCount below 1 is only a
        warning: the result is nil. */
    method Update(parse: HexParser, idHex: string, clock: string, updated: Result<int>)
      returns (err: Option<Error>, calls: seq<Call<ModelDoc>>)
      modifies this
      ensures Doc() == old(Doc()).(updatedAt := clock)
      ensures calls == [Call(CollectionName(), UpdateOne(IdFilter(IdOrNil(parse, idHex)), Doc()))]
      ensures err == ErrorOf(updated)
    {
      var objId := IdOrNil(parse, idHex);
      updatedAt := clock;
      calls := [Call(CollectionName(), UpdateOne(IdFilter(objId), Doc()))];
      match updated {
        case Err(e) => err := Some(e);
        case Ok(matchedCount) =>
          if matchedCount < 1 {
            // only a warning is logged
            err := None;
          } else {
            err := None;
          }
      }
    }

    /** The resource name makes a model list a reference request (a single
        `$in` find) exactly when some filter key is the model name or "id";
        otherwise the list starts with its count. */
    lemma ListIsReferenceIff(merchantId: string, p: UrlParams, parse: HexParser,
                             counted: Result<int>, found: Result<seq<ModelDoc>>)
      ensures var (_, calls) := ListSpec(CollectionName(), ResourceName(), merchantId, p, parse, counted, found);
        (calls[0].op.FindIn? <==>
           exists k :: 0 <= k < |p.filterMap| && (p.filterMap[k].0 == names.modelName || p.filterMap[k].0 == "id"))
        && (calls[0].op.FindIn? || calls[0].op.CountDocuments?)
    {
      PlanIsReferenceIff(ResourceName(), merchantId, p);
    }

    /** GetList: the list routine with the model name as the resource name;
        `accountID` takes no part in it. */
    method GetList(merchantId: string, accountId: string, p: UrlParams, parse: HexParser,
                   counted: Result<int>, found: Result<seq<ModelDoc>>)
      returns (r: ListReply<ModelDoc>, calls: seq<Call<ModelDoc>>)
      ensures (r, calls) == ListSpec(CollectionName(), ResourceName(), merchantId, p, parse, counted, found)
    {
      r, calls := RunList(CollectionName(), ResourceName(), merchantId, p, parse, counted, found);
    }
  }
}
