/** The manager role collection (Roles.go): a role record, its save
    (which stamps its timestamps), delete and update keyed by a hex id, and
    a list with a fixed plan. */
module Roles {
  import opened Store
  import opened ListQuery

  /** ManagerRoleCollection */
  const ManagerRoleCollection := "sys_manage_role"

  /** RoleModel as written to and read from the store. */
  datatype RoleDoc = RoleDoc(
    id: ObjectId,
    createdAt: string,
    updatedAt: string,
    status: bool,
    merchantId: string,
    name: string,
    accessApi: seq<string>)

  /** The request the role list amounts to in terms of the account list:
      no filter entries, no status filter, sort on "name" with a sort type
      other than rest.AES, and the given range. */
  function FixedListParams(offset: int, limit: int): UrlParams
  {
    UrlParams([], false, false, SortSpec("name", OtherSortType("")), Range(offset, limit))
  }

  class Role {
    var id: ObjectId
    var createdAt: string
    var updatedAt: string
    var status: bool
    var merchantId: string
    var name: string
    var accessApi: seq<string>

    function Doc(): RoleDoc
      reads this
    {
      RoleDoc(id, createdAt, updatedAt, status, merchantId, name, accessApi)
    }

    constructor (d: RoleDoc)
      ensures Doc() == d
    {
      id, createdAt, updatedAt, status := d.id, d.createdAt, d.updatedAt, d.status;
      merchantId, name, accessApi := d.merchantId, d.name, d.accessApi;
    }

    /** SimpleSave: stamps CreatedAt and UpdatedAt (two clock readings),
        then inserts the stamped record; the insert's error is returned. */
    method SimpleSave(clock1: string, clock2: string, inserted: Result<ObjectId>)
      returns (err: Option<Error>, calls: seq<Call<RoleDoc>>)
      modifies this
      ensures Doc() == old(Doc()).(createdAt := clock1, updatedAt := clock2)
      ensures calls == [Call(ManagerRoleCollection, InsertOne(Doc()))]
      ensures err == ErrorOf(inserted)
    {
      createdAt := clock1;
      updatedAt := clock2;
      calls := [Call(ManagerRoleCollection, InsertOne(Doc()))];
      err := if inserted.Err? then Some(inserted.error) else None;
    }

    /** Delete: a malformed id deletes by the nil id; a DeletedCount below
        1 returns the (nil) error of the call, so it is a success. */
    method Delete(parse: HexParser, idHex: string, deleted: Result<int>)
      returns (err: Option<Error>, calls: seq<Call<RoleDoc>>)
      ensures calls == [Call(ManagerRoleCollection, DeleteOne(IdFilter(IdOrNil(parse, idHex))))]
      ensures parse(idHex).None? ==> calls[0].op.filter == [("_id", Oid(NilId))]
      ensures deleted.Err? ==> err == Some(deleted.error)
      ensures deleted.Ok? ==> err == None
    {
      var objId := IdOrNil(parse, idHex);
      calls := [Call(ManagerRoleCollection, DeleteOne(IdFilter(objId)))];
      match deleted {
        case Err(e) => err := Some(e);
        case Ok(deletedCount) =>
          // "delete failed" is only logged: the call's nil error is returned
          err := None;
      }
    }

    /** Update: `$set`s the record as it is on the parsed id (the nil id
        for a malformed one), without touching UpdatedAt. A MatchedCount
        below 1 is the error "no matched record". */
    method Update(parse: HexParser, idHex: string, updated: Result<int>)
      returns (err: Option<Error>, calls: seq<Call<RoleDoc>>)
      ensures calls == [Call(ManagerRoleCollection, UpdateOne(IdFilter(IdOrNil(parse, idHex)), Doc()))]
      ensures calls[0].op.update.updatedAt == updatedAt
      ensures updated.Err? ==> err == Some(updated.error)
      ensures updated.Ok? ==> (err == Some(NoMatchedRecord) <==> updated.value < 1)
      ensures updated.Ok? ==> (err == None <==> updated.value >= 1)
    {
      var objId := IdOrNil(parse, idHex);
      calls := [Call(ManagerRoleCollection, UpdateOne(IdFilter(objId), Doc()))];
      match updated {
        case Err(e) => err := Some(e);
        case Ok(matchedCount) =>
          err := if matchedCount < 1 then Some(NoMatchedRecord) else None;
      }
    }

    /** List: count and find with the single predicate merchant_id, sorted
        by "name" ascending, skipping `offset` and taking `limit`. The
        receiver takes no part in it. */
    static function List(merchantId: string, offset: int, limit: int,
                  counted: Result<int>, found: Result<seq<RoleDoc>>)
      : (r: (ListReply<RoleDoc>, seq<Call<RoleDoc>>))
      ensures forall c :: c in r.1 && (c.op.CountDocuments? || c.op.Find?) ==>
                c.op.filter == [("merchant_id", Str(merchantId))]
      ensures forall c :: c in r.1 && c.op.Find? ==> c.op.options == FindOptions("name", 1, offset, limit)
    {
      var filter := [("merchant_id", Str(merchantId))];
      var count := Call(ManagerRoleCollection, CountDocuments(filter));
      match counted
      case Err(e) => (ListReply(None, 0, Some(e)), [count])
      case Ok(total) =>
        var calls := [count, Call(ManagerRoleCollection, Find(filter, FindOptions("name", 1, offset, limit)))];
        match found
        case Err(e) => (ListReply(None, total, Some(e)), calls)
        case Ok(docs) => (ListReply(Some(docs), total, None), calls)
    }
  }

  /** The role list is the account list routine run with no filter entries
      and no status filter, sorted on "name" with a sort type other than
      rest.AES, whatever the resource name and the id parser: same requests,
      same replies, including the error cases. */
  lemma ListIsFixedPlanList(merchantId: string, offset: int, limit: int, resource: string, parse: HexParser,
                            counted: Result<int>, found: Result<seq<RoleDoc>>)
    ensures Role.List(merchantId, offset, limit, counted, found)
         == ListSpec(ManagerRoleCollection, resource, merchantId, FixedListParams(offset, limit), parse, counted, found)
  {
    var p := FixedListParams(offset, limit);
    assert PlanOf(resource, merchantId, p) == Plain([MerchantPredicate(merchantId)], FindOptions("name", 1, offset, limit));
  }
}
