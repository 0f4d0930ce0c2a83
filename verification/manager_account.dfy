/** The manager account collection (MangerAccount.go): an account record
    whose save and update operations stamp its own timestamps before
    writing it, a delete and an update keyed by a hex id, the id batch
    fetch, and the list routine. */
module ManagerAccount {
  import opened Store
  import opened ListQuery

  /** ManagerAccountCollection */
  const ManagerAccountCollection := "sys_manage_account"

  /** ManagerAccountModel as written to and read from the store. */
  datatype AccountDoc = AccountDoc(
    id: ObjectId,
    createdAt: string,
    updatedAt: string,
    isRequiredApprove: bool,
    status: bool,
    merchantId: string,
    isAdmin: bool,
    phone: string,
    password: string,
    name: string,
    accountId: string,
    email: string,
    roles: seq<string>)

  /** The receiver of the account methods. Timestamps are the formatted
      clock readings, passed in as strings. */
  class Account {
    var id: ObjectId
    var createdAt: string
    var updatedAt: string
    var isRequiredApprove: bool
    var status: bool
    var merchantId: string
    var isAdmin: bool
    var phone: string
    var password: string
    var name: string
    var accountId: string
    var email: string
    var roles: seq<string>

    /** The document the receiver is written as. */
    function Doc(): AccountDoc
      reads this
    {
      AccountDoc(id, createdAt, updatedAt, isRequiredApprove, status, merchantId,
                 isAdmin, phone, password, name, accountId, email, roles)
    }

    constructor (d: AccountDoc)
      ensures Doc() == d
    {
      id, createdAt, updatedAt := d.id, d.createdAt, d.updatedAt;
      isRequiredApprove, status, merchantId := d.isRequiredApprove, d.status, d.merchantId;
      isAdmin, phone, password, name := d.isAdmin, d.phone, d.password, d.name;
      accountId, email, roles := d.accountId, d.email, d.roles;
    }

    /** The key that turns a list request into a reference request. */
    function ResourceName(): string
    {
      "account"
    }

    /** SimpleSave: stamps CreatedAt and UpdatedAt (two clock readings),
        then inserts the stamped record; the insert's error is returned. */
    method SimpleSave(clock1: string, clock2: string, inserted: Result<ObjectId>)
      returns (err: Option<Error>, calls: seq<Call<AccountDoc>>)
      modifies this
      ensures Doc() == old(Doc()).(createdAt := clock1, updatedAt := clock2)
      ensures calls == [Call(ManagerAccountCollection, InsertOne(Doc()))]
      ensures err == ErrorOf(inserted)
    {
      createdAt := clock1;
      updatedAt := clock2;
      calls := [Call(ManagerAccountCollection, InsertOne(Doc()))];
      err := if inserted.Err? then Some(inserted.error) else None;
    }

    /** UpdateById: stamps UpdatedAt, then `$set`s the record on its own
        id. Only the store's error is examined: an update that matched
        nothing is a success. */
    method UpdateById(clock: string, updated: Result<int>)
      returns (err: Option<Error>, calls: seq<Call<AccountDoc>>)
      modifies this
      ensures Doc() == old(Doc()).(updatedAt := clock)
      ensures calls == [Call(ManagerAccountCollection, UpdateOne(IdFilter(id), Doc()))]
      ensures err == ErrorOf(updated)
    {
      updatedAt := clock;
      calls := [Call(ManagerAccountCollection, UpdateOne(IdFilter(id), Doc()))];
      err := if updated.Err? then Some(updated.error) else None;
    }

    /** Delete: the id is parsed with its error dropped, so a malformed id
        deletes by the nil id. `deleted` is the store's DeletedCount or
        error. A DeletedCount below 1 returns the (nil) error of the call,
        so it is a success. */
    method Delete(parse: HexParser, idHex: string, deleted: Result<int>)
      returns (err: Option<Error>, calls: seq<Call<AccountDoc>>)
      ensures calls == [Call(ManagerAccountCollection, DeleteOne(IdFilter(IdOrNil(parse, idHex))))]
      ensures parse(idHex).None? ==> calls[0].op.filter == [("_id", Oid(NilId))]
      ensures deleted.Err? ==> err == Some(deleted.error)
      ensures deleted.Ok? ==> err == None
    {
      var objId := IdOrNil(parse, idHex);
      calls := [Call(ManagerAccountCollection, DeleteOne(IdFilter(objId)))];
      match deleted {
        case Err(e) => err := Some(e);
        case Ok(deletedCount) =>
          // "delete failed" is only logged: the call's nil error is returned
          err := None;
      }
    }

    /** Update: stamps UpdatedAt, then `$set`s the record on the parsed id
        (the nil id for a malformed one). `updated` is the store's
        MatchedCount or error; a MatchedCount below 1 is the error
        "no matched record". */
    method Update(parse: HexParser, idHex: string, clock: string, updated: Result<int>)
      returns (err: Option<Error>, calls: seq<Call<AccountDoc>>)
      modifies this
      ensures Doc() == old(Doc()).(updatedAt := clock)
      ensures calls == [Call(ManagerAccountCollection, UpdateOne(IdFilter(IdOrNil(parse, idHex)), Doc()))]
      ensures updated.Err? ==> err == Some(updated.error)
      ensures updated.Ok? ==> (err == Some(NoMatchedRecord) <==> updated.value < 1)
      ensures updated.Ok? ==> (err == None <==> updated.value >= 1)
    {
      var objId := IdOrNil(parse, idHex);
      updatedAt := clock;
      calls := [Call(ManagerAccountCollection, UpdateOne(IdFilter(objId), Doc()))];
      match updated {
        case Err(e) => err := Some(e);
        case Ok(matchedCount) =>
          err := if matchedCount < 1 then Some(NoMatchedRecord) else None;
      }
    }

    /** GetManyInIds: one id per string, in order, the nil id for a
        malformed string; one `$in` find over them. */
    method GetManyInIds(parse: HexParser, ids: seq<string>, found: Result<seq<AccountDoc>>)
      returns (got: Result<seq<AccountDoc>>, calls: seq<Call<AccountDoc>>)
      ensures got == found
      ensures |calls| == 1 && calls[0].collection == ManagerAccountCollection && calls[0].op.FindIn?
      ensures |calls[0].op.ids| == |ids|
      ensures forall i :: 0 <= i < |ids| ==> calls[0].op.ids[i] == IdOrNil(parse, ids[i])
    {
      got, calls := ListQuery.GetManyInIds(ManagerAccountCollection, parse, ids, found);
      IdsOrNilAt(parse, ids);
    }

    /** The resource name makes an account list a reference request (a
        single `$in` find) exactly when some filter key is "account" or
        "id"; otherwise the list starts with its count. */
    lemma ListIsReferenceIff(merchantId: string, p: UrlParams, parse: HexParser,
                             counted: Result<int>, found: Result<seq<AccountDoc>>)
      ensures var (_, calls) := ListSpec(ManagerAccountCollection, ResourceName(), merchantId, p, parse, counted, found);
        (calls[0].op.FindIn? <==>
           exists k :: 0 <= k < |p.filterMap| && (p.filterMap[k].0 == "account" || p.filterMap[k].0 == "id"))
        && (calls[0].op.FindIn? || calls[0].op.CountDocuments?)
    {
      PlanIsReferenceIff(ResourceName(), merchantId, p);
    }

    /** List: the list routine with "account" as the resource name. */
    method List(merchantId: string, p: UrlParams, parse: HexParser,
                 counted: Result<int>, found: Result<seq<AccountDoc>>)
      returns (r: ListReply<AccountDoc>, calls: seq<Call<AccountDoc>>)
      ensures (r, calls) == ListSpec(ManagerAccountCollection, "account", merchantId, p, parse, counted, found)
    {
      r, calls := RunList(ManagerAccountCollection, ResourceName(), merchantId, p, parse, counted, found);
    }
  }
}
