/** The list routine shared by MangerAccount.go (`List`) and
    crole/method.go (`GetList`): how a list request becomes either a
    reference request (a fetch of the ids named by one filter entry) or a
    plain query (a predicate list, a sort, a skip and a limit), and how the
    routine reacts to the replies of the store.

    The two source files carry the same statements, up to logging and the
    name of the id-fetch helper, so the routine is modelled once here and
    both files call it. */
module ListQuery {
  import opened Store

  /** rest.UrlParams.Sort.SortType: the routine only compares it with
      rest.AES, so every other value is one alternative. */
  datatype SortType = AES | OtherSortType(name: string)

  datatype SortSpec = SortSpec(key: string, sortType: SortType)

  datatype Range = Range(offset: int, limit: int)

  /** rest.UrlParams as the list routine reads it. FilterMap is a Go map
      from field name to a list of strings; its iteration order is
      unspecified, so it is a sequence here in an arbitrary order and the
      lemmas below hold for every order. */
  datatype UrlParams = UrlParams(
    filterMap: seq<(string, seq<string>)>,
    hasFilter: bool,
    status: bool,
    sort: SortSpec,
    range: Range)

  /** What the routine does with a request: fetch the ids of one filter
      entry, or count and find with a predicate list and find options. */
  datatype Plan =
    | Reference(ids: seq<string>)
    | Plain(filters: Filter, options: FindOptions)

  /** A filter key that switches to a reference request: the resource's
      own name, or "id". */
  predicate IsReferenceKey(resource: string, key: string)
  {
    key == resource || key == "id"
  }

  /** The predicate every plain query starts with: the merchant namespace. */
  function MerchantPredicate(merchantId: string): Predicate
  {
    ("merchant_id", Str(merchantId))
  }

  /** The predicate a non-reference filter entry becomes. */
  function EntryPredicate(entry: (string, seq<string>)): Predicate
  {
    (entry.0, Strs(entry.1))
  }

  /** The status predicate, present only when HasFilter is set. */
  function StatusFilter(p: UrlParams): Filter
  {
    if p.hasFilter then [("status", Flag(p.status))] else []
  }

  /** Sort on Sort.Key, at -1 when SortType is rest.AES and at +1
      otherwise; skip Range.Offset, limit Range.Limit. */
  function FindOptionsOf(p: UrlParams): (o: FindOptions)
    ensures o.sortKey == p.sort.key
    ensures o.sortDir == -1 || o.sortDir == 1
    ensures o.sortDir == -1 <==> p.sort.sortType == AES
    ensures o.skip == p.range.offset && o.limit == p.range.limit
  {
    FindOptions(p.sort.key, if p.sort.sortType == AES then -1 else 1, p.range.offset, p.range.limit)
  }

  /** The plan the filter loop reaches from entry i on, with `filters`
      accumulated so far: the filter loop of the list routine, one entry per step. */
  function PlanFrom(resource: string, p: UrlParams, i: nat, filters: Filter): (plan: Plan)
    requires i <= |p.filterMap|
    ensures plan.Plain? ==> |filters| <= |plan.filters| && plan.filters[..|filters|] == filters
    ensures plan.Reference? ==>
      exists k :: i <= k < |p.filterMap| && IsReferenceKey(resource, p.filterMap[k].0) && plan.ids == p.filterMap[k].1
    decreases |p.filterMap| - i
  {
    if i == |p.filterMap| then
      Plain(filters + StatusFilter(p), FindOptionsOf(p))
    else if IsReferenceKey(resource, p.filterMap[i].0) then
      Reference(p.filterMap[i].1)
    else
      var plan := PlanFrom(resource, p, i + 1, filters + [EntryPredicate(p.filterMap[i])]);
      assert plan.Plain? ==> plan.filters[..|filters|] == (filters + [EntryPredicate(p.filterMap[i])])[..|filters|];
      plan
  }

  /** The plan of a list request for merchant `merchantId`. */
  function PlanOf(resource: string, merchantId: string, p: UrlParams): (plan: Plan)
    ensures plan.Plain? ==> |plan.filters| > 0 && plan.filters[0] == MerchantPredicate(merchantId)
    ensures plan.Reference? ==>
      exists k :: 0 <= k < |p.filterMap| && IsReferenceKey(resource, p.filterMap[k].0) && plan.ids == p.filterMap[k].1
  {
    PlanFrom(resource, p, 0, [MerchantPredicate(merchantId)])
  }

  /** The position at which the filter loop meets its first reference key,
      or the number of entries when there is none. */
  function FirstReferenceIndex(resource: string, entries: seq<(string, seq<string>)>): (k: nat)
    ensures k <= |entries|
    ensures k < |entries| ==> IsReferenceKey(resource, entries[k].0)
    ensures forall j :: 0 <= j < k ==> !IsReferenceKey(resource, entries[j].0)
  {
    if entries == [] then 0
    else if IsReferenceKey(resource, entries[0].0) then 0
    else
      var k := 1 + FirstReferenceIndex(resource, entries[1..]);
      assert forall j :: 1 <= j < k ==> entries[j] == entries[1..][j - 1];
      k
  }

  /** Every entry's predicate, in iteration order. */
  function EntryPredicates(entries: seq<(string, seq<string>)>): (r: Filter)
    ensures |r| == |entries|
  {
    seq(|entries|, j requires 0 <= j < |entries| => EntryPredicate(entries[j]))
  }

  lemma {:induction false} PlanFromPlain(resource: string, p: UrlParams, i: nat, filters: Filter)
    requires i <= |p.filterMap|
    requires forall j :: i <= j < |p.filterMap| ==> !IsReferenceKey(resource, p.filterMap[j].0)
    ensures PlanFrom(resource, p, i, filters)
         == Plain(filters + EntryPredicates(p.filterMap[i..]) + StatusFilter(p), FindOptionsOf(p))
    decreases |p.filterMap| - i
  {
    if i == |p.filterMap| {
      assert EntryPredicates(p.filterMap[i..]) == [];
    } else {
      var e := EntryPredicate(p.filterMap[i]);
      PlanFromPlain(resource, p, i + 1, filters + [e]);
      assert EntryPredicates(p.filterMap[i..]) == [e] + EntryPredicates(p.filterMap[i + 1..]);
      assert filters + [e] + EntryPredicates(p.filterMap[i + 1..])
          == filters + EntryPredicates(p.filterMap[i..]);
    }
  }

  lemma {:induction false} PlanFromReference(resource: string, p: UrlParams, i: nat, filters: Filter, k: nat)
    requires i <= k < |p.filterMap| && IsReferenceKey(resource, p.filterMap[k].0)
    requires forall j :: i <= j < k ==> !IsReferenceKey(resource, p.filterMap[j].0)
    ensures PlanFrom(resource, p, i, filters) == Reference(p.filterMap[k].1)
    decreases k - i
  {
    if i < k {
      PlanFromReference(resource, p, i + 1, filters + [EntryPredicate(p.filterMap[i])], k);
    }
  }

  /** The plan in closed form: the ids of the first entry, in iteration
      order, whose key is a reference key; otherwise the merchant predicate,
      every entry in iteration order, the status predicate when HasFilter is
      set, and the find options. */
  lemma PlanOfClosedForm(resource: string, merchantId: string, p: UrlParams)
    ensures var k := FirstReferenceIndex(resource, p.filterMap);
      PlanOf(resource, merchantId, p)
        == if k < |p.filterMap| then Reference(p.filterMap[k].1)
           else Plain([MerchantPredicate(merchantId)] + EntryPredicates(p.filterMap) + StatusFilter(p),
                      FindOptionsOf(p))
  {
    var k := FirstReferenceIndex(resource, p.filterMap);
    if k < |p.filterMap| {
      PlanFromReference(resource, p, 0, [MerchantPredicate(merchantId)], k);
    } else {
      PlanFromPlain(resource, p, 0, [MerchantPredicate(merchantId)]);
      assert p.filterMap[0..] == p.filterMap;
    }
  }

  /** A request is a reference request exactly when some filter key is the
      resource name or "id", whatever the iteration order; its ids are then
      the value of such an entry. */
  lemma PlanIsReferenceIff(resource: string, merchantId: string, p: UrlParams)
    ensures PlanOf(resource, merchantId, p).Reference?
        <==> exists k :: 0 <= k < |p.filterMap| && IsReferenceKey(resource, p.filterMap[k].0)
    ensures PlanOf(resource, merchantId, p).Reference? ==>
      exists k :: 0 <= k < |p.filterMap| && IsReferenceKey(resource, p.filterMap[k].0)
        && PlanOf(resource, merchantId, p).ids == p.filterMap[k].1
  {
    PlanOfClosedForm(resource, merchantId, p);
  }

  /** The shape of a plain query: the merchant predicate first, then one
      predicate per entry, then the status predicate when HasFilter is set,
      which makes 1 + |FilterMap| + (1 if HasFilter) predicates; the sort is
      on Sort.Key at -1 exactly when SortType is rest.AES; skip and limit
      are Range.Offset and Range.Limit. */
  lemma PlainPlanShape(resource: string, merchantId: string, p: UrlParams)
    requires PlanOf(resource, merchantId, p).Plain?
    ensures var f := PlanOf(resource, merchantId, p).filters;
      && |f| == 1 + |p.filterMap| + (if p.hasFilter then 1 else 0)
      && f[0] == ("merchant_id", Str(merchantId))
      && (forall j :: 0 <= j < |p.filterMap| ==> f[1 + j] == (p.filterMap[j].0, Strs(p.filterMap[j].1)))
      && (p.hasFilter <==> f[|f| - 1] == ("status", Flag(p.status)))
    ensures var o := PlanOf(resource, merchantId, p).options;
      && o.sortKey == p.sort.key
      && (o.sortDir == -1 <==> p.sort.sortType == AES)
      && (o.sortDir == 1 <==> p.sort.sortType != AES)
      && o.skip == p.range.offset && o.limit == p.range.limit
  {
    PlanOfClosedForm(resource, merchantId, p);
  }

  /** A reference request ignores the merchant id, HasFilter, the status,
      the sort, the range and every entry after the first reference key:
      changing any of them leaves the plan as it is. */
  lemma ReferenceIgnoresRest(resource: string, m1: string, p: UrlParams, m2: string, q: UrlParams)
    requires FirstReferenceIndex(resource, p.filterMap) < |p.filterMap|
    requires var k := FirstReferenceIndex(resource, p.filterMap);
      k < |q.filterMap| && q.filterMap[..k + 1] == p.filterMap[..k + 1]
    ensures PlanOf(resource, m1, p).Reference?
    ensures PlanOf(resource, m2, q) == PlanOf(resource, m1, p)
  {
    var k := FirstReferenceIndex(resource, p.filterMap);
    assert forall j :: 0 <= j <= k ==> q.filterMap[j] == q.filterMap[..k + 1][j];
    assert forall j :: 0 <= j <= k ==> p.filterMap[j] == p.filterMap[..k + 1][j];
    PlanFromReference(resource, p, 0, [MerchantPredicate(m1)], k);
    PlanFromReference(resource, q, 0, [MerchantPredicate(m2)], k);
  }

  /** The predicates of two runs of entries, one after the other, are the
      predicates of the joined run. */
  lemma EntryPredicatesAppend(a: seq<(string, seq<string>)>, b: seq<(string, seq<string>)>)
    ensures EntryPredicates(a + b) == EntryPredicates(a) + EntryPredicates(b)
  {
  }

  /** Reordering the entries reorders their predicates and nothing else. */
  lemma {:induction false} EntryPredicatesPermute(a: seq<(string, seq<string>)>, b: seq<(string, seq<string>)>)
    requires multiset(a) == multiset(b)
    ensures multiset(EntryPredicates(a)) == multiset(EntryPredicates(b))
    decreases |a|
  {
    if a == [] {
      assert |b| == |multiset(b)| == 0;
    } else {
      var x := a[0];
      assert x in multiset(a);
      var k :| 0 <= k < |b| && b[k] == x;
      var rest := b[..k] + b[k + 1..];
      assert b == b[..k] + [x] + b[k + 1..];
      assert a == [x] + a[1..];
      assert multiset(a) == multiset{x} + multiset(a[1..]);
      assert multiset(b) == multiset(b[..k]) + multiset{x} + multiset(b[k + 1..]);
      assert multiset(rest) == multiset(b[..k]) + multiset(b[k + 1..]);
      calc {
        multiset(a[1..]);
        multiset(a) - multiset{x};
        multiset(b) - multiset{x};
        multiset(rest);
      }
      EntryPredicatesPermute(a[1..], rest);
      EntryPredicatesAppend([x], a[1..]);
      EntryPredicatesAppend(b[..k], b[k + 1..]);
      EntryPredicatesAppend(b[..k] + [x], b[k + 1..]);
      EntryPredicatesAppend(b[..k], [x]);
    }
  }

  /** For a plain query the iteration order of FilterMap does not matter:
      any reordering of the entries yields the same predicates, the
      merchant predicate still first, and the same find options. */
  lemma PlainPlanOrderIndependent(resource: string, merchantId: string, p: UrlParams, q: UrlParams)
    requires q == p.(filterMap := q.filterMap)
    requires multiset(q.filterMap) == multiset(p.filterMap)
    requires PlanOf(resource, merchantId, p).Plain?
    ensures PlanOf(resource, merchantId, q).Plain?
    ensures multiset(PlanOf(resource, merchantId, q).filters) == multiset(PlanOf(resource, merchantId, p).filters)
    ensures |PlanOf(resource, merchantId, q).filters| > 0
    ensures PlanOf(resource, merchantId, q).filters[0] == MerchantPredicate(merchantId)
    ensures PlanOf(resource, merchantId, q).options == PlanOf(resource, merchantId, p).options
  {
    PlanOfClosedForm(resource, merchantId, p);
    PlanOfClosedForm(resource, merchantId, q);
    assert FirstReferenceIndex(resource, p.filterMap) == |p.filterMap|;
    forall j | 0 <= j < |q.filterMap|
      ensures !IsReferenceKey(resource, q.filterMap[j].0)
    {
      assert q.filterMap[j] in multiset(p.filterMap);
      var i :| 0 <= i < |p.filterMap| && p.filterMap[i] == q.filterMap[j];
    }
    EntryPredicatesPermute(q.filterMap, p.filterMap);
  }

  /** `objID, _ := primitive.ObjectIDFromHex(i)` over a batch, in order. */
  function IdsOrNil(parse: HexParser, ids: seq<string>): (objIds: seq<ObjectId>)
    ensures |objIds| == |ids|
  {
    if ids == [] then [] else [IdOrNil(parse, ids[0])] + IdsOrNil(parse, ids[1..])
  }

  /** The id conversion yields exactly one id per input string, in input
      order; a string the parser rejects yields the nil id and is not
      dropped. */
  lemma {:induction false} IdsOrNilAt(parse: HexParser, ids: seq<string>)
    ensures |IdsOrNil(parse, ids)| == |ids|
    ensures forall i :: 0 <= i < |ids| && parse(ids[i]).Some? ==> IdsOrNil(parse, ids)[i] == parse(ids[i]).value
    ensures forall i :: 0 <= i < |ids| && parse(ids[i]).None? ==> IdsOrNil(parse, ids)[i] == NilId
  {
    if ids != [] {
      IdsOrNilAt(parse, ids[1..]);
      assert forall i :: 1 <= i < |ids| ==> ids[i] == ids[1..][i - 1];
    }
  }

  /** Converts a batch of hex strings, as the loop of GetManyInIds and
      GetMany does. */
  method ObjectIdsFromHex(parse: HexParser, ids: seq<string>) returns (objIds: seq<ObjectId>)
    ensures |objIds| == |ids|
    ensures forall i :: 0 <= i < |ids| ==> objIds[i] == IdOrNil(parse, ids[i])
    ensures objIds == IdsOrNil(parse, ids)
  {
    objIds := [];
    for i := 0 to |ids|
      invariant |objIds| == i
      invariant forall j :: 0 <= j < i ==> objIds[j] == IdOrNil(parse, ids[j])
    {
      objIds := objIds + [IdOrNil(parse, ids[i])];
    }
    IdsOrNilAt(parse, ids);
  }

  /** GetManyInIds / GetMany: one `$in` find over the converted ids;
      `found` is the store's reply to it (Find and cursor.All together). */
  method GetManyInIds<D>(collection: string, parse: HexParser, ids: seq<string>, found: Result<seq<D>>)
    returns (got: Result<seq<D>>, calls: seq<Call<D>>)
    ensures got == found
    ensures calls == [Call(collection, FindIn(IdsOrNil(parse, ids)))]
  {
    var objIds := ObjectIdsFromHex(parse, ids);
    calls := [Call(collection, FindIn(objIds))];
    got := found;
  }

  /** What a list call hands back: the page (None for Go's nil slice), the
      total, and the error. */
  datatype ListReply<D> = ListReply(docs: Option<seq<D>>, total: int, err: Option<Error>)

  /** The list routine against a store that answers the count with
      `counted` and the find (plain or by ids) with `found`: the reply and
      the requests sent, in order. */
  function ListSpec<D>(collection: string, resource: string, merchantId: string, p: UrlParams,
                       parse: HexParser, counted: Result<int>, found: Result<seq<D>>)
    : (r: (ListReply<D>, seq<Call<D>>))
    ensures r.0.err.None? <==> r.0.docs.Some?
    ensures 1 <= |r.1| <= 2
    ensures forall c :: c in r.1 ==> c.collection == collection
  {
    match PlanOf(resource, merchantId, p)
    case Reference(ids) =>
      var calls := [Call(collection, FindIn(IdsOrNil(parse, ids)))];
      (match found
       case Err(e) => (ListReply(None, 0, Some(e)), calls)
       case Ok(docs) => (ListReply(Some(docs), |docs|, None), calls))
    case Plain(filters, options) =>
      var count := Call(collection, CountDocuments(filters));
      (match counted
       case Err(e) => (ListReply(None, 0, Some(e)), [count])
       case Ok(total) =>
         var calls := [count, Call(collection, Find(filters, options))];
         (match found
          case Err(e) => (ListReply(None, total, Some(e)), calls)
          case Ok(docs) => (ListReply(Some(docs), total, None), calls)))
  }

  /** The list routine of MangerAccount.go and crole/method.go. */
  method RunList<D>(collection: string, resource: string, merchantId: string, p: UrlParams,
                    parse: HexParser, counted: Result<int>, found: Result<seq<D>>)
    returns (r: ListReply<D>, calls: seq<Call<D>>)
    ensures (r, calls) == ListSpec(collection, resource, merchantId, p, parse, counted, found)
  {
    var filters := [MerchantPredicate(merchantId)];
    var i := 0;
    while i < |p.filterMap|
      invariant i <= |p.filterMap|
      invariant PlanFrom(resource, p, i, filters) == PlanOf(resource, merchantId, p)
    {
      var (key, val) := p.filterMap[i];
      if IsReferenceKey(resource, key) {
        assert PlanOf(resource, merchantId, p) == Reference(val);
        var got;
        got, calls := GetManyInIds(collection, parse, val, found);
        match got {
          case Err(e) => r := ListReply(None, 0, Some(e));
          case Ok(docs) => r := ListReply(Some(docs), |docs|, None);
        }
        return;
      }
      filters := filters + [(key, Strs(val))];
      i := i + 1;
    }
    assert PlanOf(resource, merchantId, p) == Plain(filters + StatusFilter(p), FindOptionsOf(p));
    if p.hasFilter {
      filters := filters + [("status", Flag(p.status))];
    }
    assert PlanOf(resource, merchantId, p) == Plain(filters, FindOptionsOf(p));
    var count := Call(collection, CountDocuments(filters));
    if counted.Err? {
      r, calls := ListReply(None, 0, Some(counted.error)), [count];
      return;
    }
    var total := counted.value;
    var sortDir := if p.sort.sortType == AES then -1 else 1;
    var options := FindOptions(p.sort.key, sortDir, p.range.offset, p.range.limit);
    calls := [count, Call(collection, Find(filters, options))];
    if found.Err? {
      r := ListReply(None, total, Some(found.error));
    } else {
      r := ListReply(Some(found.value), total, None);
    }
  }

  /** The count and the find of a list call use one and the same predicate
      list, and it starts with the merchant predicate; every request goes to
      the routine's collection. */
  lemma ListQueriesShareScopedFilter<D>(collection: string, resource: string, merchantId: string, p: UrlParams,
                                        parse: HexParser, counted: Result<int>, found: Result<seq<D>>)
    ensures var calls := ListSpec(collection, resource, merchantId, p, parse, counted, found).1;
      && (forall c :: c in calls ==> c.collection == collection)
      && (forall c :: c in calls && (c.op.CountDocuments? || c.op.Find?) ==>
            |c.op.filter| > 0 && c.op.filter[0] == MerchantPredicate(merchantId))
      && (forall c, d :: c in calls && d in calls && c.op.CountDocuments? && d.op.Find? ==>
            c.op.filter == d.op.filter)
  {
  }

  /** The replies of a list call, case by case: a count error gives
      (nil, 0, err) and no find is sent; a find or cursor error gives
      (nil, total, err); success gives the page and the total counted with
      the same predicates. A reference request sends one `$in` find over
      the ids of the first reference entry, converted one for one, and
      reports the length of its result as the total. */
  lemma ListReplies<D>(collection: string, resource: string, merchantId: string, p: UrlParams,
                       parse: HexParser, counted: Result<int>, found: Result<seq<D>>)
    ensures var (r, calls) := ListSpec(collection, resource, merchantId, p, parse, counted, found);
      && (r.err.None? <==> r.docs.Some?)
      && (r.err.None? ==> found.Ok? && r.docs == Some(found.value))
      && (r.err.Some? ==> r.docs.None? && (r.err == ErrorOf(counted) || r.err == ErrorOf(found)))
    ensures var (r, calls) := ListSpec(collection, resource, merchantId, p, parse, counted, found);
      var k := FirstReferenceIndex(resource, p.filterMap);
      k < |p.filterMap| ==>
        && |calls| == 1 && calls[0].op.FindIn?
        && |calls[0].op.ids| == |p.filterMap[k].1|
        && (forall i :: 0 <= i < |calls[0].op.ids| ==> calls[0].op.ids[i] == IdOrNil(parse, p.filterMap[k].1[i]))
        && r.err == ErrorOf(found)
        && r.total == (if found.Ok? then |found.value| else 0)
    ensures var (r, calls) := ListSpec(collection, resource, merchantId, p, parse, counted, found);
      var k := FirstReferenceIndex(resource, p.filterMap);
      k == |p.filterMap| ==>
        && (counted.Err? ==> r == ListReply(None, 0, Some(counted.error)) && |calls| == 1
                             && calls[0].op.CountDocuments?)
        && (counted.Ok? ==> |calls| == 2 && calls[0].op.CountDocuments? && calls[1].op.Find?
                            && r.total == counted.value && r.err == ErrorOf(found))
  {
    PlanOfClosedForm(resource, merchantId, p);
    var k := FirstReferenceIndex(resource, p.filterMap);
    if k < |p.filterMap| {
      IdsOrNilAt(parse, p.filterMap[k].1);
    }
  }

  /** The reference request is not scoped to the merchant: two merchants
      that send the same filter entries get the same requests and the same
      reply. */
  lemma ReferenceListUnscoped<D>(collection: string, resource: string, m1: string, m2: string, p: UrlParams,
                                 parse: HexParser, counted: Result<int>, found: Result<seq<D>>)
    requires FirstReferenceIndex(resource, p.filterMap) < |p.filterMap|
    ensures ListSpec(collection, resource, m1, p, parse, counted, found)
         == ListSpec(collection, resource, m2, p, parse, counted, found)
  {
    ReferenceIgnoresRest(resource, m1, p, m2, p);
  }
}
