/** The API object `GCD` (gcdatastore.js, lines 99-188): the selected
    collection, and the parts of `get`, `getOne`, `save` and `delete` that run
    before and after the datastore call. Each operation returns the call it
    hands to the datastore client (a query, a save or a key to delete) or the
    error it throws first; the client's reply comes back through a completion. */
module Gcd {
  import opened Js
  import opened Store
  import opened Compiler
  import opened Decoder

  /** A record object a caller passes to `save`, which deletes its `_id` in place. */
  class Record {
    var props: Props

    constructor (props: Props)
      ensures this.props == props
    {
      this.props := props;
    }
  }

  /** The `dataset.save` call: the entity's key and the data object. */
  datatype SaveCall = SaveCall(key: Key, data: Props)

  /** What the datastore client passes to the `runQuery` callback. */
  datatype Reply = Rows(entities: seq<Entity>) | Failed(error: StoreError)

  /** How the callback ends: `resolve`, `reject`, or a throw from inside the
      callback, which runs after the promise executor has returned and so does
      not reject the promise. */
  datatype Completion<+T> = Resolved(value: T) | Rejected(reason: StoreError) | Thrown(error: Error)

  /** `dataset.key([c, id.toString()])`. */
  function IdKey(coll: Value, id: Value): Key {
    Key([coll, Str(StringOf(id))])
  }

  /** The key `save` builds: `[c, String(_id)]` when `_id` is truthy, `[c]` otherwise. */
  function SaveKey(coll: Value, props: Props): Key {
    var id := Lookup(props, "_id");
    if Truthy(id) then IdKey(coll, id) else Key([coll])
  }

  /** The data `save` stores: the record without `_id` when `_id` was truthy. */
  function SavedData(props: Props): Props {
    if Truthy(Lookup(props, "_id")) then RemoveProp(props, "_id") else props
  }

  /** The `limit` and `offset` calls `get` adds for `params` (lines 122-124). */
  function PagingOps(params: Value): seq<QueryOp> {
    if !Truthy(params) then []
    else
      var limit := GetProp(params, "limit");
      var skip := GetProp(params, "skip");
      (if Truthy(limit) then [Limit(ParseInt(limit))] else []) +
      (if Truthy(skip) then [Offset(ParseInt(skip))] else [])
  }

  /** The query `get` runs, as the code is wired: `select(undefined)`, then the
      filter's clauses, then limit and offset. It does not depend on the
      projection, and no sort call reaches the query. */
  function GetQuery(coll: Value, query: Value, params: Value): Result<Query> {
    if !Truthy(coll) then Err(CollectionRequired)
    else
      match CompileQuery(Query(coll, [Select(None)]), coll, query)
      case Err(e) => Err(e)
      case Ok(q) => Ok(Query(q.kind, q.ops + PagingOps(params)))
  }

  /** The key `delete` builds: the id goes in as it is, without `toString`. */
  function DeleteKey(coll: Value, id: Value): Key {
    Key([coll, id])
  }

  /** Lines 122-124: the limit and offset calls, on a truthy limit and skip of
      a truthy `params`. */
  method AddPaging(q: Query, params: Value) returns (r: Query)
    ensures r == Query(q.kind, q.ops + PagingOps(params))
  {
    r := q;
    if Truthy(params) {
      var limit := GetProp(params, "limit");
      if Truthy(limit) {
        r := Push(r, Limit(ParseInt(limit)));
      }
      var skip := GetProp(params, "skip");
      if Truthy(skip) {
        r := Push(r, Offset(ParseInt(skip)));
      }
      assert r.ops == q.ops + PagingOps(params);
    } else {
      assert r.ops == q.ops + PagingOps(params);
    }
  }

  class GCD {
    /** `this._c`, the selected collection: undefined until `collection` runs. */
    var coll: Value

    /** `new GCD(namespace)`: the dataset it opens is the client's business. */
    constructor ()
      ensures coll == Undefined
    {
      coll := Undefined;
    }

    /** `collection(coll)` (lines 107-110): select the collection, return this. */
    method Collection(c: Value) returns (self: GCD)
      modifies this
      ensures coll == c && self == this
    {
      coll := c;
      self := this;
    }

    /** `get(query, filter, params)` up to `runQuery` (lines 112-127): the
        query it runs, or what it throws first. */
    method Get(query: Value, filter: Value, params: Value) returns (r: Result<Query>)
      ensures r == GetQuery(coll, query, params)
    {
      if !Truthy(coll) {
        return Err(CollectionRequired);
      }
      var selectArr := GenFilter(filter);
      var q := Query(coll, [Select(selectArr)]);
      var compiled := GenQuery(q, coll, query);
      if compiled.Err? {
        return compiled;
      }
      q := AddPaging(compiled.value, params);
      // Line 125 calls genSort(params.sort): the sort object lands in the
      // builder parameter and the sort parameter is undefined, so the for-in
      // loop makes no iteration, and genSort returns nothing. `q` is unchanged.
      return Ok(q);
    }

    /** `get` with the two fixes of `IntendedGetQuery`: the projection's truthy
        keys are selected, and `q = genSort(q, params.sort)` keeps the order
        calls. */
    method IntendedGet(query: Value, filter: Value, params: Value) returns (r: Result<Query>)
      ensures r == IntendedGetQuery(coll, query, filter, params)
    {
      if !Truthy(coll) {
        return Err(CollectionRequired);
      }
      var selectArr := TruthyKeys(filter);
      var compiled := GenQuery(Query(coll, [Select(Some(selectArr))]), coll, query);
      if compiled.Err? {
        return compiled;
      }
      var q := AddPaging(compiled.value, params);
      q := AddSorting(q, params);
      return Ok(q);
    }

    /** `getOne(id, filter)` up to `runQuery` (lines 136-146): a guard on the
        collection, then on the id; the query looks up exactly the key `save`
        gives a record whose `_id` is `id`, selects undefined, and asks for
        one entity. */
    method GetOne(id: Value, filter: Value) returns (r: Result<Query>)
      ensures !Truthy(coll) ==> r == Err(CollectionRequired)
      ensures Truthy(coll) && !Truthy(id) ==> r == Err(IdRequired)
      ensures Truthy(coll) && Truthy(id) ==>
        r == Ok(Query(coll, [Filter("__key__ =", KeyValue(SaveKey(coll, [("_id", id)]))), Select(None), Limit(Some(1))]))
    {
      if !Truthy(coll) {
        return Err(CollectionRequired);
      }
      if !Truthy(id) {
        return Err(IdRequired);
      }
      var selectArr := GenFilter(filter);
      assert Lookup([("_id", id)], "_id") == id;
      assert SaveKey(coll, [("_id", id)]) == Key([coll, Str(ToString(id).value)]);
      var q := Query(coll, []);
      q := Push(q, Filter("__key__ =", KeyValue(Key([coll, Str(ToString(id).value)]))));
      q := Push(q, Select(selectArr));
      q := Push(q, Limit(Some(1)));
      assert q.ops == [q.ops[0], q.ops[1], q.ops[2]];
      return Ok(q);
    }

    /** `getOne` with genFilter returning its array: the same key lookup,
        selecting the projection's truthy keys. */
    method IntendedGetOne(id: Value, filter: Value) returns (r: Result<Query>)
      ensures !Truthy(coll) ==> r == Err(CollectionRequired)
      ensures Truthy(coll) && !Truthy(id) ==> r == Err(IdRequired)
      ensures Truthy(coll) && Truthy(id) ==>
        r == Ok(Query(coll, [Filter("__key__ =", KeyValue(SaveKey(coll, [("_id", id)]))),
          Select(Some(TruthyKeysOf(Enumerate(filter)))), Limit(Some(1))]))
    {
      if !Truthy(coll) {
        return Err(CollectionRequired);
      }
      if !Truthy(id) {
        return Err(IdRequired);
      }
      var selectArr := TruthyKeys(filter);
      assert Lookup([("_id", id)], "_id") == id;
      assert SaveKey(coll, [("_id", id)]) == Key([coll, Str(ToString(id).value)]);
      var q := Query(coll, []);
      q := Push(q, Filter("__key__ =", KeyValue(Key([coll, Str(ToString(id).value)]))));
      q := Push(q, Select(Some(selectArr)));
      q := Push(q, Limit(Some(1)));
      assert q.ops == [q.ops[0], q.ops[1], q.ops[2]];
      return Ok(q);
    }

    /** `save(data)` up to `dataset.save` (lines 155-168): guards on the
        collection and the data, then the key derived from `_id`; a truthy
        `_id` is deleted from the caller's object, which is what is stored. */
    method Save(data: Record?) returns (r: Result<SaveCall>)
      modifies data
      ensures !Truthy(coll) ==> r == Err(CollectionRequired)
      ensures Truthy(coll) && data == null ==> r == Err(DataRequired)
      ensures Truthy(coll) && data != null ==>
        r == Ok(SaveCall(SaveKey(coll, old(data.props)), data.props)) &&
        data.props == SavedData(old(data.props))
      ensures !Truthy(coll) && data != null ==> data.props == old(data.props)
    {
      if !Truthy(coll) {
        return Err(CollectionRequired);
      }
      if data == null {
        return Err(DataRequired);
      }
      var keyArr := [coll];
      var id := Lookup(data.props, "_id");
      if Truthy(id) {
        keyArr := keyArr + [Str(ToString(id).value)];
        data.props := RemoveProp(data.props, "_id");
        assert keyArr == [coll, Str(StringOf(id))];
      }
      return Ok(SaveCall(Key(keyArr), data.props));
    }

    /** `delete(id)` up to `dataset.delete` (lines 177-182): guards on the
        collection and the id, then the key `[c, id]`. */
    method Delete(id: Value) returns (r: Result<Key>)
      ensures !Truthy(coll) ==> r == Err(CollectionRequired)
      ensures Truthy(coll) && !Truthy(id) ==> r == Err(IdRequired)
      ensures Truthy(coll) && Truthy(id) ==> r == Ok(DeleteKey(coll, id)) && r.value.path[1] == id
    {
      if !Truthy(coll) {
        return Err(CollectionRequired);
      }
      if !Truthy(id) {
        return Err(IdRequired);
      }
      return Ok(Key([coll, id]));
    }
  }

  /** The `runQuery` callback of `get` (lines 128-132): a store error rejects;
      rows are decoded all or nothing, and a row without an id throws. */
  function GetCompletion(reply: Reply): (c: Completion<seq<Props>>)
    ensures reply.Failed? ==> c == Rejected(reply.error)
    ensures reply.Rows? ==> (c.Resolved? <==> AllHaveIds(reply.entities))
    ensures reply.Rows? && !c.Resolved? ==> c == Thrown(PathHasNoId)
    ensures c.Resolved? ==> |c.value| == |reply.entities|
    ensures c.Resolved? ==> forall i :: 0 <= i < |c.value| ==> DecodedFrom(c.value[i], reply.entities[i])
  {
    match reply
    case Failed(e) => Rejected(e)
    case Rows(entities) =>
      match ParseRes(entities)
      case Ok(records) => Resolved(records)
      case Err(e) => Thrown(e)
  }

  /** The `runQuery` callback of `getOne` (lines 146-151): `res && res[0]`,
      the first decoded record, or undefined (None) when there is none. */
  function GetOneCompletion(reply: Reply): (c: Completion<Option<Props>>)
    ensures reply.Failed? ==> c == Rejected(reply.error)
    ensures reply.Rows? ==> (c.Resolved? <==> AllHaveIds(reply.entities))
    ensures reply.Rows? && !c.Resolved? ==> c == Thrown(PathHasNoId)
    ensures c.Resolved? ==> (c.value.None? <==> reply.entities == [])
    ensures c.Resolved? && c.value.Some? ==> DecodedFrom(c.value.value, reply.entities[0])
  {
    match reply
    case Failed(e) => Rejected(e)
    case Rows(entities) =>
      match ParseRes(entities)
      case Ok(records) => Resolved(if records == [] then None else Some(records[0]))
      case Err(e) => Thrown(e)
  }

  /** The clauses genQuery emits are all filters. */
  lemma {:induction false} ClausesAreFilters(coll: Value, fields: Props)
    requires AllValid(fields)
    ensures forall i :: 0 <= i < |Clauses(coll, fields)| ==> Clauses(coll, fields)[i].Filter?
    decreases |fields|
  {
    if fields != [] {
      var (k, v) := fields[0];
      if IsObjectType(v) {
        OperatorClausesMeaning(k, Enumerate(v));
      }
      ClausesAreFilters(coll, fields[1..]);
    }
  }

  /** What `get` runs: with a collection selected it fails exactly when the
      filter has an invalid field, throwing that field's error; otherwise it
      runs `select(undefined)`, the filter's clauses in field order, then
      limit and offset. */
  lemma GetQueryMeaning(coll: Value, query: Value, params: Value)
    ensures !Truthy(coll) ==> GetQuery(coll, query, params) == Err(CollectionRequired)
    ensures Truthy(coll) ==> (GetQuery(coll, query, params).Ok? <==> AllValid(Enumerate(query)))
    ensures Truthy(coll) && AllValid(Enumerate(query)) ==>
      GetQuery(coll, query, params) ==
        Ok(Query(coll, [Select(None)] + Clauses(coll, Enumerate(query)) + PagingOps(params)))
    ensures Truthy(coll) && !AllValid(Enumerate(query)) ==>
      GetQuery(coll, query, params).error in {InvalidQueryProperty, TypeError}
  {
    CompileFieldsMeaning(Query(coll, [Select(None)]), coll, Enumerate(query));
  }

  /** As wired, `get` ignores the projection and the sort: its only select
      call is `select(undefined)`, first, and it makes no order call. */
  lemma GetIgnoresProjectionAndSort(coll: Value, query: Value, params: Value)
    requires GetQuery(coll, query, params).Ok?
    ensures |GetQuery(coll, query, params).value.ops| > 0
    ensures GetQuery(coll, query, params).value.ops[0] == Select(None)
    ensures forall i :: 0 < i < |GetQuery(coll, query, params).value.ops| ==>
      !GetQuery(coll, query, params).value.ops[i].Select?
    ensures forall op :: op in GetQuery(coll, query, params).value.ops ==> !op.Order?
  {
    GetQueryMeaning(coll, query, params);
    PagingOpsMeaning(params);
    var fields := Enumerate(query);
    ClausesAreFilters(coll, fields);
    OnlyFirstSelects(Clauses(coll, fields), PagingOps(params));
  }

  /** A select followed by filters and paging calls selects only first and
      never orders. */
  lemma OnlyFirstSelects(clauses: seq<QueryOp>, paging: seq<QueryOp>)
    requires forall i :: 0 <= i < |clauses| ==> clauses[i].Filter?
    requires forall op :: op in paging ==> op.Limit? || op.Offset?
    ensures var ops := [Select(None)] + clauses + paging;
      ops[0] == Select(None) &&
      (forall i :: 0 < i < |ops| ==> !ops[i].Select?) &&
      forall op :: op in ops ==> !op.Order?
  {
    var ops := [Select(None)] + clauses + paging;
    forall i | 0 < i < |ops| ensures !ops[i].Select? && !ops[i].Order? {
      if i <= |clauses| {
        assert ops[i] == clauses[i - 1];
      } else {
        assert ops[i] == paging[i - 1 - |clauses|];
        assert paging[i - 1 - |clauses|] in paging;
      }
    }
  }

  /** The paging calls are a limit and an offset only: a limit exactly when
      `params` and its `limit` are truthy, an offset exactly when `params` and
      its `skip` are, and a non-zero numeric limit or skip arrives unchanged. */
  lemma PagingOpsMeaning(params: Value)
    ensures forall op :: op in PagingOps(params) ==> op.Limit? || op.Offset?
    ensures (exists op :: op in PagingOps(params) && op.Limit?) <==> Truthy(params) && Truthy(GetProp(params, "limit"))
    ensures (exists op :: op in PagingOps(params) && op.Offset?) <==> Truthy(params) && Truthy(GetProp(params, "skip"))
    ensures forall n :: Truthy(params) && GetProp(params, "limit") == Num(n) && n != 0 && -NumeralLimit < n < NumeralLimit ==>
      Limit(Some(n)) in PagingOps(params)
    ensures forall n :: Truthy(params) && GetProp(params, "skip") == Num(n) && n != 0 && -NumeralLimit < n < NumeralLimit ==>
      Offset(Some(n)) in PagingOps(params)
  {
    var paging := PagingOps(params);
    if Truthy(params) && Truthy(GetProp(params, "limit")) {
      assert paging[0] in paging && paging[0].Limit?;
    }
    if Truthy(params) && Truthy(GetProp(params, "skip")) {
      assert paging[|paging| - 1] in paging && paging[|paging| - 1].Offset?;
    }
    forall n | Truthy(params) && GetProp(params, "limit") == Num(n) && n != 0 && -NumeralLimit < n < NumeralLimit
      ensures Limit(Some(n)) in paging
    {
      ParseIntOfNumber(n);
      assert paging[0] == Limit(Some(n));
    }
    forall n | Truthy(params) && GetProp(params, "skip") == Num(n) && n != 0 && -NumeralLimit < n < NumeralLimit
      ensures Offset(Some(n)) in paging
    {
      ParseIntOfNumber(n);
      assert paging[|paging| - 1] == Offset(Some(n));
    }
  }

  /** `get` passes the limit and skip on only when `params` and the parameter
      are truthy, and a numeric limit or skip arrives unchanged. */
  lemma GetAppliesPaging(coll: Value, query: Value, params: Value)
    requires GetQuery(coll, query, params).Ok?
    ensures var ops := GetQuery(coll, query, params).value.ops;
      forall op :: op in ops && op.Limit? ==> Truthy(params) && Truthy(GetProp(params, "limit"))
    ensures var ops := GetQuery(coll, query, params).value.ops;
      forall op :: op in ops && op.Offset? ==> Truthy(params) && Truthy(GetProp(params, "skip"))
    ensures forall n :: Truthy(params) && GetProp(params, "limit") == Num(n) && n != 0 && -NumeralLimit < n < NumeralLimit ==>
      Limit(Some(n)) in GetQuery(coll, query, params).value.ops
    ensures forall n :: Truthy(params) && GetProp(params, "skip") == Num(n) && n != 0 && -NumeralLimit < n < NumeralLimit ==>
      Offset(Some(n)) in GetQuery(coll, query, params).value.ops
  {
    GetQueryMeaning(coll, query, params);
    PagingOpsMeaning(params);
    var fields := Enumerate(query);
    ClausesAreFilters(coll, fields);
    PagingComesLast(Clauses(coll, fields), PagingOps(params));
  }

  /** Behind a select and filters, the limit and offset calls are exactly
      those of the paging part. */
  lemma PagingComesLast(clauses: seq<QueryOp>, paging: seq<QueryOp>)
    requires forall i :: 0 <= i < |clauses| ==> clauses[i].Filter?
    ensures forall op :: op in [Select(None)] + clauses + paging && (op.Limit? || op.Offset?) ==> op in paging
  {
    forall op | op in [Select(None)] + clauses + paging && (op.Limit? || op.Offset?)
      ensures op in paging
    {
      assert op !in clauses;
    }
  }

  /** A record saved with a truthy `_id` is stored under `[c, String(_id)]`
      without `_id` in its data; one without is stored under `[c]` with its
      data untouched. No other property changes in either case. */
  lemma SaveDerivesKey(coll: Value, props: Props)
    ensures var id := Lookup(props, "_id");
      Truthy(id) ==> (SaveKey(coll, props).path == [coll, Str(StringOf(id))] &&
        "_id" !in Keys(SavedData(props)) && Lookup(SavedData(props), "_id") == Undefined)
    ensures !Truthy(Lookup(props, "_id")) ==> SaveKey(coll, props).path == [coll] && SavedData(props) == props
    ensures forall k :: k != "_id" ==> Lookup(SavedData(props), k) == Lookup(props, k)
  {
  }

  /** Decoding what `save` stored under a string id gives the record back:
      every property, `_id` included, has its original value. */
  lemma {:induction false} SaveThenDecodeRoundTrip(coll: Value, props: Props)
    requires Lookup(props, "_id").Str? && Truthy(Lookup(props, "_id"))
    ensures var decoded := ParseRes([Entity(SaveKey(coll, props), SavedData(props))]);
      decoded.Ok? && |decoded.value| == 1 &&
      forall k :: Lookup(decoded.value[0], k) == Lookup(props, k)
  {
    var e := Entity(SaveKey(coll, props), SavedData(props));
    assert PathAt(e.key, 1) == Lookup(props, "_id");
    assert AllHaveIds([e]);
    var decoded := ParseRes([e]);
    forall k ensures Lookup(decoded.value[0], k) == Lookup(props, k) {
      assert DecodedFrom(decoded.value[0], [e][0]);
    }
  }

  /** A record saved without `_id` and read back under the key the store
      allocates, `[c, id]`, has its own properties and `_id == id`. */
  lemma {:induction false} SaveWithoutIdThenDecode(coll: Value, props: Props, newId: Value)
    requires !Truthy(Lookup(props, "_id")) && Truthy(newId)
    ensures SaveKey(coll, props) == Key([coll])
    ensures var decoded := ParseRes([Entity(Key(SaveKey(coll, props).path + [newId]), SavedData(props))]);
      decoded.Ok? && |decoded.value| == 1 &&
      Lookup(decoded.value[0], "_id") == newId &&
      forall k :: k != "_id" ==> Lookup(decoded.value[0], k) == Lookup(props, k)
  {
    var e := Entity(Key([coll, newId]), props);
    assert [coll] + [newId] == [coll, newId];
    assert PathAt(e.key, 1) == newId;
    assert AllHaveIds([e]);
    assert DecodedFrom(ParseRes([e]).value[0], [e][0]);
  }

  /** A record saved without `_id` is stored under `[c]` completed with the
      id the store assigns. `getOne(newId)` looks up `[c, newId.toString()]`,
      which is that key exactly when the assigned id is a string. */
  lemma GetOneAfterSaveWithoutId(coll: Value, props: Props, newId: Value)
    requires !Truthy(Lookup(props, "_id")) && Truthy(newId)
    ensures Key(SaveKey(coll, props).path + [newId]) == SaveKey(coll, [("_id", newId)]) <==> newId.Str?
  {
    assert SaveKey(coll, props).path + [newId] == [coll, newId];
    assert Lookup([("_id", newId)], "_id") == newId;
    assert SaveKey(coll, [("_id", newId)]) == Key([coll, Str(StringOf(newId))]);
    if !newId.Str? {
      assert [coll, newId][1] != [coll, Str(StringOf(newId))][1];
    }
  }

  /** A numeric `_id` comes back as a string: the key holds `String(_id)`. */
  lemma NumericIdComesBackAsString(coll: Value, props: Props, n: int)
    requires Lookup(props, "_id") == Num(n) && n != 0
    ensures var decoded := ParseRes([Entity(SaveKey(coll, props), SavedData(props))]);
      decoded.Ok? && Lookup(decoded.value[0], "_id") == Str(IntToString(n)) != Num(n)
  {
    var e := Entity(SaveKey(coll, props), SavedData(props));
    assert PathAt(e.key, 1) == Str(IntToString(n));
    assert AllHaveIds([e]);
    assert DecodedFrom(ParseRes([e]).value[0], [e][0]);
  }

  /** A filter `{_id: v}` and `getOne(v)` look for the key `save` gives a
      record whose `_id` is `v`. */
  lemma IdFilterTargetsSaveKey(q: Query, coll: Value, v: Value)
    requires Truthy(v) && !IsObjectType(v)
    ensures CompileQuery(q, coll, Obj([("_id", v)])) ==
      Ok(Push(q, Filter("__key__ =", KeyValue(SaveKey(coll, [("_id", v)])))))
  {
    ScalarFieldClauses(q, coll, "_id", v);
  }

  /** A falsy scalar `_id` (`0`, `""`, `false`) still makes genQuery filter
      on the key `[c, String(v)]`, but `save` ignores it: the key is `[c]`
      and `_id` stays in the data, so the filter misses the saved record. */
  lemma FalsyIdFilterMissesSaveKey(q: Query, coll: Value, v: Value)
    requires !Truthy(v) && !IsObjectType(v) && !v.Undefined?
    ensures CompileQuery(q, coll, Obj([("_id", v)])) ==
      Ok(Push(q, Filter("__key__ =", KeyValue(IdKey(coll, v)))))
    ensures SaveKey(coll, [("_id", v)]) == Key([coll]) != IdKey(coll, v)
    ensures SavedData([("_id", v)]) == [("_id", v)]
  {
    ScalarFieldClauses(q, coll, "_id", v);
    assert Lookup([("_id", v)], "_id") == v;
    assert |IdKey(coll, v).path| == 2;
  }

  /** `delete` builds the same key as `save` and `getOne` only for string ids:
      a numeric id stays a number in the key, where the others put its string. */
  lemma DeleteKeyMatchesSaveKeyOnlyForStrings(coll: Value, id: Value)
    requires Truthy(id)
    ensures DeleteKey(coll, id) == SaveKey(coll, [("_id", id)]) <==> id.Str?
  {
  }

  // The projection and the sort as they are evidently meant to work.

  /** The order calls `get` evidently means to add: one per entry of a truthy
      `params.sort`. */
  function SortingOps(params: Value): seq<QueryOp> {
    if Truthy(params) && Truthy(GetProp(params, "sort")) then SortOps(Enumerate(GetProp(params, "sort")))
    else []
  }

  /** `if (params.sort) q = genSort(q, params.sort)`, the intended form of
      line 125: the builder gains the order calls of the sort entries. */
  method AddSorting(q: Query, params: Value) returns (r: Query)
    ensures r == Query(q.kind, q.ops + SortingOps(params))
  {
    r := q;
    if Truthy(params) {
      var sort := GetProp(params, "sort");
      if Truthy(sort) {
        r := SortOrders(q, sort);
        return;
      }
    }
    assert q.ops + [] == q.ops;
  }

  /** `get` with genFilter returning its array and `q = genSort(q, params.sort)`
      returning the builder. */
  function IntendedGetQuery(coll: Value, query: Value, filter: Value, params: Value): Result<Query> {
    if !Truthy(coll) then Err(CollectionRequired)
    else
      match CompileQuery(Query(coll, [Select(Some(TruthyKeysOf(Enumerate(filter))))]), coll, query)
      case Err(e) => Err(e)
      case Ok(q) => Ok(Query(q.kind, q.ops + PagingOps(params) + SortingOps(params)))
  }

  /** With the fix, `get` fails in the same cases as before and selects
      exactly the projection's truthy fields. */
  lemma IntendedSelectsTruthyKeys(coll: Value, query: Value, filter: Value, params: Value)
    ensures IntendedGetQuery(coll, query, filter, params).Ok? <==> GetQuery(coll, query, params).Ok?
    ensures IntendedGetQuery(coll, query, filter, params).Ok? ==>
      var fields := Enumerate(filter);
      |IntendedGetQuery(coll, query, filter, params).value.ops| > 0 &&
      IntendedGetQuery(coll, query, filter, params).value.ops[0] == Select(Some(TruthyKeysOf(fields))) &&
      forall k :: k in TruthyKeysOf(fields) <==> exists i :: 0 <= i < |fields| && fields[i].0 == k && Truthy(fields[i].1)
  {
    GetQueryMeaning(coll, query, params);
    CompileFieldsMeaning(Query(coll, [Select(Some(TruthyKeysOf(Enumerate(filter))))]), coll, Enumerate(query));
  }

  /** With the fix, `get` ends with the order calls of the sort entries, in
      entry order (`SortOpsMeaning` gives each call's direction). */
  lemma IntendedOrdersBySort(coll: Value, query: Value, filter: Value, params: Value)
    requires IntendedGetQuery(coll, query, filter, params).Ok?
    requires Truthy(params) && Truthy(GetProp(params, "sort"))
    ensures var ops := IntendedGetQuery(coll, query, filter, params).value.ops;
      var entries := Enumerate(GetProp(params, "sort"));
      |ops| >= |entries| && ops[|ops| - |entries|..] == SortOps(entries)
  {
    var entries := Enumerate(GetProp(params, "sort"));
    var ops := IntendedGetQuery(coll, query, filter, params).value.ops;
    var prefix := IntendedPrefix(coll, query, filter, params);
    assert ops == prefix + SortOps(entries);
    assert ops[|prefix|..] == SortOps(entries);
  }

  /** The calls of the intended `get` before the order calls. */
  function IntendedPrefix(coll: Value, query: Value, filter: Value, params: Value): (r: seq<QueryOp>)
    requires IntendedGetQuery(coll, query, filter, params).Ok?
    ensures IntendedGetQuery(coll, query, filter, params).value.ops == r + SortingOps(params)
  {
    CompileQuery(Query(coll, [Select(Some(TruthyKeysOf(Enumerate(filter))))]), coll, query).value.ops + PagingOps(params)
  }

  /** The input that shows the projection gap: `get` on an empty filter with
      the projection `{name: true}`. As wired it runs `select(undefined)`
      alone; as meant it selects `name`. */
  lemma ProjectionDroppedExample(coll: Value)
    requires Truthy(coll)
    ensures GetQuery(coll, Obj([]), Undefined) == Ok(Query(coll, [Select(None)]))
    ensures IntendedGetQuery(coll, Obj([]), Obj([("name", Bool(true))]), Undefined) ==
      Ok(Query(coll, [Select(Some(["name"]))]))
  {
    var entries := [("name", Bool(true))];
    assert entries[..0] == [];
    assert TruthyKeysOf(entries) == ["name"];
    assert [Select(None)] + [] == [Select(None)];
    assert [Select(Some(["name"]))] + [] + [] == [Select(Some(["name"]))];
  }

  /** The input that shows the sort gap: `get` on an empty filter with
      `params = {sort: {age: 1}}`. As wired the query has no order call; as
      meant it orders by `age`. */
  lemma SortDroppedExample(coll: Value)
    requires Truthy(coll)
    ensures GetQuery(coll, Obj([]), Obj([("sort", Obj([("age", Num(1))]))])) == Ok(Query(coll, [Select(None)]))
    ensures IntendedGetQuery(coll, Obj([]), Undefined, Obj([("sort", Obj([("age", Num(1))]))])) ==
      Ok(Query(coll, [Select(Some([])), Order("age")]))
  {
    var params := Obj([("sort", Obj([("age", Num(1))]))]);
    assert GetProp(params, "limit") == Undefined && GetProp(params, "skip") == Undefined;
    assert PagingOps(params) == [];
    assert GetProp(params, "sort") == Obj([("age", Num(1))]);
    assert SortingOps(params) == [Order("age")];
    assert [Select(None)] + [] == [Select(None)];
    assert [Select(Some([]))] + [] + [Order("age")] == [Select(Some([])), Order("age")];
  }
}
