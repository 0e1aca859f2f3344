/** The query compiler: `genQuery` turns a filter object into builder calls,
    `genFilter` gathers a projection's field names and `genSort` turns a sort
    object into order calls (gcdatastore.js, lines 40-85). */
module Compiler {
  import opened Js
  import opened Store

  /** The comparison a query operator stands for; None for every other key. */
  function RangeSymbol(op: string): Option<string> {
    if op == "$gt" then Some(">")
    else if op == "$gte" then Some(">=")
    else if op == "$lt" then Some("<")
    else if op == "$lte" then Some("<=")
    else None
  }

  // genQuery as its loops run it: field after field, operator after operator,
  // stopping at the first throw.

  /** The inner loop over the operator entries `ops` of field `k`. */
  function CompileOperators(q: Query, k: string, ops: Props): Result<Query>
    decreases |ops|
  {
    if ops == [] then Ok(q)
    else
      match RangeSymbol(ops[0].0)
      case None => Err(InvalidQueryProperty)
      case Some(sym) => CompileOperators(Push(q, Filter(k + " " + sym, Literal(ops[0].1))), k, ops[1..])
  }

  /** One iteration of the outer loop, for field `k` with value `v`. The
      `typeof` test comes first, so arrays and null take the operator branch
      and the array branch is never entered. */
  function CompileField(q: Query, collection: Value, k: string, v: Value): Result<Query> {
    if IsObjectType(v) then CompileOperators(q, k, Enumerate(v))
    else if v.Arr? then Err(ArrayNotSupported)
    else if k == "_id" then
      match ToString(v)
      case None => Err(TypeError)
      case Some(s) => Ok(Push(q, Filter("__key__ =", KeyValue(Key([collection, Str(s)])))))
    else Ok(Push(q, Filter(k + " =", Literal(v))))
  }

  /** The outer loop over the filter's fields. */
  function CompileFields(q: Query, collection: Value, fields: Props): Result<Query>
    decreases |fields|
  {
    if fields == [] then Ok(q)
    else
      match CompileField(q, collection, fields[0].0, fields[0].1)
      case Err(e) => Err(e)
      case Ok(q') => CompileFields(q', collection, fields[1..])
  }

  /** `genQuery(q, collection, query)`. */
  function CompileQuery(q: Query, collection: Value, query: Value): Result<Query> {
    CompileFields(q, collection, Enumerate(query))
  }

  // What a filter compiles to, stated field by field and independently of
  // the order in which the loops build it.

  /** Every operator key of `ops` is one of the four comparisons. */
  predicate KnownOperators(ops: Props)
    decreases |ops|
  {
    ops == [] || (RangeSymbol(ops[0].0).Some? && KnownOperators(ops[1..]))
  }

  /** Field `k` with value `v` compiles without a throw. */
  predicate ValidField(k: string, v: Value) {
    if IsObjectType(v) then KnownOperators(Enumerate(v))
    else !(k == "_id" && v.Undefined?)
  }

  /** Every field of `fields` is valid. */
  predicate AllValid(fields: Props)
    decreases |fields|
  {
    fields == [] || (ValidField(fields[0].0, fields[0].1) && AllValid(fields[1..]))
  }

  /** What a field that does not compile throws. */
  function FieldError(k: string, v: Value): Error {
    if IsObjectType(v) then InvalidQueryProperty else TypeError
  }

  /** The range clause for operator entry (op, v) on field `k`. */
  function OperatorClause(k: string, op: string, v: Value): QueryOp
    requires RangeSymbol(op).Some?
  {
    Filter(k + " " + RangeSymbol(op).value, Literal(v))
  }

  /** The range clauses of the operator entries `ops`, in entry order. */
  function OperatorClauses(k: string, ops: Props): seq<QueryOp>
    requires KnownOperators(ops)
    decreases |ops|
  {
    if ops == [] then [] else [OperatorClause(k, ops[0].0, ops[0].1)] + OperatorClauses(k, ops[1..])
  }

  /** The clauses of one valid field: one per operator entry of an
      object-typed value, one key equality for a scalar `_id`, one equality
      otherwise. */
  function FieldClauses(collection: Value, k: string, v: Value): seq<QueryOp>
    requires ValidField(k, v)
  {
    if IsObjectType(v) then OperatorClauses(k, Enumerate(v))
    else if k == "_id" then [Filter("__key__ =", KeyValue(Key([collection, Str(StringOf(v))])))]
    else [Filter(k + " =", Literal(v))]
  }

  /** The clauses of all fields, concatenated in field order. */
  function Clauses(collection: Value, fields: Props): seq<QueryOp>
    requires AllValid(fields)
  {
    if fields == [] then []
    else FieldClauses(collection, fields[0].0, fields[0].1) + Clauses(collection, fields[1..])
  }

  /** `KnownOperators` holds exactly when every operator key is a comparison. */
  lemma {:induction false} KnownOperatorsMeaning(ops: Props)
    ensures KnownOperators(ops) <==> forall i :: 0 <= i < |ops| ==> RangeSymbol(ops[i].0).Some?
    decreases |ops|
  {
    if ops != [] {
      KnownOperatorsMeaning(ops[1..]);
      assert forall i :: 1 <= i < |ops| ==> ops[1..][i - 1] == ops[i];
    }
  }

  /** `AllValid` holds exactly when every field is valid. */
  lemma {:induction false} AllValidMeaning(fields: Props)
    ensures AllValid(fields) <==> forall i :: 0 <= i < |fields| ==> ValidField(fields[i].0, fields[i].1)
    decreases |fields|
  {
    if fields != [] {
      AllValidMeaning(fields[1..]);
      assert forall i :: 1 <= i < |fields| ==> fields[1..][i - 1] == fields[i];
    }
  }

  /** The operator clauses are one range filter per entry, in entry order,
      each against the entry's value. */
  lemma {:induction false} OperatorClausesMeaning(k: string, ops: Props)
    requires KnownOperators(ops)
    ensures |OperatorClauses(k, ops)| == |ops|
    ensures forall i :: 0 <= i < |ops| ==> RangeSymbol(ops[i].0).Some?
    ensures forall i :: 0 <= i < |ops| ==>
      OperatorClauses(k, ops)[i] == Filter(k + " " + RangeSymbol(ops[i].0).value, Literal(ops[i].1))
    decreases |ops|
  {
    KnownOperatorsMeaning(ops);
    if ops != [] {
      OperatorClausesMeaning(k, ops[1..]);
      assert forall i :: 1 <= i < |ops| ==> ops[1..][i - 1] == ops[i];
    }
  }

  lemma {:induction false} CompileOperatorsMeaning(q: Query, k: string, ops: Props)
    ensures KnownOperators(ops) ==>
      CompileOperators(q, k, ops) == Ok(Query(q.kind, q.ops + OperatorClauses(k, ops)))
    ensures !KnownOperators(ops) ==> CompileOperators(q, k, ops) == Err(InvalidQueryProperty)
    decreases |ops|
  {
    if ops == [] {
      assert OperatorClauses(k, ops) == [];
      assert q.ops + [] == q.ops;
    } else {
      match RangeSymbol(ops[0].0)
      case None =>
      case Some(sym) =>
        var c := Filter(k + " " + sym, Literal(ops[0].1));
        CompileOperatorsMeaning(Push(q, c), k, ops[1..]);
        if KnownOperators(ops) {
          assert OperatorClauses(k, ops) == [c] + OperatorClauses(k, ops[1..]);
          assert (q.ops + [c]) + OperatorClauses(k, ops[1..]) == q.ops + OperatorClauses(k, ops);
        }
    }
  }

  /** One field either appends exactly its clauses or throws its error. */
  lemma CompileFieldMeaning(q: Query, collection: Value, k: string, v: Value)
    ensures ValidField(k, v) ==>
      CompileField(q, collection, k, v) == Ok(Query(q.kind, q.ops + FieldClauses(collection, k, v)))
    ensures !ValidField(k, v) ==> CompileField(q, collection, k, v) == Err(FieldError(k, v))
  {
    if IsObjectType(v) {
      CompileOperatorsMeaning(q, k, Enumerate(v));
    }
  }

  /** The valid direction of `CompileFieldsMeaning`. */
  lemma {:induction false} CompileValidFields(q: Query, collection: Value, fields: Props)
    requires AllValid(fields)
    ensures CompileFields(q, collection, fields) == Ok(Query(q.kind, q.ops + Clauses(collection, fields)))
    decreases |fields|
  {
    if fields == [] {
      assert q.ops + [] == q.ops;
    } else {
      var (k, v) := fields[0];
      CompileFieldMeaning(q, collection, k, v);
      var fc := FieldClauses(collection, k, v);
      CompileValidFields(Query(q.kind, q.ops + fc), collection, fields[1..]);
      assert Clauses(collection, fields) == fc + Clauses(collection, fields[1..]);
      assert (q.ops + fc) + Clauses(collection, fields[1..]) == q.ops + Clauses(collection, fields);
    }
  }

  /** The invalid direction of `CompileFieldsMeaning`: the error is that of
      the first invalid field. */
  lemma {:induction false} CompileInvalidFields(q: Query, collection: Value, fields: Props)
    requires !AllValid(fields)
    ensures exists i ::
      0 <= i < |fields| && !ValidField(fields[i].0, fields[i].1) && AllValid(fields[..i]) &&
      CompileFields(q, collection, fields) == Err(FieldError(fields[i].0, fields[i].1))
    decreases |fields|
  {
    var (k, v) := fields[0];
    CompileFieldMeaning(q, collection, k, v);
    if ValidField(k, v) {
      var q' := Query(q.kind, q.ops + FieldClauses(collection, k, v));
      var rest := fields[1..];
      CompileInvalidFields(q', collection, rest);
      var j :| 0 <= j < |rest| && !ValidField(rest[j].0, rest[j].1) && AllValid(rest[..j]) &&
        CompileFields(q', collection, rest) == Err(FieldError(rest[j].0, rest[j].1));
      assert rest[j] == fields[j + 1];
      ghost var before := fields[..j + 1];
      assert before[0] == fields[0] && before[1..] == rest[..j];
      assert !ValidField(fields[j + 1].0, fields[j + 1].1) && AllValid(fields[..j + 1]);
    } else {
      assert AllValid(fields[..0]);
    }
  }

  /** genQuery succeeds exactly when every field is valid; it then appends
      the clauses of all fields, in field order, after the calls already on
      the builder. Otherwise it throws the error of the first invalid field. */
  lemma CompileFieldsMeaning(q: Query, collection: Value, fields: Props)
    ensures AllValid(fields) ==>
      CompileFields(q, collection, fields) == Ok(Query(q.kind, q.ops + Clauses(collection, fields)))
    ensures !AllValid(fields) ==>
      exists i :: 0 <= i < |fields| && !ValidField(fields[i].0, fields[i].1) && AllValid(fields[..i]) &&
        CompileFields(q, collection, fields) == Err(FieldError(fields[i].0, fields[i].1))
  {
    if AllValid(fields) {
      CompileValidFields(q, collection, fields);
    } else {
      CompileInvalidFields(q, collection, fields);
    }
  }

  /** Clauses of consecutive runs of fields follow one another: the order of
      the clauses is the order of the fields. */
  lemma {:induction false} ClausesAppend(collection: Value, a: Props, b: Props)
    requires AllValid(a) && AllValid(b)
    ensures AllValid(a + b)
    ensures Clauses(collection, a + b) == Clauses(collection, a) + Clauses(collection, b)
    decreases |a|
  {
    if a == [] {
      assert a + b == b;
    } else {
      ClausesAppend(collection, a[1..], b);
      ClausesStep(collection, a, b);
    }
  }

  /** One step of `ClausesAppend`: the first field's clauses come first. */
  lemma ClausesStep(collection: Value, a: Props, b: Props)
    requires a != [] && AllValid(a) && AllValid(b) && AllValid(a[1..] + b)
    requires Clauses(collection, a[1..] + b) == Clauses(collection, a[1..]) + Clauses(collection, b)
    ensures AllValid(a + b)
    ensures Clauses(collection, a + b) == Clauses(collection, a) + Clauses(collection, b)
  {
    var ab := a + b;
    assert ab[0] == a[0] && ab[1..] == a[1..] + b;
    assert AllValid(ab);
    var fc := FieldClauses(collection, a[0].0, a[0].1);
    assert Clauses(collection, ab) == fc + Clauses(collection, a[1..] + b);
    assert Clauses(collection, a) == fc + Clauses(collection, a[1..]);
    ConcatAssociative(fc, Clauses(collection, a[1..]), Clauses(collection, b));
  }

  /** A filter object with one field compiles as that field alone. */
  lemma SingleField(q: Query, collection: Value, k: string, v: Value)
    ensures CompileQuery(q, collection, Obj([(k, v)])) == CompileField(q, collection, k, v)
  {
    var fields := [(k, v)];
    assert Enumerate(Obj(fields)) == fields;
    assert fields[0] == (k, v) && fields[1..] == [];
    match CompileField(q, collection, k, v)
    case Err(e) =>
    case Ok(q') => assert CompileFields(q', collection, fields[1..]) == Ok(q');
  }

  lemma OneOperator(q: Query, collection: Value, k: string, op: string, v: Value)
    requires RangeSymbol(op).Some?
    ensures CompileQuery(q, collection, Obj([(k, Obj([(op, v)]))])) ==
      Ok(Push(q, Filter(k + " " + RangeSymbol(op).value, Literal(v))))
  {
    SingleField(q, collection, k, Obj([(op, v)]));
    var ops := [(op, v)];
    assert Enumerate(Obj(ops)) == ops && ops[0] == (op, v) && ops[1..] == [];
    var q' := Push(q, Filter(k + " " + RangeSymbol(op).value, Literal(v)));
    assert CompileOperators(q', k, ops[1..]) == Ok(q');
    assert CompileOperators(q, k, ops) == Ok(q');
  }

  /** The table of range operators: `{k: {$op: v}}` appends exactly one clause
      `"k <symbol>"` against `v`. */
  lemma RangeOperatorClauses(q: Query, collection: Value, k: string, v: Value)
    ensures CompileQuery(q, collection, Obj([(k, Obj([("$gt", v)]))])) == Ok(Push(q, Filter(k + " >", Literal(v))))
    ensures CompileQuery(q, collection, Obj([(k, Obj([("$gte", v)]))])) == Ok(Push(q, Filter(k + " >=", Literal(v))))
    ensures CompileQuery(q, collection, Obj([(k, Obj([("$lt", v)]))])) == Ok(Push(q, Filter(k + " <", Literal(v))))
    ensures CompileQuery(q, collection, Obj([(k, Obj([("$lte", v)]))])) == Ok(Push(q, Filter(k + " <=", Literal(v))))
  {
    OneOperator(q, collection, k, "$gt", v);
    OneOperator(q, collection, k, "$gte", v);
    OneOperator(q, collection, k, "$lt", v);
    OneOperator(q, collection, k, "$lte", v);
    assert k + " " + ">" == k + " >";
    assert k + " " + ">=" == k + " >=";
    assert k + " " + "<" == k + " <";
    assert k + " " + "<=" == k + " <=";
  }

  /** An operator key outside the four makes the whole compilation throw, so
      no query comes back. */
  lemma UnknownOperatorRejected(q: Query, collection: Value, fields: Props, i: nat, j: nat)
    requires i < |fields| && IsObjectType(fields[i].1)
    requires j < |Enumerate(fields[i].1)| && RangeSymbol(Enumerate(fields[i].1)[j].0).None?
    ensures CompileFields(q, collection, fields).Err?
    ensures CompileFields(q, collection, fields).error in {InvalidQueryProperty, TypeError}
  {
    KnownOperatorsMeaning(Enumerate(fields[i].1));
    AllValidMeaning(fields);
    CompileFieldsMeaning(q, collection, fields);
  }

  /** A scalar on `_id` becomes one key-equality clause against the key
      `[collection, String(v)]`; a scalar on any other field becomes one
      equality clause against `v` itself. */
  lemma ScalarFieldClauses(q: Query, collection: Value, k: string, v: Value)
    requires !IsObjectType(v)
    ensures k == "_id" && !v.Undefined? ==>
      CompileQuery(q, collection, Obj([(k, v)])) ==
        Ok(Push(q, Filter("__key__ =", KeyValue(Key([collection, Str(StringOf(v))])))))
    ensures k == "_id" && v.Undefined? ==> CompileQuery(q, collection, Obj([(k, v)])) == Err(TypeError)
    ensures k != "_id" ==> CompileQuery(q, collection, Obj([(k, v)])) == Ok(Push(q, Filter(k + " =", Literal(v))))
  {
    SingleField(q, collection, k, v);
  }

  /** Arrays enter the operator branch: a non-empty one throws on its first
      index key, an empty one, like null, adds no clause. */
  lemma ArrayFilterDispatch(q: Query, collection: Value, k: string, es: seq<Value>)
    ensures |es| > 0 ==> CompileField(q, collection, k, Arr(es)) == Err(InvalidQueryProperty)
    ensures es == [] ==> CompileField(q, collection, k, Arr(es)) == Ok(q)
    ensures CompileField(q, collection, k, Null) == Ok(q)
  {
    if |es| > 0 {
      assert Enumerate(Arr(es))[0].0 == "0";
    }
  }

  /** The array branch of genQuery is dead: compilation never throws its error. */
  lemma ArrayBranchUnreachable(q: Query, collection: Value, fields: Props)
    ensures CompileFields(q, collection, fields) != Err(ArrayNotSupported)
  {
    CompileFieldsMeaning(q, collection, fields);
  }

  /** An object on `_id` is read as operators on a property named `_id`, never
      as a key filter: each clause it adds is the operator's range filter on
      the property `_id` against the operand as a literal. */
  lemma IdObjectIsNotKeyFilter(q: Query, collection: Value, ops: Props)
    ensures CompileField(q, collection, "_id", Obj(ops)).Ok? ==>
      var r := CompileField(q, collection, "_id", Obj(ops)).value;
      |r.ops| == |q.ops| + |ops| &&
      (forall i :: 0 <= i < |ops| ==> RangeSymbol(ops[i].0).Some?) &&
      forall i :: |q.ops| <= i < |r.ops| ==>
        r.ops[i] == Filter("_id " + RangeSymbol(ops[i - |q.ops|].0).value, Literal(ops[i - |q.ops|].1))
  {
    assert IsObjectType(Obj(ops)) && Enumerate(Obj(ops)) == ops;
    CompileOperatorsMeaning(q, "_id", ops);
    if KnownOperators(ops) {
      OperatorClausesMeaning("_id", ops);
      var cs := OperatorClauses("_id", ops);
      var r := CompileField(q, collection, "_id", Obj(ops)).value;
      assert r.ops == q.ops + cs;
      forall i | |q.ops| <= i < |r.ops|
        ensures r.ops[i] == cs[i - |q.ops|]
      {
      }
    }
  }

  /** The inner loop of genQuery (lines 44-61): one range clause per operator
      entry of field `k1`, a throw at the first other key. */
  method AddOperatorClauses(q: Query, k1: string, ops: Props) returns (r: Result<Query>)
    ensures r == CompileOperators(q, k1, ops)
  {
    var cur := q;
    var j := 0;
    while j < |ops|
      invariant 0 <= j <= |ops|
      invariant CompileOperators(cur, k1, ops[j..]) == CompileOperators(q, k1, ops)
    {
      var (k2, v) := ops[j];
      assert ops[j..][1..] == ops[j + 1..];
      if k2 == "$gt" {
        assert k1 + " " + ">" == k1 + " >";
        cur := Push(cur, Filter(k1 + " >", Literal(v)));
      } else if k2 == "$gte" {
        assert k1 + " " + ">=" == k1 + " >=";
        cur := Push(cur, Filter(k1 + " >=", Literal(v)));
      } else if k2 == "$lt" {
        assert k1 + " " + "<" == k1 + " <";
        cur := Push(cur, Filter(k1 + " <", Literal(v)));
      } else if k2 == "$lte" {
        assert k1 + " " + "<=" == k1 + " <=";
        cur := Push(cur, Filter(k1 + " <=", Literal(v)));
      } else {
        return Err(InvalidQueryProperty);
      }
      j := j + 1;
    }
    return Ok(cur);
  }

  /** genQuery (lines 40-71): the builder `q` is reassigned clause by clause. */
  method GenQuery(q: Query, collection: Value, query: Value) returns (r: Result<Query>)
    ensures r == CompileQuery(q, collection, query)
  {
    var fields := Enumerate(query);
    var cur := q;
    var i := 0;
    while i < |fields|
      invariant 0 <= i <= |fields|
      invariant CompileFields(cur, collection, fields[i..]) == CompileFields(q, collection, fields)
    {
      var (k1, obj) := fields[i];
      assert fields[i..][1..] == fields[i + 1..];
      if IsObjectType(obj) {
        var compiled := AddOperatorClauses(cur, k1, Enumerate(obj));
        if compiled.Err? {
          return compiled;
        }
        cur := compiled.value;
      } else if obj.Arr? {
        return Err(ArrayNotSupported);
      } else if k1 == "_id" {
        var s := ToString(obj);
        if s.None? {
          return Err(TypeError);
        }
        cur := Push(cur, Filter("__key__ =", KeyValue(Key([collection, Str(s.value)]))));
      } else {
        cur := Push(cur, Filter(k1 + " =", Literal(obj)));
      }
      i := i + 1;
    }
    return Ok(cur);
  }

  // genFilter

  /** The keys of `ps` whose values are truthy, in order. */
  function TruthyKeysOf(ps: Props): (ks: seq<string>)
    ensures |ks| <= |ps|
    ensures forall k :: k in ks <==> exists i :: 0 <= i < |ps| && ps[i].0 == k && Truthy(ps[i].1)
    decreases |ps|
  {
    if ps == [] then []
    else
      var init := ps[..|ps| - 1];
      var last := ps[|ps| - 1];
      var ks := TruthyKeysOf(init) + (if Truthy(last.1) then [last.0] else []);
      assert forall i :: 0 <= i < |init| ==> init[i] == ps[i];
      ks
  }

  /** The keys of consecutive runs follow one another: the accumulator keeps
      the for-in order. */
  lemma {:induction false} TruthyKeysOfAppend(a: Props, b: Props)
    ensures TruthyKeysOf(a + b) == TruthyKeysOf(a) + TruthyKeysOf(b)
    decreases |b|
  {
    if b != [] {
      var b' := b[..|b| - 1];
      TruthyKeysOfAppend(a, b');
      assert (a + b)[..|a + b| - 1] == a + b';
      assert (a + b)[|a + b| - 1] == b[|b| - 1];
    } else {
      assert a + b == a;
    }
  }

  /** The loop of genFilter (lines 74-77): `arr` collects the keys of the
      projection whose values are truthy. */
  method TruthyKeys(filter: Value) returns (arr: seq<string>)
    ensures arr == TruthyKeysOf(Enumerate(filter))
  {
    var entries := Enumerate(filter);
    arr := [];
    var i := 0;
    while i < |entries|
      invariant 0 <= i <= |entries|
      invariant arr == TruthyKeysOf(entries[..i])
    {
      assert entries[..i + 1][..i] == entries[..i];
      if Truthy(entries[i].1) {
        arr := arr + [entries[i].0];
      }
      i := i + 1;
    }
    assert entries[..i] == entries;
  }

  /** genFilter (lines 73-78): it builds `arr` but has no return statement,
      so every call yields undefined. */
  method GenFilter(filter: Value) returns (r: Option<seq<string>>)
    ensures r == None
  {
    var arr := TruthyKeys(filter);
    r := None;
  }

  // genSort

  /** The order calls for the entries of a sort object: one per entry, in
      entry order; ascending when the direction is greater than 0,
      descending (`-` prefix) when it is 0, negative or NaN. */
  function SortOps(entries: Props): (r: seq<QueryOp>)
    ensures |r| == |entries|
    decreases |entries|
  {
    if entries == [] then [] else [SortOrder(entries[0].0, entries[0].1)] + SortOps(entries[1..])
  }

  /** The order call for one sort entry. */
  function SortOrder(k: string, dir: Value): QueryOp {
    if GreaterThanZero(dir) then Order(k) else Order("-" + k)
  }

  /** Entry `i` of a sort object gives order call `i`: ascending on its key
      when its direction is greater than 0, otherwise descending. */
  lemma {:induction false} SortOpsMeaning(entries: Props)
    ensures forall i :: 0 <= i < |entries| ==>
      SortOps(entries)[i] == (if GreaterThanZero(entries[i].1) then Order(entries[i].0) else Order("-" + entries[i].0))
    decreases |entries|
  {
    if entries != [] {
      SortOpsMeaning(entries[1..]);
      forall i | 1 <= i < |entries|
        ensures SortOps(entries)[i] == SortOps(entries[1..])[i - 1]
      {
      }
      forall i | 1 <= i < |entries|
        ensures entries[1..][i - 1] == entries[i]
      {
      }
    }
  }

  /** The order calls of consecutive runs of sort entries follow one another. */
  lemma {:induction false} SortOpsAppend(a: Props, b: Props)
    ensures SortOps(a + b) == SortOps(a) + SortOps(b)
    decreases |a|
  {
    if a == [] {
      assert a + b == b;
    } else {
      SortOpsAppend(a[1..], b);
      assert (a + b)[0] == a[0];
      assert (a + b)[1..] == a[1..] + b;
      var first := [SortOrder(a[0].0, a[0].1)];
      assert SortOps(a + b) == first + SortOps(a[1..] + b);
      assert SortOps(a) == first + SortOps(a[1..]);
      ConcatAssociative(first, SortOps(a[1..]), SortOps(b));
    }
  }

  /** One more sort entry adds its order call at the end. */
  lemma SortOpsSnoc(entries: Props, i: nat)
    requires i < |entries|
    ensures SortOps(entries[..i + 1]) == SortOps(entries[..i]) +
      [if GreaterThanZero(entries[i].1) then Order(entries[i].0) else Order("-" + entries[i].0)]
  {
    assert entries[..i + 1] == entries[..i] + [entries[i]];
    SortOpsAppend(entries[..i], [entries[i]]);
  }

  /** The loop of genSort (lines 81-84): `q` is reassigned one order call per
      sort key. */
  method SortOrders(q: Query, sort: Value) returns (r: Query)
    ensures r == Query(q.kind, q.ops + SortOps(Enumerate(sort)))
  {
    var entries := Enumerate(sort);
    r := q;
    var i := 0;
    while i < |entries|
      invariant 0 <= i <= |entries|
      invariant r.kind == q.kind && r.ops == q.ops + SortOps(entries[..i])
    {
      var key := entries[i].0;
      var up := GreaterThanZero(entries[i].1);
      ghost var done := SortOps(entries[..i]);
      SortOpsSnoc(entries, i);
      if up {
        r := Push(r, Order(key));
      } else {
        r := Push(r, Order("-" + key));
      }
      assert r.ops == (q.ops + done) + [r.ops[|r.ops| - 1]];
      i := i + 1;
    }
    assert entries[..i] == entries;
  }
}
