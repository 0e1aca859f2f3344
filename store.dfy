/** What the layer hands to the datastore client and gets back from it: keys,
    the query builder's calls, stored entities, and the errors the layer throws. */
module Store {
  import opened Js

  /** A datastore key, built by `dataset.key(path)`: the collection, then the id. */
  datatype Key = Key(path: seq<Value>)

  /** The right-hand side of a filter clause: a literal or a key. */
  datatype FilterArg = Literal(v: Value) | KeyValue(key: Key)

  /** One call on the query builder. `Select(None)` is `select(undefined)`;
      `Limit(None)` and `Offset(None)` receive NaN. */
  datatype QueryOp =
    | Select(fields: Option<seq<string>>)
    | Filter(expr: string, arg: FilterArg)
    | Order(property: string)
    | Limit(count: Option<int>)
    | Offset(count: Option<int>)

  /** A query: `createQuery(kind)` followed by the builder calls `ops`, in order.
      Each builder call returns a new query, which the code assigns back to `q`. */
  datatype Query = Query(kind: Value, ops: seq<QueryOp>)

  /** `q.op(...)`: the query with one more builder call. */
  function Push(q: Query, op: QueryOp): Query {
    Query(q.kind, q.ops + [op])
  }

  /** An entity as `runQuery` returns it: its key and its data object. */
  datatype Entity = Entity(key: Key, data: Props)

  /** `key.path[i]`: undefined past the end of the path. */
  function PathAt(k: Key, i: nat): Value {
    if i < |k.path| then k.path[i] else Undefined
  }

  /** The errors the layer throws itself. `InvalidQueryProperty` carries no
      operator name: the code passes it as a second argument to `Error`, which
      ignores it. `TypeError` is calling `toString` on undefined. */
  datatype Error =
    | CollectionRequired
    | IdRequired
    | DataRequired
    | InvalidQueryProperty
    | ArrayNotSupported
    | TypeError
    | PathHasNoId

  datatype Result<+T> = Ok(value: T) | Err(error: Error)

  /** A failure reported by the datastore client, passed on untouched. */
  datatype StoreError = StoreError(message: string)

  /** Concatenation regroups freely; stated apart so that proofs about
      builder calls and records can use it in a small context. */
  lemma ConcatAssociative<T>(x: seq<T>, y: seq<T>, z: seq<T>)
    ensures x + (y + z) == (x + y) + z
  {
  }
}
