/** The result decoder `parseRes` (gcdatastore.js, lines 87-94): each entity
    becomes its data object with `_id` set to the second segment of its key
    path, and one entity without that segment makes the whole call throw. */
module Decoder {
  import opened Js
  import opened Store

  /** `rec` is entity `e` decoded: `_id` holds the key's id segment, every other
      property keeps its value, and the property order is the data's, with
      `_id` last when the data did not have it. */
  ghost predicate DecodedFrom(rec: Props, e: Entity) {
    && Lookup(rec, "_id") == PathAt(e.key, 1)
    && (forall k :: k != "_id" ==> Lookup(rec, k) == Lookup(e.data, k))
    && Keys(rec) == if "_id" in Keys(e.data) then Keys(e.data) else Keys(e.data) + ["_id"]
  }

  /** Every entity's key has a truthy id segment. */
  predicate AllHaveIds(entities: seq<Entity>) {
    forall i :: 0 <= i < |entities| ==> Truthy(PathAt(entities[i].key, 1))
  }

  /** The callback of `entities.map`: `extend(entity.data, {_id: path[1]})`,
      or a throw. */
  function DecodeEntity(e: Entity): (r: Result<Props>)
    ensures r.Ok? <==> Truthy(PathAt(e.key, 1))
    ensures r.Ok? ==> DecodedFrom(r.value, e)
    ensures r.Err? ==> r.error == PathHasNoId
  {
    var id := PathAt(e.key, 1);
    if Truthy(id) then Ok(SetProp(e.data, "_id", id)) else Err(PathHasNoId)
  }

  /** parseRes: all records or nothing. It succeeds exactly when every entity
      has an id segment, and then keeps the number and the order of the
      entities, each record decoded from the entity in its position. */
  function ParseRes(entities: seq<Entity>): (r: Result<seq<Props>>)
    ensures r.Ok? <==> AllHaveIds(entities)
    ensures r.Err? ==> r.error == PathHasNoId
    ensures r.Ok? ==> |r.value| == |entities|
    ensures r.Ok? ==> forall i :: 0 <= i < |entities| ==> DecodedFrom(r.value[i], entities[i])
    decreases |entities|
  {
    if entities == [] then Ok([])
    else
      match DecodeEntity(entities[0])
      case Err(e) => Err(e)
      case Ok(rec) =>
        match ParseRes(entities[1..])
        case Err(e) => Err(e)
        case Ok(recs) =>
          assert forall i :: 1 <= i < |entities| ==> entities[1..][i - 1] == entities[i];
          Ok([rec] + recs)
  }

  /** Decoding a batch is decoding its parts: the result for `a + b` is the
      records of `a` followed by those of `b`, and fails when either part does. */
  lemma {:induction false} ParseResAppend(a: seq<Entity>, b: seq<Entity>)
    ensures ParseRes(a + b).Ok? <==> ParseRes(a).Ok? && ParseRes(b).Ok?
    ensures ParseRes(a + b).Ok? ==> ParseRes(a + b).value == ParseRes(a).value + ParseRes(b).value
    decreases |a|
  {
    if a == [] {
      assert a + b == b;
    } else {
      ParseResAppend(a[1..], b);
      assert (a + b)[0] == a[0];
      assert (a + b)[1..] == a[1..] + b;
      match DecodeEntity(a[0])
      case Err(_) =>
      case Ok(rec) =>
        if ParseRes(a + b).Ok? {
          assert ParseRes(a + b).value == [rec] + ParseRes(a[1..] + b).value;
          ConcatAssociative([rec], ParseRes(a[1..]).value, ParseRes(b).value);
        }
    }
  }
}
