# gcdatastore in Dafny

A model of `gcdatastore.js`, a small layer over the Google Cloud Datastore
client. It exposes `GCD` objects with `collection`, `get`, `getOne`, `save` and
`delete`. The model covers the parts that turn a call into a request for the
datastore client, and the part that turns the client's reply into records:

- `genQuery` compiles a MongoDB-like filter object (`{age: {$gt: 3}}`,
  `{name: "x"}`, `{_id: 7}`) into builder calls on a datastore query.
- `genFilter` and `genSort` are the projection and sort helpers.
- `parseRes` copies each entity's key id into `_id` on its data.
- `get`, `getOne`, `save` and `delete` are modelled up to the client call:
  - their usage-error guards (collection required, id required, data required);
  - the query or key each one builds;
  - how the `runQuery` callback ends.

Modules:

- `Js` (js.dfy) models the JavaScript semantics the code relies on:
  - truthiness and `typeof`;
  - for-in enumeration, property lookup, update and `delete`;
  - `toString`, `String`, `parseInt(v, 10)`, and the comparison `v > 0`.
- `Store` (store.dfy) holds keys, the query builder's calls and stored
  entities. It also holds the errors the layer throws. A query is the value
  `Query(kind, ops)`, with the builder calls in order, because the code always
  reassigns the builder (`q = q.filter(...)`).
- `Compiler` (compiler.dfy) models `genQuery`, `genFilter` and `genSort`. Each
  loop is a method proved equal to a fold function. `Clauses` is an
  independent reference definition of what the fold emits, and the main
  lemma connects the two.
- `Decoder` (decoder.dfy) models `parseRes`.
- `Gcd` (gcd.dfy) holds the `GCD` class, whose field `coll` is `this._c`, and
  the completions of the `runQuery` callbacks. It also relates the
  operations: save, then decode, gives the record back when its `_id` is
  a non-empty string (a numeric `_id` comes back as its string, and a falsy
  `_id` is not put in the key); for a record saved
  with a truthy scalar `_id`, the `_id` filter, `getOne` and `save` agree on
  the key, and `delete` agrees with them only for string ids. A falsy `_id`
  is ignored by `save` but still filtered on, and a record saved without
  `_id` is found by `getOne` only when the store assigns a string id.

Behaviour of the code as written, which the model keeps:

- `typeof null` and `typeof []` are `'object'`, so arrays and null take
  genQuery's operator branch.
  - A non-empty array throws "invalid query property" on its index key `"0"`.
  - An empty array or null adds nothing.
  - The "array is not supported" branch can never run.
- An object value on `_id` is read as comparison operators on a property
  named `_id`, not as a key filter.
- `{_id: undefined}` makes `toString` throw a TypeError.
- The `Error` constructor ignores its second argument, so the name of the
  unknown operator is not part of the error.
- A decoding failure in `parseRes` is a throw inside the `runQuery` callback,
  after the promise executor has returned. It is modelled as `Thrown`, not as
  a rejection of the promise.
- `delete` puts the raw id in the key (no `toString`). `save` and `getOne`
  use `String(id)`.

## Model

| member | source | states |
|---|---|---|
| Js.SetProp | gcdatastore.js:90 | `extend(data, {_id: v})`: `_id` reads `v`, every other property is unchanged, existing keys keep their order, and a new `_id` goes last |
| Js.RemoveProp | gcdatastore.js:163 | `delete data._id`: `_id` is gone, every other property keeps its value and its presence, and the remaining keys keep their order (the key list is the old one with `_id` filtered out) |
| Js.ToString | gcdatastore.js:65 | `toString()` fails (TypeError) exactly on undefined and null |
| Js.ParseIntOfNumber | gcdatastore.js:123-124 | `parseInt(String(n), 10)` gives back every integer `n` below 10^21 in magnitude, so such a numeric limit or skip reaches the store unchanged |
| Js.ParseIntOfLargeNumber | gcdatastore.js:123-124 | from 10^21 on, `String(n)` is in exponent notation and `parseInt(String(n), 10)` gives only the signed leading digit of the exact integer `n` (JavaScript prints a double's shortest digits, so its leading digit can differ) |
| Js.NumberOfNumeral | gcdatastore.js:82 | a sort direction given as the decimal string of an integer below 10^21 compares with 0 as that integer |
| Js.SignedDecimal | gcdatastore.js:82 | a direction string made of an optional minus sign and digits compares with 0 as the number they denote |
| Js.AscendingDirections | gcdatastore.js:82 | `sort[k] > 0` holds for `" 1"`, `"1 "` and `"1.5"`: white space around the direction is ignored and fractions count |
| Js.DescendingDirections | gcdatastore.js:82 | `sort[k] > 0` fails for `"-1"`, `"0"` and a word such as `"asc"`, so these sort descending |
| Compiler.KnownOperatorsMeaning | gcdatastore.js:45-59 | an operator object is accepted exactly when each of its keys is one of `$gt`, `$gte`, `$lt`, `$lte` |
| Compiler.AllValidMeaning | gcdatastore.js:41-69 | a filter compiles without a throw exactly when each of its fields does |
| Compiler.OperatorClausesMeaning | gcdatastore.js:44-57 | the reference clauses of an operator object: one range filter per entry, in entry order, with the operator's symbol and the entry's value |
| Compiler.CompileOperatorsMeaning | gcdatastore.js:44-60 | the operator loop succeeds exactly when every operator key is `$gt`, `$gte`, `$lt` or `$lte`, and then appends one range clause per entry in entry order; otherwise it throws "invalid query property" |
| Compiler.CompileFieldMeaning | gcdatastore.js:42-68 | one field either appends exactly its reference clauses or throws that field's error, leaving the query untouched |
| Compiler.CompileFieldsMeaning | gcdatastore.js:41-69 | genQuery succeeds exactly when every field is valid, and then appends the clauses of the fields in field order; otherwise it throws the error of the first invalid field |
| Compiler.ClausesAppend | gcdatastore.js:41-69 | the clauses of consecutive runs of fields are concatenated, so field order is clause order |
| Compiler.RangeOperatorClauses | gcdatastore.js:45-57 | `$gt`, `$gte`, `$lt` and `$lte` on field `k` append exactly one filter `k >`, `k >=`, `k <`, `k <=` with the operand as the value |
| Compiler.UnknownOperatorRejected | gcdatastore.js:58-59 | any operator key outside the four, in any field, makes the whole compilation throw, so no partial query is run |
| Compiler.ScalarFieldClauses | gcdatastore.js:64-67 | a scalar on `_id` becomes a `__key__ =` filter on `[collection, String(v)]` (TypeError on undefined); a scalar on any other field becomes an equality filter `k =` |
| Compiler.ArrayFilterDispatch | gcdatastore.js:43-63 | arrays and null take the operator branch: a non-empty array throws "invalid query property", and an empty array or null appends nothing |
| Compiler.ArrayBranchUnreachable | gcdatastore.js:62-63 | compilation never throws "array is not supported in query" |
| Compiler.IdObjectIsNotKeyFilter | gcdatastore.js:43-64 | an object on `_id` yields, for each entry in order, the range filter of its operator on a property named `_id` with the entry's value as a literal, and never a `__key__` filter |
| Compiler.AddOperatorClauses | gcdatastore.js:44-61 | the inner loop's result equals the operator fold, whose meaning `CompileOperatorsMeaning` states |
| Compiler.GenQuery | gcdatastore.js:40-71 | the loop's result equals the fold `CompileQuery`, whose meaning `CompileFieldsMeaning` states |
| Compiler.TruthyKeysOf | gcdatastore.js:75-77 | a key is collected exactly when some entry has that key with a truthy value; never more keys than entries |
| Compiler.TruthyKeysOfAppend | gcdatastore.js:75-77 | the keys collected from consecutive runs of entries follow one another in order |
| Compiler.TruthyKeys | gcdatastore.js:74-77 | genFilter's loop leaves in `arr` exactly the truthy keys of the filter, in for-in order |
| Compiler.GenFilter | gcdatastore.js:73-78 | genFilter returns undefined whatever the filter |
| Compiler.SortOpsMeaning | gcdatastore.js:81-84 | one order call per sort entry, in entry order: ascending on `k` when `sort[k] > 0`, otherwise descending on `-k` (also when the direction is NaN) |
| Compiler.SortOpsAppend | gcdatastore.js:81-84 | the order calls of consecutive runs of sort entries follow one another |
| Compiler.SortOrders | gcdatastore.js:80-85 | genSort's loop appends exactly the order calls of `SortOps` after the builder's existing calls |
| Decoder.DecodeEntity | gcdatastore.js:88-93 | an entity decodes exactly when its key has a truthy id segment; the record then has `_id` set to that segment and all other data unchanged; otherwise "path does not have id" |
| Decoder.ParseRes | gcdatastore.js:87-94 | parseRes succeeds exactly when every entity has an id. It keeps the count and the order, and decodes each record from the entity in its position. Otherwise it throws "path does not have id" |
| Decoder.ParseResAppend | gcdatastore.js:87-94 | decoding a concatenation of batches succeeds exactly when both parts do, and gives the records of the parts in order |
| Gcd.GCD.constructor | gcdatastore.js:99-105 | a new `GCD` has no collection selected |
| Gcd.GCD.Collection | gcdatastore.js:107-110 | `collection(c)` selects `c` and returns the same object |
| Gcd.GCD.Get | gcdatastore.js:112-127 | `get` throws "collection is required" without a collection. Otherwise it runs `select(undefined)`, then the compiled filter, then the limit and offset calls; the projection and the sort do not affect the query |
| Gcd.GCD.GetOne | gcdatastore.js:136-146 | `getOne` checks the collection, then the id. It queries `__key__ = [c, String(id)]`, which is the key `save` gives a record whose `_id` is `id`, and then asks for one entity |
| Gcd.GCD.Save | gcdatastore.js:155-168 | `save` checks the collection, then the data. It saves under `[c, String(_id)]` when `_id` is truthy and `[c]` otherwise; a truthy `_id` is deleted from the caller's object, and that object is what is stored |
| Gcd.GCD.Delete | gcdatastore.js:177-182 | `delete` checks the collection, then the id, and deletes the key `[c, id]` with the id as given |
| Gcd.AddPaging | gcdatastore.js:122-124 | the builder gains exactly the paging calls `PagingOps` after its existing calls |
| Gcd.AddSorting | gcdatastore.js:125 | with `q = genSort(q, params.sort)`, the builder gains exactly the order calls of a truthy `params.sort`'s entries after its existing calls, and nothing otherwise |
| Gcd.GCD.IntendedGetOne | gcdatastore.js:136-146 | `getOne` with genFilter returning its array: the same guards and key lookup, selecting exactly the truthy keys of the projection, then one entity |
| Gcd.GCD.IntendedGet | gcdatastore.js:112-125 | `get` with both fixes builds exactly the query `IntendedGetQuery` describes: the loops of genFilter, genQuery and genSort, then paging and ordering |
| Gcd.GetCompletion | gcdatastore.js:128-132 | a store error rejects. Rows resolve exactly when all have ids, to the decoded records in order; otherwise the callback throws |
| Gcd.GetOneCompletion | gcdatastore.js:146-151 | like `get`, but it resolves to the first decoded record, or to nothing exactly when no row came back |
| Gcd.ClausesAreFilters | gcdatastore.js:44-67 | every call genQuery appends is a filter, never a select, order, limit or offset |
| Gcd.GetQueryMeaning | gcdatastore.js:114-124 | with a collection, `get` fails exactly when the filter has an invalid field. Its query is `select(undefined)`, then the reference clauses, then the paging calls |
| Gcd.GetIgnoresProjectionAndSort | gcdatastore.js:116-125 | as wired, the only select is the first call and it selects undefined; no order call is ever added |
| Gcd.PagingOpsMeaning | gcdatastore.js:122-124 | the paging calls are limits and offsets only: a limit exactly when `params` and `params.limit` are truthy, an offset exactly when `params` and `params.skip` are; a non-zero numeric limit or skip below 10^21 in magnitude arrives unchanged through `parseInt` |
| Gcd.GetAppliesPaging | gcdatastore.js:122-124 | every limit or offset in `get`'s query comes from a truthy `params.limit` or `params.skip`, and a non-zero numeric limit or skip below 10^21 in magnitude reaches the query as that number |
| Gcd.SaveDerivesKey | gcdatastore.js:160-165 | the key is `[c, String(_id)]` and `_id` is dropped when `_id` is truthy; it is `[c]` with the data unchanged otherwise; other properties always keep their values |
| Gcd.SaveThenDecodeRoundTrip | gcdatastore.js:160-165 | saving a record with a non-empty string `_id` and decoding the stored entity gives back a record with the same value for every property |
| Gcd.SaveWithoutIdThenDecode | gcdatastore.js:160-165 | a record saved without `_id` and read back under the id the store assigns carries that id and all its data |
| Gcd.NumericIdComesBackAsString | gcdatastore.js:162 | a non-zero numeric `_id` comes back from a save and decode as the string `String(n)`, not as the number |
| Gcd.IdFilterTargetsSaveKey | gcdatastore.js:64-65 | for a truthy scalar `v`, the filter `{_id: v}` looks up exactly the key `save` gives a record with `_id` `v` |
| Gcd.FalsyIdFilterMissesSaveKey | gcdatastore.js:160-165 | for a falsy scalar `_id` (`0`, `""`, `false`), genQuery still filters on `[c, String(v)]`, while `save` uses the key `[c]` and keeps `_id` in the data, so the two keys differ |
| Gcd.GetOneAfterSaveWithoutId | gcdatastore.js:143 | a record saved without `_id` is stored under `[c]` completed with the assigned id; the key `getOne(newId)` looks up is that key exactly when the assigned id is a string |
| Gcd.DeleteKeyMatchesSaveKeyOnlyForStrings | gcdatastore.js:182 | `delete(id)` targets the key `save` used exactly when `id` is a string |
| Gcd.IntendedSelectsTruthyKeys | gcdatastore.js:116-118 | with genFilter returning its array, `get` fails in the same cases as before and selects exactly the truthy keys of the projection |
| Gcd.IntendedOrdersBySort | gcdatastore.js:125 | with `q = genSort(q, params.sort)`, `get` ends with the order calls of the sort entries, in entry order (`SortOpsMeaning` gives each call's direction) |
| Gcd.ProjectionDroppedExample | gcdatastore.js:116-118 | for projection `{name: true}`, the query as wired is `select(undefined)` alone, and as intended it is `select(["name"])` |
| Gcd.SortDroppedExample | gcdatastore.js:125 | for `params = {sort: {age: 1}}`, the query as wired has no order call, and as intended it ends with `order("age")` |

## Left out

- Reading the environment and authenticating the datastore client
  (gcdatastore.js:11-21): these are module start-up I/O.
- The namespace passed to the `GCD` constructor: opening a dataset is the
  client's concern. The model keeps only the fact that no collection is
  selected yet.
- The performance timer and debug logging (`perf`, `debugPerf`): timing output
  has no effect on results.
- The `Q.Promise` wrapper: the operations return the call they hand to the
  client, or the error they throw first. The model does not cover
  asynchrony, the order of concurrent calls, or the resolution of the `save`
  and `delete` callbacks, which only pass on the client's error or result.
- What the datastore does with a query or key: `runQuery`, `save` and `delete`
  are calls into the client. The model does not cover how the client reads
  `select(undefined)` or a `[c]` key.
- How the client represents the id it assigns to a `[c]` key is not
  modelled: the assigned id is a parameter of any JavaScript value.
  Gcd.GetOneAfterSaveWithoutId shows that `getOne` finds such a record only
  when that id is a string, because `getOne` always looks up
  `[c, id.toString()]`.
- Number values are integers here: no fractions, NaN, Infinity or -0 as a
  value. They are unbounded, so doubles are not modelled: integers above
  2^53 keep every digit, where JavaScript rounds them. `String` does write
  exponent notation from 10^21 on, as JavaScript does, but with every digit
  of the integer: JavaScript prints the shortest digits that read back as the
  same double, so its leading digit can differ (the double nearest 1e23 is
  99999999999999991611392, which JavaScript prints as `"1e+23"`, so
  `parseInt` gives 1 where the model gives 9). Functions, symbols,
  dates and inherited enumerable properties are left out too.
- The comparison `v > 0` converts `v` with `Number`, and the model reads the
  converted value as an exact rational. It does not round to a double and
  has no exponent range: `"1e-400"` is 0 in JavaScript but positive here,
  and `"1e400"` is Infinity in JavaScript but a finite number here.
- Strings are sequences of code points. For-in over a string visits UTF-16
  code units, so a character outside the Basic Multilingual Plane is one
  index here and two in JavaScript. Object properties are listed in the order for-in visits them. The
  engine's rule that integer-like keys come first is not modelled.
- `parseInt(v, 10)` is modelled as JavaScript does it: it skips white space
  at the start, reads an optional sign and then as many decimal digits as
  follow. `Number`, used by `v > 0`, trims white space at both ends and
  reads the whole string: the empty string is 0; `0x`, `0o` and `0b`
  prefixes; a signed decimal with a fraction and an exponent; `Infinity`.
  The white space is the set JavaScript uses: tab, vertical tab, form feed,
  space, no-break space, byte order mark, the Unicode space separators and
  the line terminators.
- Js.ParseIntOfNumber: the claim is limited to integers below 10^21 in
  magnitude, because from there on `String` writes exponent notation.
  Js.ParseIntOfLargeNumber states what `parseInt` gives back above it.
  Gcd.PagingOpsMeaning and Gcd.GetAppliesPaging carry the same limit.
- Gcd.GCD.Save: the data argument is a record object or missing (null or
  undefined). A truthy non-object value, such as a number or a string, is
  not modelled.
- Decoder.ParseRes: `extend` writes `_id` into each entity's data object in
  place, and the model builds new records instead. The entities come fresh
  from the client and the code keeps no other reference to them, so only
  the returned records can be observed. When a later entity throws, the
  earlier ones have already been extended; that is not visible either.
- Error messages are modelled as constructors of `Store.Error`, without
  their text.

## Findings

| source | as written | input that shows it | evidently intended | confidence | as-written member | corrected member |
|---|---|---|---|---|---|---|
| gcdatastore.js:73-78 | `genFilter` fills a local array and has no return statement, so `get` and `getOne` call `select(undefined)` | `get({}, {name: true})` | `select(["name"])`: project the truthy keys of the filter | high, not executed | Gcd.ProjectionDroppedExample | Gcd.IntendedSelectsTruthyKeys |
| gcdatastore.js:125 | `genSort(params.sort)` passes the sort object as the builder, the sort is undefined, and the result is dropped, so no order call reaches the query | `get({}, undefined, {sort: {age: 1}})` | `q = genSort(q, params.sort)`, with `genSort` returning `q`: the query orders by `age` | high, not executed | Gcd.SortDroppedExample | Gcd.IntendedOrdersBySort |

`GCD.Get` keeps the behaviour as written. `GCD.IntendedGet` is the corrected
operation: it runs the genFilter loop's array into `select` and the genSort
loop into the builder. Its result is `IntendedGetQuery`, and the two
`Intended…` lemmas prove the intended properties about that definition.
`GCD.GetOne` also keeps `select(undefined)` as written, and `GCD.IntendedGetOne`
is its corrected form, selecting the truthy keys of the projection.
