# data-map: a Dafny model of `mapData`

`mapData(expr, data, config)` is a small declarative data-mapping interpreter.
It takes an expression and a JSON-like data tree, and it builds the result by
walking the expression:

- A string is a dotted path. The configured resolver `config.mapFn` reads it;
  the default resolver is `pluckJson`.
- An object expression builds an object with the same keys, each holding the
  evaluation of its sub-expression. Two keys are reserved:
  - `_selector` re-scopes the data first, by a path or by a host function.
  - `_transform` hands the data to a host function, whose result replaces the
    whole object.
- Falsy data gives `null`. A falsy expression gives the data back. Any other
  kind of expression gives `null`.
- A misused `_selector` throws `InvalidSelector`. A misused `_transform`
  throws `InvalidTransform`.

The model is purely functional, as the source is: every operation is a Dafny
function, and the properties are lemmas about those functions.

- `wrappers.dfy` (`Wrappers`): `Option` and `Result`. A thrown error is a
  `Failure`.
- `json.dfy` (`Json`): the data values `Value`, with JavaScript truthiness.
  It also defines `Get`, which models `value[key]` on own properties: an
  object's entry, an array's or a string's element at a canonical index key,
  and `length`. Array index keys are `IndexKey(n)`, which writes `n` in decimal.
- `paths.dfy` (`Paths`): `Split` (`path.split(".")`), the `reduce` step
  `Step`/`Walk`, and `PluckJson`, with a reference characterisation of what
  it returns.
- `datamap.dfy` (`DataMap`): expressions `Expr` (any JavaScript value; host
  functions are `Value -> Value`), `Config`, `DefaultConfig`, and the
  evaluator. `Evaluate`, `EvaluateObject`, `EvaluateFields` (the `reduce`),
  `WithoutSelector` (the `filter`), `Rescope` (the rebinding of `data`),
  `EvaluateSelector`, `EvaluateTransform`, `EvaluateString` and `MapData`
  follow lib/index.js branch by branch.
- `laws.dfy` (`MapLaws`): what the evaluator guarantees.
- `scenarios.dfy` (`Scenarios`): the cases of lib/index.test.js as lemmas
  about concrete inputs.

Host functions (selectors, transforms, the resolver) are parameters. They
are total functions without side effects.

Behaviours of lib/index.js worth stating outright, since a reader might
expect otherwise:

- Data that is an array is not broadcast over: an object expression reads
  the array like any other object (`Scenarios.NoBroadcast`).
- There are no `asInt` or `coalesce` helpers; the only host functions are
  the selector, the transform and `config.mapFn`.
- `_selector` is dropped by filtering the entries (lib/index.js:57). The
  expression object itself is neither copied nor mutated.
- pluckJson returns falsy data as it is, through `data && ...`
  (lib/index.js:2), not `null`. The evaluator never passes it falsy data
  (lib/index.js:65), so this cannot be seen through `mapData`
  (`MapLaws.ResolverSeesTruthyData`).

## Model

| member | source | states |
|---|---|---|
| DataMap.MapData | lib/index.js:22-78 | Falsy data gives `null` whatever the expression. Otherwise a falsy expression gives the data unchanged. A non-empty string gives `config.mapFn(expr, data)` for a supplied config, and `pluckJson(expr, data)` when the config is missing. Any expression that is not an object, array or string gives `null`. |
| DataMap.Evaluate | lib/index.js:64-75 | `evaluate`. It has no contract of its own; its laws are DataMap.MapData, MapLaws.ObjectResult, MapLaws.ArrayResult, MapLaws.TransformResult, MapLaws.NeverFails and MapLaws.ResolverSeesTruthyData. |
| DataMap.EvaluateObject | lib/index.js:49-62 | `evaluateObject`. It is characterised by MapLaws.ObjectResult, MapLaws.SelectorRescopes, MapLaws.InvalidSelectorFails, MapLaws.TransformResult and MapLaws.TransformIgnoresSiblings. |
| DataMap.EvaluateFields | lib/index.js:56-61 | The `reduce` that fills the result object. It is characterised by MapLaws.FieldsOutcome, MapLaws.FieldsFirstError and MapLaws.FieldsOnFalsyData. |
| DataMap.Rescope | lib/index.js:50-51 | The rebinding of `data` when `_selector` is an own key. MapLaws.ObjectResult, MapLaws.SelectorRescopes and MapLaws.TransformResult state its effect, including the root data when there is no selector. |
| DataMap.EvaluateSelector | lib/index.js:28-38 | `evaluateSelector`. MapLaws.SelectorRescopes states the function and string cases, and MapLaws.InvalidSelectorFails the error. |
| DataMap.EvaluateTransform | lib/index.js:40-47 | `evaluateTransform`. MapLaws.TransformResult states the function case and the `InvalidTransform` error. |
| DataMap.EvaluateString | lib/index.js:25-26 | `evaluateString`. DataMap.MapData states that a non-empty string goes to `config.mapFn`, or to pluckJson without a config. |
| DataMap.EffectiveConfig | lib/index.js:23 | `config = config || defaultConfig`. DataMap.MapData states the fallback to pluckJson, and MapLaws.ResolverSeesTruthyData that only the resolver's answers on truthy data matter. |
| DataMap.ArrayEntries | lib/index.js:56 | `Object.entries` of an array expression: one entry per element, in order, entry `i` keyed with the decimal form of `i` and holding element `i`. Its size measure equals the array's, which makes the evaluator terminate. |
| Paths.PluckJson | lib/index.js:1-3 | `pluckJson`. It is characterised by Paths.PluckJsonResult against the independent Paths.Lookup and Paths.Reaches, and by Paths.PluckJsonConcat. |
| Paths.Step | lib/index.js:3 | The reducer of pluckJson: `prev[curr]` when `prev` and it are truthy, `null` otherwise. Paths.WalkReaches characterises the fold over it. |
| Paths.Walk | lib/index.js:2-3 | The `reduce` over the segments. It is characterised by Paths.WalkReaches, Paths.WalkFromNull and Paths.WalkConcat. |
| Paths.WalkFromNull | lib/index.js:3 | Once a step yields `null`, every later step yields `null`. |
| Paths.WalkConcat | lib/index.js:2-3 | The walk over two segment lists is the walk over the second, started where the first ended. |
| Json.Value.Truthy | lib/index.js:3 | JavaScript truthiness of data: `undefined`, `null`, `false`, `0` and `""` are falsy; every other number and string, and every array and object, is truthy. It decides both tests of the pluckJson reducer here, and `!data` at lib/index.js:65. |
| DataMap.Expr.Truthy | lib/index.js:66 | JavaScript truthiness of an expression, as `!expr` tests it: `undefined`, `null`, `false`, `0` and `""` are falsy; every function, array and object is truthy. |
| Json.FieldOf | lib/index.js:50-53 | Own-property lookup: `hasOwnProperty(key)` is `FieldOf(...).Some?`, and then `expr[key]` is its value, the first entry under that key. It is absent exactly when the key is not among the entries' keys. |
| Json.FieldOfDistinct | lib/index.js:29 | In an object with distinct keys, looking up an entry's key gives that entry's value. |
| DataMap.DefaultConfig | lib/index.js:5-7 | `defaultConfig`: its resolver is pluckJson. DataMap.MapData states that a missing config resolves paths by pluckJson. |
| Json.Get | lib/index.js:3 | `prev[curr]` on own properties. It is characterised by Json.GetObject and Json.GetArrayIndex. |
| MapLaws.FieldsOutcome | lib/index.js:56-61 | The reduce succeeds exactly when every entry's expression evaluates without error. It then has exactly the entries' keys, in order, each holding that entry's evaluation. |
| MapLaws.FieldsFirstError | lib/index.js:58-61 | A failing reduce throws the error of the first entry that fails. All earlier entries succeed. |
| MapLaws.FieldsOnFalsyData | lib/index.js:58-65 | Against falsy data every entry gives `null` and nothing throws. |
| MapLaws.ObjectResult | lib/index.js:49-62 | An object expression without `_transform`: a failing selector's error is thrown. Otherwise the result exists exactly when every remaining entry succeeds against the re-scoped data. It is an object whose keys are exactly the expression's keys minus `_selector`, in order, each holding its sub-expression evaluated against the re-scoped data. |
| MapLaws.ObjectKeys | lib/index.js:56-61 | The result's keys are exactly the expression's keys except `_selector`, and they are distinct when the expression's keys are. |
| MapLaws.SelectorRescopes | lib/index.js:28-51 | A string selector re-scopes the data to `mapFn(selector, data)`, and a function selector to `selector(data)`. If that value is truthy, the object equals the selector-free object evaluated against it. If it is falsy, the result is the object with every remaining key set to `null`. |
| MapLaws.InvalidSelectorFails | lib/index.js:28-38 | A selector that is neither a string nor a function throws `InvalidSelector`, whatever the other entries are, `_transform` included. |
| MapLaws.TransformResult | lib/index.js:40-54 | With `_transform` present, the result is `transform(data')`. `data'` is the data after the selector, or the root data when there is no selector. A transform that is not a function throws `InvalidTransform`. A failing selector throws `InvalidSelector` first. |
| MapLaws.TransformIgnoresSiblings | lib/index.js:53-54 | With `_transform` present, two objects that have the same selector and the same transform give the same result, whatever their other entries. |
| DataMap.WithoutSelector | lib/index.js:57 | No entry of the filtered list is keyed `_selector`. |
| MapLaws.WithoutSelectorConcat | lib/index.js:57 | The filter works entry by entry: filtering a concatenation gives the concatenation of the filtered parts. |
| MapLaws.WithoutSelectorRemovesOne | lib/index.js:56-57 | An object has at most one `_selector` entry. The filter removes exactly that entry and keeps the others in their order. |
| MapLaws.WithoutSelectorAbsent | lib/index.js:57 | Without a `_selector` entry the filter leaves the entries unchanged. |
| MapLaws.WithoutSelectorLookup | lib/index.js:57 | After the filter, every key other than `_selector` looks up the same value as before. |
| MapLaws.WithoutSelectorDistinct | lib/index.js:57 | The filter keeps keys distinct. |
| MapLaws.ArrayResult | lib/index.js:68-69 | An array expression (its `typeof` is `"object"`) builds an object keyed "0", "1", .... The value under index `i`'s key is element `i`'s evaluation. The object is built exactly when every element succeeds. |
| MapLaws.NeverFails | lib/index.js:28-47 | Only a misused selector or transform throws. An expression succeeds on every data under every resolver when every `_selector` in it is a string or a function and every `_transform` is a function, counting every nested entry except the siblings of a `_transform`, which are never evaluated. The condition is sufficient, not necessary: it also constrains entries that no data reaches. |
| MapLaws.ResolverSeesTruthyData | lib/index.js:64-71 | The resolver is only ever called with truthy data: two resolvers that agree on truthy data give the same result for every expression. |
| MapLaws.PrefixedPath | lib/index.js:1-3 | With the default resolver, evaluating a non-empty path `q` against what `p` resolves to gives the same as evaluating `p.q` against the data, truthy or not. An empty `q` is excluded because `""` is a falsy expression and gives the data back, while `p.` reads an empty last segment. |
| MapLaws.SelectorIsPathPrefix | lib/index.js:28-34 | With the default resolver, `{_selector: p, k: q, ...}` gives what `{k: "p.q", ...}` gives, for non-empty path entries. |
| Paths.Split | lib/index.js:2 | `split(".")` gives one segment more than there are dots, and no segment contains a dot. |
| Paths.JoinSplit | lib/index.js:2 | Joining the segments with dots gives the path back. |
| Paths.SplitJoin | lib/index.js:2 | Splitting the dot-joined list of dot-free segments gives the segments back. |
| Paths.SplitConcat | lib/index.js:2 | The segments of `p.q` are those of `p` followed by those of `q`. |
| Paths.WalkReaches | lib/index.js:2-3 | The reduce from truthy data yields the value at the final segment when every lookup along the path is truthy. It yields `null` as soon as one is falsy. |
| Paths.PluckJsonResult | lib/index.js:1-3 | pluckJson never fails. Falsy data comes back as it is. Truthy data gives the value at the final segment when every lookup on the way is truthy, and `null` otherwise. So apart from `null`, the result is never falsy. |
| Paths.PluckJsonConcat | lib/index.js:1-3 | Resolving `p.q` is resolving `q` in the result of resolving `p`. |
| Paths.ArrayElementPath | lib/index.js:3 | On array data, a path that starts with index `i` resolves the rest of the path inside element `i`, or gives `null` when that element is falsy. |
| Json.GetObject | lib/index.js:3 | `prev[curr]` on an object gives the entry's value under a present key and `undefined` under an absent one. |
| Json.GetArrayIndex | lib/index.js:3 | `prev[curr]` on an array at index `i`'s key gives element `i`, or `undefined` past the end. |
| Json.IndexKeyRoundTrip | lib/index.js:56 | An array index written as its key is canonical and reads back as the same index. |
| Json.IndexKeyOfDigits | lib/index.js:3 | Every canonical index key is the decimal form of the index it denotes. |
| Json.IndexKeyInjective | lib/index.js:56 | Distinct indices have distinct keys. |
| Scenarios.InvalidData | lib/index.test.js:4-10 | `{name: "name"}` on `null` gives `null`. |
| Scenarios.InvalidExpression | lib/index.test.js:12-24 | A `null` expression gives the data unchanged. |
| Scenarios.SingleProperty | lib/index.test.js:26-37 | `{fullName: "name"}` on `{name: "John", age: 20}` gives `{fullName: "John"}`. |
| Scenarios.BuyerName | lib/index.test.js:39-60 | The inner expression `{name: "name"}` on `{id: 1, name: "John"}` gives `{name: "John"}`. |
| Scenarios.MultipleLevel | lib/index.test.js:39-60 | A nested object expression reads the same data: `{id: 1, buyer: {name: "John"}}`. |
| Scenarios.StringExpression | lib/index.test.js:64-72 | `"name"` on `{name: "John"}` gives `"John"`. |
| Scenarios.NonStringExpression | lib/index.test.js:74-83 | `123` gives `null`. |
| Scenarios.ChangeMapFn | lib/index.test.js:87-102 | A supplied `mapFn` replaces pluckJson: `{name: 1}`. |
| Scenarios.FirstOfName | lib/index.test.js:106-124 | `{first: "first"}` on `{first: "John", last: "Doe"}`, the data a `name` selector picks, gives `{first: "John"}`. |
| Scenarios.SelectorChangesContext | lib/index.test.js:106-124 | `{_selector: "name", first: "first"}` gives `{first: "John"}`. |
| Scenarios.SelectorFunction | lib/index.test.js:126-144 | A function selector re-scopes the data in the same way. |
| Scenarios.TransformExpression | lib/index.test.js:148-165 | The transform receives the value its selector picked, and its result is the entry's value. |
| Scenarios.TransformNotFunction | lib/index.test.js:167-181 | A string transform throws `InvalidTransform` out of the enclosing object. |
| Scenarios.TransformRootData | lib/index.test.js:183-195 | Without a selector the transform receives the root data. |
| Scenarios.NoBroadcast | lib/index.js:56-61 | An object expression over array data is not applied per element. The array has no `name` entry, so the result is `{name: null}`. |

## Left out

- Host functions are modelled as total functions without side effects. A selector, transform or resolver that throws, or that has effects, is not modelled.
- Data holds JSON-like values only: undefined, null, booleans, integers, strings, arrays and objects. A function or `Date` inside data is not a value of the model. A `Date` built by a transform is the opaque result of the transform function.
- Numbers are unbounded integers, with `0` the only falsy number. NaN, fractions and floating point are not modelled; only truthiness matters to the evaluator.
- Prototype behaviour is not modelled. `hasOwnProperty` is taken to be membership in the entry list. `prev[curr]` sees own properties only, so inherited members such as `toString`, and a `__proto__` key, are outside the model.
- The model takes an object's entries in the order of its list. JavaScript's own ordering, with integer-like keys first, is not modelled.
- An entry list with a repeated key is not a JavaScript object. Lemmas about keys assume distinct keys where they need to.
- Sparse arrays are not modelled.
- A configuration is `Some(config)` or `None`. `None` stands for every falsy configuration. A truthy configuration with no `mapFn` function is not modelled; in the source it throws a TypeError once a path is resolved.
- Errors are the two constructors `InvalidSelector` and `InvalidTransform`; the `Error` objects and their messages are not modelled.
- Call-stack depth is not modelled. Evaluation terminates because expressions are finite, which the explicit size measure shows.
- Strings are sequences of characters. UTF-16 code units, which `"abc"[i]` and `length` count, are not modelled separately.
