/**
 * The evaluator `mapData(expr, data, config)`: an expression is walked
 * recursively against a data tree. A string is a path handed to the
 * configured resolver, an object (or array) builds an object with the same
 * keys, `_selector` re-scopes the data and `_transform` hands the data to a
 * host function.
 */
module DataMap {
  import opened Wrappers
  import opened Json
  import opened Paths

  /** The reserved key that re-scopes the data of an object expression. */
  const SelectorKey: string := "_selector"
  /** The reserved key whose function produces an object expression's result. */
  const TransformKey: string := "_transform"

  /** An expression: any JavaScript value the caller passes. Host functions
      (selectors and transforms) are opaque, side-effect free functions on
      data. An array's own entries are its indices, so an array expression
      is read like an object keyed "0", "1", ... */
  datatype Expr =
    | EUndefined
    | ENull
    | EBool(b: bool)
    | ENum(n: int)
    | EStr(s: string)
    | EFn(f: Value -> Value)
    | EArr(items: seq<Expr>)
    | EObj(entries: seq<(string, Expr)>)
  {
    /** JavaScript truthiness of the expression value. */
    predicate Truthy() {
      match this
      case EUndefined => false
      case ENull => false
      case EBool(b) => b
      case ENum(n) => n != 0
      case EStr(s) => s != ""
      case EFn(_) => true
      case EArr(_) => true
      case EObj(_) => true
    }
  }

  /** The two errors the evaluator throws. */
  datatype Error = InvalidSelector | InvalidTransform

  /** The configuration: the resolver that turns a path and data into a value. */
  datatype Config = Config(mapFn: (string, Value) -> Value)

  /** `defaultConfig`: paths are resolved by pluckJson. */
  const DefaultConfig: Config := Config(PluckJson)

  /** `config = config || defaultConfig`: a missing (falsy) configuration
      falls back to the default; a supplied one is used as it is. */
  function EffectiveConfig(config: Option<Config>): Config {
    match config
    case Some(c) => c
    case None => DefaultConfig
  }

  // Sizes, the termination measure of the evaluator: removing `_selector`
  // and listing an array's entries never make an expression larger.

  function Size(e: Expr): nat {
    match e
    case EArr(items) => 1 + ItemsSize(items)
    case EObj(entries) => 1 + EntriesSize(entries)
    case _ => 1
  }

  function ItemsSize(items: seq<Expr>): nat {
    if items == [] then 0 else 1 + Size(items[0]) + ItemsSize(items[1..])
  }

  function EntriesSize(entries: seq<(string, Expr)>): nat {
    if entries == [] then 0
    else
      assert entries[0].1 < entries[0];
      1 + Size(entries[0].1) + EntriesSize(entries[1..])
  }

  /** `Object.entries` of an array of expressions, the first one at index `from`. */
  function ArrayEntries(items: seq<Expr>, from: nat): (r: seq<(string, Expr)>)
    ensures |r| == |items|
    ensures forall i :: 0 <= i < |items| ==> r[i].0 == IndexKey(from + i) && r[i].1 == items[i]
    ensures EntriesSize(r) == ItemsSize(items)
  {
    if items == [] then [] else [(IndexKey(from), items[0])] + ArrayEntries(items[1..], from + 1)
  }

  /** `.filter(([property]) => property != selectorProp)`: the entries of an
      object expression without its `_selector` entry, in their order. */
  function WithoutSelector(entries: seq<(string, Expr)>): (r: seq<(string, Expr)>)
    ensures forall i :: 0 <= i < |r| ==> r[i].0 != SelectorKey
  {
    if entries == [] then []
    else if entries[0].0 == SelectorKey then WithoutSelector(entries[1..])
    else [entries[0]] + WithoutSelector(entries[1..])
  }

  /** The filter never makes an expression larger: the evaluator terminates. */
  lemma {:induction false} WithoutSelectorShrinks(entries: seq<(string, Expr)>)
    ensures EntriesSize(WithoutSelector(entries)) <= EntriesSize(entries)
  {
    if entries != [] {
      WithoutSelectorShrinks(entries[1..]);
    }
  }

  /** `evaluateString`: a path expression is handed to the resolver. */
  function EvaluateString(cfg: Config, path: string, data: Value): Value {
    cfg.mapFn(path, data)
  }

  /** `evaluateSelector`: a function selector is applied to the data, a
      string selector is resolved as a path; anything else is an error. */
  function EvaluateSelector(cfg: Config, selector: Expr, data: Value): Result<Value, Error> {
    match selector
    case EFn(f) => Success(f(data))
    case EStr(path) => Success(cfg.mapFn(path, data))
    case _ => Failure(InvalidSelector)
  }

  /** `evaluateTransform`: the transform must be a function, applied to the data. */
  function EvaluateTransform(transform: Expr, data: Value): Result<Value, Error> {
    match transform
    case EFn(f) => Success(f(data))
    case _ => Failure(InvalidTransform)
  }

  /** The data an object expression is evaluated against: the result of its
      selector when it has one, the current data otherwise. */
  function Rescope(cfg: Config, entries: seq<(string, Expr)>, data: Value): Result<Value, Error> {
    match FieldOf(entries, SelectorKey)
    case Some(selector) => EvaluateSelector(cfg, selector, data)
    case None => Success(data)
  }

  /** `evaluate`: falsy data gives `null` before anything else; a falsy
      expression gives the data back; objects and arrays are evaluated entry
      by entry, strings are resolved as paths, and every other expression
      gives `null`. */
  function Evaluate(cfg: Config, e: Expr, data: Value): Result<Value, Error>
    decreases Size(e), 2
  {
    if !data.Truthy() then Success(Null)
    else if !e.Truthy() then Success(data)
    else
      match e
      case EObj(entries) => EvaluateObject(cfg, entries, data)
      case EArr(items) => EvaluateObject(cfg, ArrayEntries(items, 0), data)
      case EStr(path) => Success(EvaluateString(cfg, path, data))
      case _ => Success(Null)
  }

  /** `evaluateObject`: re-scope by the selector, then either hand the data
      to the transform or build an object from the remaining entries. */
  function EvaluateObject(cfg: Config, entries: seq<(string, Expr)>, data: Value): Result<Value, Error>
    decreases EntriesSize(entries), 1
  {
    var scoped :- Rescope(cfg, entries, data);
    match FieldOf(entries, TransformKey)
    case Some(transform) => EvaluateTransform(transform, scoped)
    case None =>
      WithoutSelectorShrinks(entries);
      var fields :- EvaluateFields(cfg, WithoutSelector(entries), scoped);
      Success(Obj(fields))
  }

  /** The `reduce` that fills the result object: every entry's expression is
      evaluated against the same data, in order; the first error is thrown. */
  function EvaluateFields(cfg: Config, fields: seq<(string, Expr)>, data: Value): Result<seq<(string, Value)>, Error>
    decreases EntriesSize(fields), 0
  {
    if fields == [] then Success([])
    else
      var v :- Evaluate(cfg, fields[0].1, data);
      var rest :- EvaluateFields(cfg, fields[1..], data);
      Success([(fields[0].0, v)] + rest)
  }

  /** `mapData(expr, data, config)`. Falsy data gives `null` whatever the
      expression; a falsy expression gives the data unchanged; a non-empty
      string is resolved by the supplied resolver, or by pluckJson when no
      configuration is given; an expression that is neither an object, an
      array nor a string gives `null`. */
  function MapData(expr: Expr, data: Value, config: Option<Config>): (r: Result<Value, Error>)
    ensures !data.Truthy() ==> r == Success(Null)
    ensures data.Truthy() && !expr.Truthy() ==> r == Success(data)
    ensures data.Truthy() && expr.EStr? && expr.Truthy() ==>
      r == Success(if config.Some? then config.value.mapFn(expr.s, data) else PluckJson(expr.s, data))
    ensures data.Truthy() && expr.Truthy() && !expr.EStr? && !expr.EObj? && !expr.EArr? ==>
      r == Success(Null)
  {
    Evaluate(EffectiveConfig(config), expr, data)
  }
}
