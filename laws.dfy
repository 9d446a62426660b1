/**
 * What the evaluator guarantees: how an object expression's result is
 * made of its entries, what the selector and the transform do, which
 * expressions can throw, and how a string selector composes with the
 * default resolver.
 */
module MapLaws {
  import opened Wrappers
  import opened Json
  import opened Paths
  import opened DataMap

  // ----- The selector filter -----

  /** Dropping `_selector` leaves every other lookup as it was. */
  lemma {:induction false} WithoutSelectorLookup(entries: seq<(string, Expr)>, key: string)
    requires key != SelectorKey
    ensures FieldOf(WithoutSelector(entries), key) == FieldOf(entries, key)
  {
    if entries != [] {
      WithoutSelectorLookup(entries[1..], key);
    }
  }

  /** Without a `_selector` entry the filter keeps the entries as they are. */
  lemma {:induction false} WithoutSelectorAbsent(entries: seq<(string, Expr)>)
    requires SelectorKey !in Keys(entries)
    ensures WithoutSelector(entries) == entries
  {
    if entries != [] {
      assert Keys(entries[1..]) == Keys(entries)[1..];
      WithoutSelectorAbsent(entries[1..]);
    }
  }

  /** The tail of a list with distinct keys has distinct keys, none of them the head's. */
  lemma DistinctTail<T>(entries: seq<(string, T)>)
    requires DistinctKeys(entries) && entries != []
    ensures DistinctKeys(entries[1..])
    ensures entries[0].0 !in Keys(entries[1..])
  {
    var rest := entries[1..];
    forall i, j | 0 <= i < j < |rest| ensures rest[i].0 != rest[j].0 {
      assert rest[i] == entries[i + 1] && rest[j] == entries[j + 1];
    }
    forall i | 0 <= i < |rest| ensures Keys(rest)[i] != entries[0].0 {
      assert rest[i] == entries[i + 1];
    }
  }

  /** The filter works entry by entry: filtering two lists one after the
      other is filtering each of them. */
  lemma {:induction false} WithoutSelectorConcat(a: seq<(string, Expr)>, b: seq<(string, Expr)>)
    ensures WithoutSelector(a + b) == WithoutSelector(a) + WithoutSelector(b)
  {
    if a == [] {
      assert a + b == b;
    } else {
      assert (a + b)[0] == a[0] && (a + b)[1..] == a[1..] + b;
      WithoutSelectorConcat(a[1..], b);
    }
  }

  /** An object holds at most one `_selector` entry: the filter removes
      exactly that entry and keeps the others in their order. */
  lemma WithoutSelectorRemovesOne(before: seq<(string, Expr)>, selector: Expr, after: seq<(string, Expr)>)
    requires SelectorKey !in Keys(before) && SelectorKey !in Keys(after)
    ensures WithoutSelector(before + [(SelectorKey, selector)] + after) == before + after
  {
    var rest := [(SelectorKey, selector)] + after;
    assert before + [(SelectorKey, selector)] + after == before + rest;
    WithoutSelectorConcat(before, rest);
    assert rest[1..] == after;
    WithoutSelectorAbsent(before);
    WithoutSelectorAbsent(after);
  }

  /** The filter keeps the keys distinct. */
  lemma {:induction false} WithoutSelectorDistinct(entries: seq<(string, Expr)>)
    requires DistinctKeys(entries)
    ensures DistinctKeys(WithoutSelector(entries))
  {
    if entries != [] {
      var rest := entries[1..];
      DistinctTail(entries);
      WithoutSelectorDistinct(rest);
      if entries[0].0 != SelectorKey {
        var k := entries[0].0;
        WithoutSelectorLookup(rest, k);
        var w, wr := WithoutSelector(entries), WithoutSelector(rest);
        assert k !in Keys(wr);
        forall i, j | 0 <= i < j < |w| ensures w[i].0 != w[j].0 {
          assert w[j] == wr[j - 1];
          if i == 0 {
            assert Keys(wr)[j - 1] == w[j].0;
          } else {
            assert w[i] == wr[i - 1];
          }
        }
      }
    }
  }

  // ----- Fields -----

  /** The reduce over the entries succeeds exactly when every entry's
      expression does, and it then has the same keys in the same order, each
      holding the evaluation of its expression. */
  lemma {:induction false} FieldsOutcome(cfg: Config, fields: seq<(string, Expr)>, data: Value)
    ensures EvaluateFields(cfg, fields, data).Success?
        <==> forall i :: 0 <= i < |fields| ==> Evaluate(cfg, fields[i].1, data).Success?
    ensures EvaluateFields(cfg, fields, data).Success? ==>
      && Keys(EvaluateFields(cfg, fields, data).value) == Keys(fields)
      && forall i :: 0 <= i < |fields| ==>
           Evaluate(cfg, fields[i].1, data) == Success(EvaluateFields(cfg, fields, data).value[i].1)
    decreases |fields|
  {
    if fields != [] {
      var rest := fields[1..];
      FieldsOutcome(cfg, rest, data);
      var head := Evaluate(cfg, fields[0].1, data);
      var tail := EvaluateFields(cfg, rest, data);
      assert forall i :: 0 < i < |fields| ==> fields[i] == rest[i - 1];
      if head.Success? && tail.Success? {
        var r := EvaluateFields(cfg, fields, data);
        assert r.value == [(fields[0].0, head.value)] + tail.value;
        assert Keys(r.value) == Keys(fields);
      }
    }
  }

  /** A failing reduce throws the error of the first entry that fails. */
  lemma {:induction false} FieldsFirstError(cfg: Config, fields: seq<(string, Expr)>, data: Value)
    requires EvaluateFields(cfg, fields, data).Failure?
    ensures exists i ::
              && 0 <= i < |fields|
              && Evaluate(cfg, fields[i].1, data) == Failure(EvaluateFields(cfg, fields, data).error)
              && forall j :: 0 <= j < i ==> Evaluate(cfg, fields[j].1, data).Success?
    decreases |fields|
  {
    var rest := fields[1..];
    var head := Evaluate(cfg, fields[0].1, data);
    if head.Success? {
      FieldsFirstError(cfg, rest, data);
      var err := EvaluateFields(cfg, rest, data).error;
      var i :| 0 <= i < |rest| && Evaluate(cfg, rest[i].1, data) == Failure(err)
               && forall j :: 0 <= j < i ==> Evaluate(cfg, rest[j].1, data).Success?;
      assert fields[i + 1] == rest[i];
      assert forall j :: 0 < j < i + 1 ==> fields[j] == rest[j - 1];
    } else {
      assert Evaluate(cfg, fields[0].1, data) == Failure(EvaluateFields(cfg, fields, data).error);
    }
  }

  /** Evaluating with falsy data never throws and gives `null` for every entry. */
  lemma {:induction false} FieldsOnFalsyData(cfg: Config, fields: seq<(string, Expr)>, data: Value)
    requires !data.Truthy()
    ensures EvaluateFields(cfg, fields, data) == Success(NullFields(fields))
    decreases |fields|
  {
    if fields != [] {
      FieldsOnFalsyData(cfg, fields[1..], data);
    }
  }

  /** The keys of an entry list, each holding `null`. */
  function NullFields(fields: seq<(string, Expr)>): (r: seq<(string, Value)>)
    ensures Keys(r) == Keys(fields)
    ensures forall i :: 0 <= i < |r| ==> r[i].1 == Null
  {
    if fields == [] then [] else [(fields[0].0, Null)] + NullFields(fields[1..])
  }

  // ----- Object expressions -----

  /** One step of evaluation of an object expression without `_transform`. */
  lemma ObjectUnfold(cfg: Config, entries: seq<(string, Expr)>, data: Value)
    requires data.Truthy()
    requires TransformKey !in Keys(entries)
    ensures var scope := Rescope(cfg, entries, data);
      && (scope.Failure? ==> Evaluate(cfg, EObj(entries), data) == Failure(scope.error))
      && (scope.Success? ==>
            var built := EvaluateFields(cfg, WithoutSelector(entries), scope.value);
            Evaluate(cfg, EObj(entries), data)
              == if built.Success? then Success(Obj(built.value)) else Failure(built.error))
  {
    assert Evaluate(cfg, EObj(entries), data) == EvaluateObject(cfg, entries, data);
    assert FieldOf(entries, TransformKey).None?;
  }

  /** An object expression without `_transform`: the result is the object
      whose keys are exactly the expression's keys minus `_selector`, in
      their order, each holding the evaluation of its sub-expression against
      the re-scoped data. It is produced exactly when the selector and every
      sub-expression succeed; otherwise the selector's or the first failing
      entry's error is thrown. */
  lemma ObjectResult(cfg: Config, entries: seq<(string, Expr)>, data: Value)
    requires data.Truthy()
    requires TransformKey !in Keys(entries)
    ensures var r := Evaluate(cfg, EObj(entries), data);
      var scope := Rescope(cfg, entries, data);
      var fields := WithoutSelector(entries);
      && (scope.Failure? ==> r == Failure(scope.error))
      && (scope.Success? ==>
            (r.Success? <==> forall i :: 0 <= i < |fields| ==> Evaluate(cfg, fields[i].1, scope.value).Success?))
      && (r.Success? ==>
            && r.value.Obj?
            && Keys(r.value.fields) == Keys(fields)
            && forall i :: 0 <= i < |fields| ==>
                 Evaluate(cfg, fields[i].1, scope.value) == Success(r.value.fields[i].1))
  {
    var scope := Rescope(cfg, entries, data);
    ObjectUnfold(cfg, entries, data);
    if scope.Success? {
      FieldsOutcome(cfg, WithoutSelector(entries), scope.value);
    }
  }

  /** The keys of an object result are those of the expression minus
      `_selector`, which are distinct when the expression's are. */
  lemma ObjectKeys(cfg: Config, entries: seq<(string, Expr)>, data: Value)
    requires data.Truthy()
    requires TransformKey !in Keys(entries)
    requires DistinctKeys(entries)
    requires Evaluate(cfg, EObj(entries), data).Success?
    ensures var v := Evaluate(cfg, EObj(entries), data).value;
      && v.Obj?
      && DistinctKeys(v.fields)
      && (forall k :: k in Keys(v.fields) <==> k in Keys(entries) && k != SelectorKey)
  {
    ObjectResult(cfg, entries, data);
    var w := WithoutSelector(entries);
    var fields := Evaluate(cfg, EObj(entries), data).value.fields;
    WithoutSelectorDistinct(entries);
    forall i, j | 0 <= i < j < |fields| ensures fields[i].0 != fields[j].0 {
      assert Keys(fields)[i] == w[i].0 && Keys(fields)[j] == w[j].0;
    }
    forall k ensures k in Keys(fields) <==> k in Keys(entries) && k != SelectorKey {
      if k != SelectorKey {
        WithoutSelectorLookup(entries, k);
      }
    }
  }

  /** A string or function selector re-scopes the data to what it resolves
      to: the rest of the object is then evaluated against that value, as if
      it had been the data, when it is truthy; when it is falsy every entry
      gives `null` (the object itself is still built). */
  lemma SelectorRescopes(cfg: Config, entries: seq<(string, Expr)>, data: Value)
    requires data.Truthy()
    requires TransformKey !in Keys(entries)
    requires SelectorKey in Keys(entries)
    requires FieldOf(entries, SelectorKey).value.EStr? || FieldOf(entries, SelectorKey).value.EFn?
    ensures var selector := FieldOf(entries, SelectorKey).value;
      var scoped := if selector.EStr? then cfg.mapFn(selector.s, data) else selector.f(data);
      var r := Evaluate(cfg, EObj(entries), data);
      && (scoped.Truthy() ==> r == Evaluate(cfg, EObj(WithoutSelector(entries)), scoped))
      && (!scoped.Truthy() ==> r == Success(Obj(NullFields(WithoutSelector(entries)))))
  {
    var selector := FieldOf(entries, SelectorKey).value;
    var scoped := if selector.EStr? then cfg.mapFn(selector.s, data) else selector.f(data);
    var w := WithoutSelector(entries);
    assert Rescope(cfg, entries, data) == Success(scoped);
    if scoped.Truthy() {
      WithoutSelectorLookup(entries, TransformKey);
      WithoutSelectorAbsent(w);
      assert Rescope(cfg, w, scoped) == Success(scoped);
    } else {
      FieldsOnFalsyData(cfg, w, scoped);
    }
  }

  /** A selector that is neither a string nor a function throws
      InvalidSelector, before the transform is looked at. */
  lemma InvalidSelectorFails(cfg: Config, entries: seq<(string, Expr)>, data: Value)
    requires data.Truthy()
    requires SelectorKey in Keys(entries)
    requires !FieldOf(entries, SelectorKey).value.EStr? && !FieldOf(entries, SelectorKey).value.EFn?
    ensures Evaluate(cfg, EObj(entries), data) == Failure(InvalidSelector)
  {
  }

  /** One step of evaluation of an object expression with `_transform`. */
  lemma TransformUnfold(cfg: Config, entries: seq<(string, Expr)>, data: Value)
    requires data.Truthy()
    requires TransformKey in Keys(entries)
    ensures var scope := Rescope(cfg, entries, data);
      Evaluate(cfg, EObj(entries), data)
        == if scope.Failure? then Failure(scope.error)
           else EvaluateTransform(FieldOf(entries, TransformKey).value, scope.value)
  {
    assert Evaluate(cfg, EObj(entries), data) == EvaluateObject(cfg, entries, data);
  }

  /** An object expression with `_transform`: its result is the transform
      applied to the data after the selector (the root data when there is
      no selector); a transform that is not a function throws
      InvalidTransform, and a failing selector throws first. */
  lemma TransformResult(cfg: Config, entries: seq<(string, Expr)>, data: Value)
    requires data.Truthy()
    requires TransformKey in Keys(entries)
    ensures var transform := FieldOf(entries, TransformKey).value;
      var scope := Rescope(cfg, entries, data);
      var r := Evaluate(cfg, EObj(entries), data);
      && (SelectorKey !in Keys(entries) ==> scope == Success(data))
      && (scope.Failure? ==> r == Failure(InvalidSelector))
      && (scope.Success? && transform.EFn? ==> r == Success(transform.f(scope.value)))
      && (scope.Success? && !transform.EFn? ==> r == Failure(InvalidTransform))
  {
    TransformUnfold(cfg, entries, data);
  }

  /** With `_transform` present, the other entries of the object play no
      part: two objects with the same selector and transform agree. */
  lemma TransformIgnoresSiblings(cfg: Config, a: seq<(string, Expr)>, b: seq<(string, Expr)>, data: Value)
    requires TransformKey in Keys(a)
    requires FieldOf(a, TransformKey) == FieldOf(b, TransformKey)
    requires FieldOf(a, SelectorKey) == FieldOf(b, SelectorKey)
    ensures Evaluate(cfg, EObj(a), data) == Evaluate(cfg, EObj(b), data)
  {
    if data.Truthy() {
      TransformUnfold(cfg, a, data);
      TransformUnfold(cfg, b, data);
      assert Rescope(cfg, a, data) == Rescope(cfg, b, data);
    }
  }

  // ----- Array expressions -----

  /** No array index is a reserved key. */
  lemma IndexKeyNotReserved(n: nat)
    ensures IndexKey(n) != SelectorKey && IndexKey(n) != TransformKey
  {
    IndexKeyRoundTrip(n);
    assert !IsDigit(SelectorKey[0]) && !IsDigit(TransformKey[0]);
  }

  lemma {:induction false} ArrayEntriesUnreserved(items: seq<Expr>, from: nat)
    ensures SelectorKey !in Keys(ArrayEntries(items, from))
    ensures TransformKey !in Keys(ArrayEntries(items, from))
    decreases |items|
  {
    if items != [] {
      IndexKeyNotReserved(from);
      ArrayEntriesUnreserved(items[1..], from + 1);
    }
  }

  /** An array expression builds an object keyed "0", "1", ..., the value
      under the key of index `i` being the evaluation of element `i`; it is
      built exactly when every element evaluates without error. */
  lemma ArrayResult(cfg: Config, items: seq<Expr>, data: Value)
    requires data.Truthy()
    ensures var r := Evaluate(cfg, EArr(items), data);
      && (r.Success? <==> forall i :: 0 <= i < |items| ==> Evaluate(cfg, items[i], data).Success?)
      && (r.Success? ==>
            && r.value.Obj?
            && |r.value.fields| == |items|
            && forall i :: 0 <= i < |items| ==>
                 r.value.fields[i].0 == IndexKey(i) && Evaluate(cfg, items[i], data) == Success(r.value.fields[i].1))
  {
    var entries := ArrayEntries(items, 0);
    ArrayEntriesUnreserved(items, 0);
    WithoutSelectorAbsent(entries);
    FieldsOutcome(cfg, entries, data);
    var r := Evaluate(cfg, EArr(items), data);
    var built := EvaluateFields(cfg, entries, data);
    assert FieldOf(entries, SelectorKey).None? && FieldOf(entries, TransformKey).None?;
    assert r == EvaluateObject(cfg, entries, data);
    assert r == if built.Success? then Success(Obj(built.value)) else Failure(built.error);
    if r.Success? {
      assert r.value.Obj?;
      assert Keys(r.value.fields) == Keys(entries);
      forall i | 0 <= i < |items| ensures r.value.fields[i].0 == IndexKey(i) {
        assert Keys(r.value.fields)[i] == entries[i].0;
      }
    }
  }

  // ----- Which expressions may throw -----

  /** Every `_selector` reached is a string or a function and every
      `_transform` reached is a function. Entries next to a transform
      are never evaluated, so they are not inspected. */
  predicate ControlsWellTyped(e: Expr)
    decreases Size(e), 2
  {
    match e
    case EObj(entries) => ObjectControlsWellTyped(entries)
    case EArr(items) => ObjectControlsWellTyped(ArrayEntries(items, 0))
    case _ => true
  }

  predicate ObjectControlsWellTyped(entries: seq<(string, Expr)>)
    decreases EntriesSize(entries), 1
  {
    && (match FieldOf(entries, SelectorKey)
        case Some(selector) => selector.EStr? || selector.EFn?
        case None => true)
    && (match FieldOf(entries, TransformKey)
        case Some(transform) => transform.EFn?
        case None => WithoutSelectorShrinks(entries); FieldsControlsWellTyped(WithoutSelector(entries)))
  }

  predicate FieldsControlsWellTyped(fields: seq<(string, Expr)>)
    decreases EntriesSize(fields), 0
  {
    fields == [] || (ControlsWellTyped(fields[0].1) && FieldsControlsWellTyped(fields[1..]))
  }

  /** Malformed data never makes the evaluator throw: an expression whose
      selectors and transforms are well typed succeeds on every data and
      under every resolver. */
  lemma {:induction false} NeverFails(cfg: Config, e: Expr, data: Value)
    requires ControlsWellTyped(e)
    ensures Evaluate(cfg, e, data).Success?
    decreases Size(e), 2
  {
    if data.Truthy() && e.Truthy() {
      match e
      case EObj(entries) => ObjectNeverFails(cfg, entries, data);
      case EArr(items) => ObjectNeverFails(cfg, ArrayEntries(items, 0), data);
      case _ =>
    }
  }

  lemma {:induction false} ObjectNeverFails(cfg: Config, entries: seq<(string, Expr)>, data: Value)
    requires ObjectControlsWellTyped(entries)
    ensures EvaluateObject(cfg, entries, data).Success?
    decreases EntriesSize(entries), 1
  {
    var scope := Rescope(cfg, entries, data);
    assert scope.Success?;
    if FieldOf(entries, TransformKey).None? {
      WithoutSelectorShrinks(entries);
      FieldsNeverFail(cfg, WithoutSelector(entries), scope.value);
    }
  }

  lemma {:induction false} FieldsNeverFail(cfg: Config, fields: seq<(string, Expr)>, data: Value)
    requires FieldsControlsWellTyped(fields)
    ensures EvaluateFields(cfg, fields, data).Success?
    decreases EntriesSize(fields), 0
  {
    if fields != [] {
      NeverFails(cfg, fields[0].1, data);
      FieldsNeverFail(cfg, fields[1..], data);
    }
  }

  // ----- What the resolver is asked -----

  /** Two resolvers that agree on truthy data. */
  ghost predicate AgreeOnTruthyData(c1: Config, c2: Config) {
    forall path: string, d: Value :: d.Truthy() ==> c1.mapFn(path, d) == c2.mapFn(path, d)
  }

  /** The evaluator only ever hands truthy data to the resolver: two
      resolvers that agree on truthy data give the same results. So what
      pluckJson does with falsy data (it returns that data) never shows. */
  lemma {:induction false} ResolverSeesTruthyData(c1: Config, c2: Config, e: Expr, data: Value)
    requires AgreeOnTruthyData(c1, c2)
    ensures Evaluate(c1, e, data) == Evaluate(c2, e, data)
    decreases Size(e), 2
  {
    if data.Truthy() && e.Truthy() {
      match e
      case EObj(entries) => ObjectSeesTruthyData(c1, c2, entries, data);
      case EArr(items) => ObjectSeesTruthyData(c1, c2, ArrayEntries(items, 0), data);
      case _ =>
    }
  }

  lemma {:induction false} ObjectSeesTruthyData(c1: Config, c2: Config, entries: seq<(string, Expr)>, data: Value)
    requires AgreeOnTruthyData(c1, c2)
    requires data.Truthy()
    ensures EvaluateObject(c1, entries, data) == EvaluateObject(c2, entries, data)
    decreases EntriesSize(entries), 1
  {
    var scope := Rescope(c1, entries, data);
    assert scope == Rescope(c2, entries, data);
    if scope.Success? && FieldOf(entries, TransformKey).None? {
      WithoutSelectorShrinks(entries);
      FieldsSeeTruthyData(c1, c2, WithoutSelector(entries), scope.value);
    }
  }

  lemma {:induction false} FieldsSeeTruthyData(c1: Config, c2: Config, fields: seq<(string, Expr)>, data: Value)
    requires AgreeOnTruthyData(c1, c2)
    ensures EvaluateFields(c1, fields, data) == EvaluateFields(c2, fields, data)
    decreases EntriesSize(fields), 0
  {
    if fields != [] {
      ResolverSeesTruthyData(c1, c2, fields[0].1, data);
      FieldsSeeTruthyData(c1, c2, fields[1..], data);
    }
  }

  // ----- Selectors and the default resolver -----

  /** Every entry is a non-empty path string. */
  predicate AllPaths(fields: seq<(string, Expr)>) {
    forall i :: 0 <= i < |fields| ==> fields[i].1.EStr? && fields[i].1.s != ""
  }

  /** Each path entry with `prefix.` put in front of its path. */
  function Prefixed(prefix: string, fields: seq<(string, Expr)>): (r: seq<(string, Expr)>)
    requires AllPaths(fields)
    ensures |r| == |fields| && Keys(r) == Keys(fields)
    ensures forall i :: 0 <= i < |r| ==> r[i].1 == EStr(prefix + "." + fields[i].1.s)
  {
    if fields == [] then []
    else [(fields[0].0, EStr(prefix + "." + fields[0].1.s))] + Prefixed(prefix, fields[1..])
  }

  /** Under the default resolver, a non-empty path evaluated against what
      `prefix` resolves to is the path `prefix.q` evaluated against the data.
      (An empty `q` is a falsy expression and gives the data back.) */
  lemma PrefixedPath(prefix: string, q: string, data: Value)
    requires q != ""
    ensures Evaluate(DefaultConfig, EStr(q), PluckJson(prefix, data))
         == Evaluate(DefaultConfig, EStr(prefix + "." + q), data)
  {
    PluckJsonResult(prefix, data);
    PluckJsonConcat(prefix, q, data);
    if !PluckJson(prefix, data).Truthy() {
      WalkFromNull(Split(q));
    }
  }

  lemma {:induction false} PrefixedFields(prefix: string, fields: seq<(string, Expr)>, data: Value)
    requires data.Truthy()
    requires AllPaths(fields)
    ensures EvaluateFields(DefaultConfig, fields, PluckJson(prefix, data))
         == EvaluateFields(DefaultConfig, Prefixed(prefix, fields), data)
    decreases |fields|
  {
    if fields != [] {
      PrefixedPath(prefix, fields[0].1.s, data);
      var p := Prefixed(prefix, fields);
      assert p[1..] == Prefixed(prefix, fields[1..]);
      assert AllPaths(fields[1..]) by {
        forall i | 0 <= i < |fields[1..]| ensures fields[1..][i].1.EStr? && fields[1..][i].1.s != "" {
          assert fields[1..][i] == fields[i + 1];
        }
      }
      PrefixedFields(prefix, fields[1..], data);
    }
  }

  /** Under the default resolver a string selector is a path prefix:
      `{_selector: p, k: q, ...}` gives what `{k: "p.q", ...}` gives. */
  lemma SelectorIsPathPrefix(prefix: string, fields: seq<(string, Expr)>, data: Value)
    requires AllPaths(fields)
    requires SelectorKey !in Keys(fields) && TransformKey !in Keys(fields)
    ensures Evaluate(DefaultConfig, EObj([(SelectorKey, EStr(prefix))] + fields), data)
         == Evaluate(DefaultConfig, EObj(Prefixed(prefix, fields)), data)
  {
    if data.Truthy() {
      var cfg := DefaultConfig;
      var entries := [(SelectorKey, EStr(prefix))] + fields;
      var scoped := PluckJson(prefix, data);
      assert entries[0] == (SelectorKey, EStr(prefix)) && entries[1..] == fields;
      WithoutSelectorAbsent(fields);
      assert WithoutSelector(entries) == fields;
      assert FieldOf(entries, TransformKey) == FieldOf(fields, TransformKey);
      assert Rescope(cfg, entries, data) == Success(scoped);
      var lhs := EvaluateFields(cfg, fields, scoped);
      assert Evaluate(cfg, EObj(entries), data)
          == if lhs.Success? then Success(Obj(lhs.value)) else Failure(lhs.error);
      var p := Prefixed(prefix, fields);
      WithoutSelectorAbsent(p);
      assert Rescope(cfg, p, data) == Success(data);
      var rhs := EvaluateFields(cfg, p, data);
      assert Evaluate(cfg, EObj(p), data)
          == if rhs.Success? then Success(Obj(rhs.value)) else Failure(rhs.error);
      PrefixedFields(prefix, fields, data);
    }
  }
}
