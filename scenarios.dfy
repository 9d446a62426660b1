/**
 * The behaviours the repository's test suite describes, as lemmas about
 * concrete expressions and data.
 */
module Scenarios {
  import opened Wrappers
  import opened Json
  import opened Paths
  import opened DataMap
  import opened MapLaws

  /** Resolving a single-segment path by the default resolver reads one field. */
  lemma PluckField(key: string, fields: seq<(string, Value)>)
    requires '.' !in key
    ensures PluckJson(key, Obj(fields)) == (if Get(Obj(fields), key).Truthy() then Get(Obj(fields), key) else Null)
  {
    SplitDotFree(key);
    var data := Obj(fields);
    assert [key][1..] == [];
    assert Walk([key], data) == Walk([], Step(data, key));
  }

  /** A path to a truthy field of object data evaluates to that field. */
  lemma PathField(key: string, fields: seq<(string, Value)>)
    requires key != "" && '.' !in key
    requires Get(Obj(fields), key).Truthy()
    ensures Evaluate(DefaultConfig, EStr(key), Obj(fields)) == Success(Get(Obj(fields), key))
  {
    PluckField(key, fields);
  }

  /** Without a configuration, mapData evaluates with the default resolver. */
  lemma DefaultMapData(e: Expr, data: Value)
    ensures MapData(e, data, None) == Evaluate(DefaultConfig, e, data)
  {
  }

  /** The reduce over one more entry. */
  lemma FieldsCons(cfg: Config, key: string, e: Expr, rest: seq<(string, Expr)>, data: Value, v: Value, vs: seq<(string, Value)>)
    requires Evaluate(cfg, e, data) == Success(v)
    requires EvaluateFields(cfg, rest, data) == Success(vs)
    ensures EvaluateFields(cfg, [(key, e)] + rest, data) == Success([(key, v)] + vs)
  {
    assert ([(key, e)] + rest)[1..] == rest;
  }

  /** The reduce over a single entry. */
  lemma FieldsSingle(cfg: Config, key: string, e: Expr, data: Value, v: Value)
    requires Evaluate(cfg, e, data) == Success(v)
    ensures EvaluateFields(cfg, [(key, e)], data) == Success([(key, v)])
  {
    assert [(key, e)][1..] == [];
    assert EvaluateFields(cfg, [], data) == Success([]);
    assert [(key, v)] + [] == [(key, v)];
  }

  /** An object expression without reserved keys gives the object of its entries' results. */
  lemma PlainObject(cfg: Config, entries: seq<(string, Expr)>, data: Value, vs: seq<(string, Value)>)
    requires data.Truthy()
    requires SelectorKey !in Keys(entries) && TransformKey !in Keys(entries)
    requires EvaluateFields(cfg, entries, data) == Success(vs)
    ensures Evaluate(cfg, EObj(entries), data) == Success(Obj(vs))
  {
    WithoutSelectorAbsent(entries);
    assert FieldOf(entries, SelectorKey).None? && FieldOf(entries, TransformKey).None?;
    assert Evaluate(cfg, EObj(entries), data) == EvaluateObject(cfg, entries, data);
  }

  function John(): Value {
    Obj([("name", Str("John")), ("age", Num(20))])
  }

  /** Null data gives null, whatever the expression. */
  lemma InvalidData()
    ensures MapData(EObj([("name", EStr("name"))]), Null, None) == Success(Null)
  {
  }

  /** A null expression gives the data back unchanged. */
  lemma InvalidExpression()
    ensures MapData(ENull, John(), None) == Success(John())
  {
  }

  /** `{fullName: "name"}` on `{name: "John", age: 20}` is `{fullName: "John"}`. */
  lemma SingleProperty()
    ensures MapData(EObj([("fullName", EStr("name"))]), John(), None) == Success(Obj([("fullName", Str("John"))]))
  {
    var entries := [("fullName", EStr("name"))];
    assert Keys(entries) == ["fullName"];
    assert Get(John(), "name") == Str("John");
    PathField("name", John().fields);
    DefaultMapData(EObj(entries), John());
    FieldsSingle(DefaultConfig, "fullName", EStr("name"), John(), Str("John"));
    PlainObject(DefaultConfig, entries, John(), [("fullName", Str("John"))]);
  }

  function Buyer(): Value {
    Obj([("id", Num(1)), ("name", Str("John"))])
  }

  /** The nested `{name: "name"}` reads the name of the same data. */
  lemma BuyerName()
    ensures Evaluate(DefaultConfig, EObj([("name", EStr("name"))]), Buyer()) == Success(Obj([("name", Str("John"))]))
  {
    var inner := [("name", EStr("name"))];
    assert Keys(inner) == ["name"];
    assert Get(Buyer(), "name") == Str("John");
    PathField("name", Buyer().fields);
    FieldsSingle(DefaultConfig, "name", EStr("name"), Buyer(), Str("John"));
    PlainObject(DefaultConfig, inner, Buyer(), [("name", Str("John"))]);
  }

  /** `{id: "id", buyer: {name: "name"}}` on `{id: 1, name: "John"}`
      is `{id: 1, buyer: {name: "John"}}`. */
  lemma MultipleLevel()
    ensures MapData(EObj([("id", EStr("id")), ("buyer", EObj([("name", EStr("name"))]))]), Buyer(), None)
         == Success(Obj([("id", Num(1)), ("buyer", Obj([("name", Str("John"))]))]))
  {
    var cfg := DefaultConfig;
    assert Get(Buyer(), "id") == Num(1);
    PathField("id", Buyer().fields);
    BuyerName();
    var outer := [("buyer", EObj([("name", EStr("name"))]))];
    FieldsSingle(cfg, "buyer", EObj([("name", EStr("name"))]), Buyer(), Obj([("name", Str("John"))]));
    FieldsCons(cfg, "id", EStr("id"), outer, Buyer(), Num(1), [("buyer", Obj([("name", Str("John"))]))]);
    var entries := [("id", EStr("id"))] + outer;
    assert Keys(entries) == ["id", "buyer"];
    PlainObject(cfg, entries, Buyer(), [("id", Num(1))] + [("buyer", Obj([("name", Str("John"))]))]);
    assert entries == [("id", EStr("id")), ("buyer", EObj([("name", EStr("name"))]))];
    assert [("id", Num(1))] + [("buyer", Obj([("name", Str("John"))]))]
        == [("id", Num(1)), ("buyer", Obj([("name", Str("John"))]))];
    DefaultMapData(EObj(entries), Buyer());
  }

  /** A string expression is resolved by the default resolver. */
  lemma StringExpression()
    ensures MapData(EStr("name"), Obj([("name", Str("John"))]), None) == Success(Str("John"))
  {
    assert Get(Obj([("name", Str("John"))]), "name") == Str("John");
    PathField("name", [("name", Str("John"))]);
    DefaultMapData(EStr("name"), Obj([("name", Str("John"))]));
  }

  /** An expression that is neither an object nor a string gives null. */
  lemma NonStringExpression()
    ensures MapData(ENum(123), John(), None) == Success(Null)
  {
  }

  /** A supplied resolver replaces the default one. */
  lemma ChangeMapFn()
    ensures MapData(EObj([("name", EStr("name"))]), John(), Some(Config((path, data) => Num(1))))
         == Success(Obj([("name", Num(1))]))
  {
    var cfg := Config((path, data) => Num(1));
    var entries := [("name", EStr("name"))];
    assert Keys(entries) == ["name"];
    assert Evaluate(cfg, EStr("name"), John()) == Success(Num(1));
    FieldsSingle(cfg, "name", EStr("name"), John(), Num(1));
    PlainObject(cfg, entries, John(), [("name", Num(1))]);
  }

  function NameData(): Value {
    Obj([("name", Obj([("first", Str("John")), ("last", Str("Doe"))]))])
  }

  function FirstName(): Value {
    Obj([("first", Str("John")), ("last", Str("Doe"))])
  }

  /** With the data re-scoped to the name, `{first: "first"}` reads the first name. */
  lemma FirstOfName()
    ensures Evaluate(DefaultConfig, EObj([("first", EStr("first"))]), FirstName()) == Success(Obj([("first", Str("John"))]))
  {
    var entries := [("first", EStr("first"))];
    assert Keys(entries) == ["first"];
    assert Get(FirstName(), "first") == Str("John");
    PathField("first", FirstName().fields);
    FieldsSingle(DefaultConfig, "first", EStr("first"), FirstName(), Str("John"));
    PlainObject(DefaultConfig, entries, FirstName(), [("first", Str("John"))]);
  }

  /** An object whose selector picks truthy data evaluates its other
      entries against that data. */
  lemma SelectedObject(cfg: Config, selector: Expr, rest: seq<(string, Expr)>, data: Value, scoped: Value)
    requires data.Truthy() && scoped.Truthy()
    requires EvaluateSelector(cfg, selector, data) == Success(scoped)
    requires SelectorKey !in Keys(rest) && TransformKey !in Keys(rest)
    ensures Evaluate(cfg, EObj([(SelectorKey, selector)] + rest), data) == Evaluate(cfg, EObj(rest), scoped)
  {
    var entries := [(SelectorKey, selector)] + rest;
    assert entries[0] == (SelectorKey, selector) && entries[1..] == rest;
    WithoutSelectorAbsent(rest);
    assert WithoutSelector(entries) == rest;
    assert FieldOf(entries, TransformKey) == FieldOf(rest, TransformKey);
    assert Rescope(cfg, entries, data) == Success(scoped);
    assert Rescope(cfg, rest, scoped) == Success(scoped);
    ObjectUnfold(cfg, entries, data);
    ObjectUnfold(cfg, rest, scoped);
  }

  /** A string selector re-scopes the data of the object expression. */
  lemma SelectorChangesContext()
    ensures MapData(EObj([(SelectorKey, EStr("name")), ("first", EStr("first"))]), NameData(), None)
         == Success(Obj([("first", Str("John"))]))
  {
    var rest := [("first", EStr("first"))];
    assert Keys(rest) == ["first"];
    assert Get(NameData(), "name") == FirstName();
    PluckField("name", NameData().fields);
    SelectedObject(DefaultConfig, EStr("name"), rest, NameData(), FirstName());
    FirstOfName();
    assert [(SelectorKey, EStr("name"))] + rest == [(SelectorKey, EStr("name")), ("first", EStr("first"))];
    DefaultMapData(EObj([(SelectorKey, EStr("name")), ("first", EStr("first"))]), NameData());
  }

  /** A function selector re-scopes the data to its result. */
  lemma SelectorFunction()
    ensures MapData(EObj([(SelectorKey, EFn(data => Get(data, "name"))), ("first", EStr("first"))]), NameData(), None)
         == Success(Obj([("first", Str("John"))]))
  {
    var selector := EFn(data => Get(data, "name"));
    var rest := [("first", EStr("first"))];
    assert Keys(rest) == ["first"];
    assert Get(NameData(), "name") == FirstName();
    SelectedObject(DefaultConfig, selector, rest, NameData(), FirstName());
    FirstOfName();
    assert [(SelectorKey, selector)] + rest == [(SelectorKey, selector), ("first", EStr("first"))];
    DefaultMapData(EObj([(SelectorKey, selector), ("first", EStr("first"))]), NameData());
  }

  function DateData(): Value {
    Obj([("date", Str("2020-01-01T08:00:00"))])
  }

  /** An object holding a path selector and a transform hands the selected
      data to the transform. */
  lemma SelectedTransform(cfg: Config, path: string, transform: Expr, data: Value)
    requires data.Truthy()
    ensures Evaluate(cfg, EObj([(SelectorKey, EStr(path)), (TransformKey, transform)]), data)
         == EvaluateTransform(transform, cfg.mapFn(path, data))
  {
    var entries := [(SelectorKey, EStr(path)), (TransformKey, transform)];
    assert FieldOf(entries, SelectorKey) == Some(EStr(path));
    assert FieldOf(entries, TransformKey) == Some(transform);
    assert Evaluate(cfg, EObj(entries), data) == EvaluateObject(cfg, entries, data);
  }

  /** A transform receives the data its selector picked. */
  lemma TransformExpression(toDate: Value -> Value)
    ensures MapData(EObj([("date", EObj([(SelectorKey, EStr("date")), (TransformKey, EFn(toDate))]))]), DateData(), None)
         == Success(Obj([("date", toDate(Str("2020-01-01T08:00:00")))]))
  {
    var cfg := DefaultConfig;
    var inner := [(SelectorKey, EStr("date")), (TransformKey, EFn(toDate))];
    assert Get(DateData(), "date") == Str("2020-01-01T08:00:00");
    PluckField("date", DateData().fields);
    SelectedTransform(cfg, "date", EFn(toDate), DateData());
    var result := toDate(Str("2020-01-01T08:00:00"));
    FieldsSingle(cfg, "date", EObj(inner), DateData(), result);
    var entries := [("date", EObj(inner))];
    assert Keys(entries) == ["date"];
    PlainObject(cfg, entries, DateData(), [("date", result)]);
    DefaultMapData(EObj(entries), DateData());
  }

  /** A transform that is not a function throws InvalidTransform. */
  lemma TransformNotFunction()
    ensures MapData(EObj([("date", EObj([(SelectorKey, EStr("date")), (TransformKey, EStr("blah"))]))]), DateData(), None)
         == Failure(InvalidTransform)
  {
    var cfg := DefaultConfig;
    var inner := [(SelectorKey, EStr("date")), (TransformKey, EStr("blah"))];
    SelectedTransform(cfg, "date", EStr("blah"), DateData());
    var entries := [("date", EObj(inner))];
    assert Keys(entries) == ["date"];
    WithoutSelectorAbsent(entries);
    assert EvaluateFields(cfg, entries, DateData()) == Failure(InvalidTransform);
    ObjectUnfold(cfg, entries, DateData());
    DefaultMapData(EObj(entries), DateData());
  }

  /** An object expression over array data is not applied to each element:
      the array is read like any object, and has no `name` field. */
  lemma NoBroadcast()
    ensures MapData(EObj([("name", EStr("name"))]), Arr([Obj([("id", Num(1)), ("name", Str("Item 1"))])]), None)
         == Success(Obj([("name", Null)]))
  {
    var data := Arr([Obj([("id", Num(1)), ("name", Str("Item 1"))])]);
    var entries := [("name", EStr("name"))];
    assert Keys(entries) == ["name"];
    SplitDotFree("name");
    assert !IsIndexKey("name") && "name" != "length";
    assert [("name")][1..] == [];
    assert PluckJson("name", data) == Step(data, "name");
    assert Evaluate(DefaultConfig, EStr("name"), data) == Success(Null);
    FieldsSingle(DefaultConfig, "name", EStr("name"), data, Null);
    PlainObject(DefaultConfig, entries, data, [("name", Null)]);
  }

  /** Without a selector, the transform receives the root data. */
  lemma TransformRootData(toDate: Value -> Value)
    ensures MapData(EObj([(TransformKey, EFn(toDate))]), DateData(), None) == Success(toDate(DateData()))
  {
    var entries := [(TransformKey, EFn(toDate))];
    assert Keys(entries) == [TransformKey];
    TransformResult(DefaultConfig, entries, DateData());
  }
}
