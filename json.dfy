/**
 * The JSON-like values that the mapper reads from and builds: the data tree,
 * what a path resolver returns and what the mapper produces.
 */
module Json {
  import opened Wrappers

  /** A JavaScript value as it occurs in a data tree. An object is the ordered
      list of its own entries, as `Object.entries` would list them. */
  datatype Value =
    | Undefined
    | Null
    | Bool(b: bool)
    | Num(n: int)
    | Str(s: string)
    | Arr(items: seq<Value>)
    | Obj(fields: seq<(string, Value)>)
  {
    /** JavaScript truthiness: `undefined`, `null`, `false`, `0` and `""` are the
        falsy values; every array and every object is truthy. */
    predicate Truthy() {
      match this
      case Undefined => false
      case Null => false
      case Bool(b) => b
      case Num(n) => n != 0
      case Str(s) => s != ""
      case Arr(_) => true
      case Obj(_) => true
    }
  }

  /** The keys of an entry list, in order. */
  function Keys<T>(entries: seq<(string, T)>): (ks: seq<string>)
    ensures |ks| == |entries|
    ensures forall i :: 0 <= i < |entries| ==> ks[i] == entries[i].0
  {
    if entries == [] then [] else [entries[0].0] + Keys(entries[1..])
  }

  /** A JavaScript object never holds the same own key twice. */
  predicate DistinctKeys<T>(entries: seq<(string, T)>) {
    forall i, j :: 0 <= i < j < |entries| ==> entries[i].0 != entries[j].0
  }

  /** The value stored under `key`, if the entry list has that key. */
  function FieldOf<T>(entries: seq<(string, T)>, key: string): (r: Option<T>)
    ensures r.None? <==> key !in Keys(entries)
  {
    if entries == [] then None
    else if entries[0].0 == key then Some(entries[0].1)
    else FieldOf(entries[1..], key)
  }

  lemma {:induction false} FieldOfDistinct<T>(entries: seq<(string, T)>, i: nat)
    requires i < |entries|
    requires DistinctKeys(entries)
    ensures FieldOf(entries, entries[i].0) == Some(entries[i].1)
  {
    if i > 0 {
      assert entries[0].0 != entries[i].0;
      FieldOfDistinct(entries[1..], i - 1);
    }
  }

  predicate IsDigit(c: char) {
    '0' <= c <= '9'
  }

  function DigitChar(d: nat): (c: char)
    requires d < 10
    ensures IsDigit(c)
  {
    ('0' as int + d) as char
  }

  /** A canonical array-index key: decimal digits with no leading zero. */
  predicate IsIndexKey(k: string) {
    && |k| > 0
    && (forall i :: 0 <= i < |k| ==> IsDigit(k[i]))
    && (k[0] == '0' ==> |k| == 1)
  }

  /** The number a string of decimal digits denotes. */
  function DigitsValue(k: string): nat
    requires forall i :: 0 <= i < |k| ==> IsDigit(k[i])
  {
    if k == [] then 0
    else
      assert IsDigit(k[|k| - 1]);
      DigitsValue(k[..|k| - 1]) * 10 + (k[|k| - 1] as int - '0' as int)
  }

  /** The key under which an array holds its element `n`: `n` written in decimal. */
  function IndexKey(n: nat): string
  {
    if n < 10 then [DigitChar(n)] else IndexKey(n / 10) + [DigitChar(n % 10)]
  }

  /** Writing an index as a key and reading it back gives the index. */
  lemma {:induction false} IndexKeyRoundTrip(n: nat)
    ensures IsIndexKey(IndexKey(n))
    ensures DigitsValue(IndexKey(n)) == n
    ensures n > 0 ==> IndexKey(n)[0] != '0'
  {
    if n >= 10 {
      IndexKeyRoundTrip(n / 10);
      var k := IndexKey(n);
      assert k[..|k| - 1] == IndexKey(n / 10);
    }
  }

  lemma {:induction false} LeadingDigitPositive(k: string)
    requires |k| > 0 && (forall i :: 0 <= i < |k| ==> IsDigit(k[i]))
    requires k[0] != '0'
    ensures DigitsValue(k) >= 1
  {
    if |k| > 1 {
      LeadingDigitPositive(k[..|k| - 1]);
    }
  }

  /** Every canonical index key is the decimal form of the index it denotes. */
  lemma {:induction false} IndexKeyOfDigits(k: string)
    requires IsIndexKey(k)
    ensures IndexKey(DigitsValue(k)) == k
  {
    if |k| > 1 {
      var k' := k[..|k| - 1];
      LeadingDigitPositive(k');
      IndexKeyOfDigits(k');
      assert k == k' + [k[|k| - 1]];
    }
  }

  /** Two indices have the same key only if they are equal. */
  lemma IndexKeyInjective(m: nat, n: nat)
    requires IndexKey(m) == IndexKey(n)
    ensures m == n
  {
    IndexKeyRoundTrip(m);
    IndexKeyRoundTrip(n);
  }

  /** `value[key]` on own properties: an object's entry, an array's or a
      string's element at a canonical index, the `length` of an array or a
      string; `undefined` for everything else. */
  function Get(v: Value, key: string): (r: Value)
  {
    match v
    case Obj(fields) =>
      (match FieldOf(fields, key)
       case Some(x) => x
       case None => Undefined)
    case Arr(items) =>
      if key == "length" then Num(|items|)
      else if IsIndexKey(key) && DigitsValue(key) < |items| then items[DigitsValue(key)]
      else Undefined
    case Str(s) =>
      if key == "length" then Num(|s|)
      else if IsIndexKey(key) && DigitsValue(key) < |s| then Str([s[DigitsValue(key)]])
      else Undefined
    case _ => Undefined
  }

  /** Reading an object: the entry's value under a present key, `undefined`
      under an absent one. */
  lemma GetObject(fields: seq<(string, Value)>, key: string)
    requires DistinctKeys(fields)
    ensures key !in Keys(fields) ==> Get(Obj(fields), key) == Undefined
    ensures forall i :: 0 <= i < |fields| && fields[i].0 == key ==> Get(Obj(fields), key) == fields[i].1
  {
    forall i | 0 <= i < |fields| && fields[i].0 == key
      ensures Get(Obj(fields), key) == fields[i].1
    {
      FieldOfDistinct(fields, i);
    }
  }

  /** Reading an array at the key of index `i` yields element `i`; past the end, `undefined`. */
  lemma GetArrayIndex(items: seq<Value>, i: nat)
    ensures i < |items| ==> Get(Arr(items), IndexKey(i)) == items[i]
    ensures i >= |items| ==> Get(Arr(items), IndexKey(i)) == Undefined
  {
    IndexKeyRoundTrip(i);
  }
}
