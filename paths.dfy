/**
 * The default path resolver `pluckJson`: a dotted path is split on `.` and
 * the data is read one segment at a time, every falsy step giving `null`.
 */
module Paths {
  import opened Json

  /** `path.split(".")`: the maximal dot-free pieces between the dots, in order.
      There is always one segment more than there are dots; `""` splits into `[""]`. */
  function Split(path: string): (segments: seq<string>)
    ensures |segments| == 1 + Dots(path)
    ensures forall i :: 0 <= i < |segments| ==> '.' !in segments[i]
  {
    if path == [] then [""]
    else
      var rest := Split(path[1..]);
      if path[0] == '.' then [""] + rest
      else [[path[0]] + rest[0]] + rest[1..]
  }

  /** The number of `.` characters in a string. */
  function Dots(s: string): nat {
    if s == [] then 0 else (if s[0] == '.' then 1 else 0) + Dots(s[1..])
  }

  /** `segments.join(".")`. */
  function Join(segments: seq<string>): string
    requires |segments| > 0
  {
    if |segments| == 1 then segments[0] else segments[0] + "." + Join(segments[1..])
  }

  /** Joining the segments of a path gives the path back. */
  lemma {:induction false} JoinSplit(path: string)
    ensures Join(Split(path)) == path
  {
    if path != [] {
      JoinSplit(path[1..]);
      var rest := Split(path[1..]);
      if path[0] == '.' {
        assert path == "." + Join(rest);
      } else if |rest| == 1 {
        assert path == [path[0]] + rest[0];
      } else {
        assert Join(rest) == rest[0] + "." + Join(rest[1..]);
        assert path == ([path[0]] + rest[0]) + "." + Join(rest[1..]);
        assert rest[1..] == Split(path)[1..];
      }
    }
  }

  /** Splitting a dot-free piece followed by the rest of a path. */
  lemma {:induction false} SplitDotFreePrefix(a: string, rest: string)
    requires '.' !in a
    ensures Split(a + rest) == [a + Split(rest)[0]] + Split(rest)[1..]
  {
    if a != [] {
      assert (a + rest)[1..] == a[1..] + rest;
      SplitDotFreePrefix(a[1..], rest);
      var parts, r := Split(rest), Split(a[1..] + rest);
      assert a[0] != '.' && (a + rest)[0] == a[0];
      assert r[0] == a[1..] + parts[0] && r[1..] == parts[1..];
      assert [a[0]] + r[0] == a + parts[0];
    } else {
      assert a + rest == rest;
      var parts := Split(rest);
      assert a + parts[0] == parts[0];
      assert parts == [parts[0]] + parts[1..];
    }
  }

  /** A path without dots is a single segment. */
  lemma SplitDotFree(path: string)
    requires '.' !in path
    ensures Split(path) == [path]
  {
    SplitDotFreePrefix(path, "");
    assert path + "" == path;
  }

  /** Splitting a joined list of dot-free segments gives the segments back. */
  lemma {:induction false} SplitJoin(segments: seq<string>)
    requires |segments| > 0
    requires forall i :: 0 <= i < |segments| ==> '.' !in segments[i]
    ensures Split(Join(segments)) == segments
  {
    if |segments| == 1 {
      SplitDotFreePrefix(segments[0], "");
      assert segments[0] + "" == segments[0];
    } else {
      var tail := Join(segments[1..]);
      SplitJoin(segments[1..]);
      SplitDotFreePrefix(segments[0], "." + tail);
      assert (segments[0] + ".") + tail == segments[0] + ("." + tail);
      assert ("." + tail)[0] == '.' && ("." + tail)[1..] == tail;
      assert Split("." + tail) == [""] + segments[1..];
      assert segments[0] + "" == segments[0];
    }
  }

  /** The segments of `p + "." + q` are those of `p` followed by those of `q`. */
  lemma {:induction false} SplitConcat(p: string, q: string)
    ensures Split(p + "." + q) == Split(p) + Split(q)
  {
    if p == [] {
      assert p + "." + q == "." + q;
      assert ("." + q)[1..] == q;
    } else {
      assert (p + "." + q)[1..] == p[1..] + "." + q;
      SplitConcat(p[1..], q);
    }
  }

  /** One step of the `reduce` in pluckJson: `prev && prev[curr] || null`. */
  function Step(prev: Value, segment: string): Value {
    if prev.Truthy() && Get(prev, segment).Truthy() then Get(prev, segment) else Null
  }

  /** The `reduce` over the segments, from the initial value `prev`. */
  function Walk(segments: seq<string>, prev: Value): Value {
    if segments == [] then prev else Walk(segments[1..], Step(prev, segments[0]))
  }

  /** `pluckJson(path, data)`: falsy data is returned as it is (`data && ...`);
      otherwise the data is walked along the dotted path. */
  function PluckJson(path: string, data: Value): Value {
    if !data.Truthy() then data else Walk(Split(path), data)
  }

  /** Field access along a list of segments, with no truthiness test. */
  function Lookup(v: Value, segments: seq<string>): Value
    decreases segments
  {
    if segments == [] then v else Lookup(Get(v, segments[0]), segments[1..])
  }

  /** Every lookup along the segments, the last one included, is truthy. */
  predicate Reaches(v: Value, segments: seq<string>) {
    forall k :: 0 < k <= |segments| ==> Lookup(v, segments[..k]).Truthy()
  }

  /** Once a step yields `null`, the rest of the walk stays `null`. */
  lemma {:induction false} WalkFromNull(segments: seq<string>)
    ensures Walk(segments, Null) == Null
  {
    if segments != [] {
      WalkFromNull(segments[1..]);
    }
  }

  /** The walk from truthy data yields the value at the end of the path when
      every step along the way is truthy, and `null` as soon as one is not. */
  lemma {:induction false} WalkReaches(segments: seq<string>, v: Value)
    requires v.Truthy()
    ensures Walk(segments, v) == if Reaches(v, segments) then Lookup(v, segments) else Null
  {
    if segments != [] {
      var s, rest := segments[0], segments[1..];
      var next := Get(v, s);
      assert segments[..1] == [s];
      assert Lookup(v, segments[..1]) == next;
      forall k | 0 < k <= |rest|
        ensures Lookup(v, segments[..k + 1]) == Lookup(next, rest[..k])
      {
        assert segments[..k + 1][1..] == rest[..k];
      }
      if next.Truthy() {
        WalkReaches(rest, next);
        assert Reaches(v, segments) <==> Reaches(next, rest) by {
          if Reaches(next, rest) {
            forall k | 0 < k <= |segments| ensures Lookup(v, segments[..k]).Truthy() {
              if k > 1 {
                assert Lookup(v, segments[..k]) == Lookup(next, rest[..k - 1]);
              }
            }
          }
          if Reaches(v, segments) {
            forall k | 0 < k <= |rest| ensures Lookup(next, rest[..k]).Truthy() {
              assert Lookup(v, segments[..k + 1]).Truthy();
            }
          }
        }
      } else {
        WalkFromNull(rest);
        assert !Lookup(v, segments[..1]).Truthy();
      }
    }
  }

  /** pluckJson never fails. On falsy data it returns that data. On truthy
      data it returns the value at the last segment when every lookup along
      the path is truthy, and `null` otherwise; so it never returns a falsy
      value other than `null`. */
  lemma PluckJsonResult(path: string, data: Value)
    ensures !data.Truthy() ==> PluckJson(path, data) == data
    ensures data.Truthy() ==>
      PluckJson(path, data) == if Reaches(data, Split(path)) then Lookup(data, Split(path)) else Null
    ensures data.Truthy() ==> PluckJson(path, data) == Null || PluckJson(path, data).Truthy()
  {
    if data.Truthy() {
      WalkReaches(Split(path), data);
      var segments := Split(path);
      if Reaches(data, segments) {
        assert segments[..|segments|] == segments;
      }
    }
  }

  /** A walk over two lists of segments is the walk over the second, started
      where the walk over the first ended. */
  lemma {:induction false} WalkConcat(a: seq<string>, b: seq<string>, v: Value)
    ensures Walk(a + b, v) == Walk(b, Walk(a, v))
  {
    if a != [] {
      assert (a + b)[1..] == a[1..] + b;
      WalkConcat(a[1..], b, Step(v, a[0]));
    } else {
      assert a + b == b;
    }
  }

  /** Resolving `p.q` is resolving `q` in what `p` resolves to. */
  lemma PluckJsonConcat(p: string, q: string, data: Value)
    ensures PluckJson(p + "." + q, data) == PluckJson(q, PluckJson(p, data))
  {
    if data.Truthy() {
      SplitConcat(p, q);
      WalkConcat(Split(p), Split(q), data);
      PluckJsonResult(p, data);
      if !PluckJson(p, data).Truthy() {
        WalkFromNull(Split(q));
      }
    }
  }

  /** A path whose first segment is an array index reads that element of
      array data and resolves the rest of the path inside it. */
  lemma ArrayElementPath(items: seq<Value>, i: nat, rest: string)
    requires i < |items|
    ensures PluckJson(IndexKey(i) + "." + rest, Arr(items))
         == if items[i].Truthy() then PluckJson(rest, items[i]) else Null
  {
    var key := IndexKey(i);
    IndexKeyRoundTrip(i);
    assert '.' !in key by {
      forall j | 0 <= j < |key| ensures key[j] != '.' {
        assert IsDigit(key[j]);
      }
    }
    SplitDotFree(key);
    GetArrayIndex(items, i);
    assert [key][1..] == [];
    assert Walk([key], Arr(items)) == Walk([], Step(Arr(items), key));
    PluckJsonConcat(key, rest, Arr(items));
  }
}
