/** Parsed JSON values as the dashboard's JavaScript sees them, with the
    language's truthiness, its `||` and `??` operators, property reads and
    strict equality. Numbers are exact reals. Parsing never yields `NaN`; a
    parsed `-0` behaves as `0` in every operation modelled here (truthiness,
    `typeof`, `===`, the chart arithmetic), so it is represented by `0`. */
module Js {
  import opened Wrappers
  import Decimal

  datatype Json =
    | Undefined
    | Null
    | Bool(b: bool)
    | Num(n: real)
    | Str(s: string)
    | Arr(items: seq<Json>)
    /** An object as the parser leaves it: its own properties in enumeration order. */
    | Obj(fields: seq<(string, Json)>)

  /** `null` or `undefined`: the values `??` skips and property reads reject. */
  predicate Nullish(v: Json) {
    v.Undefined? || v.Null?
  }

  /** The falsy values of ECMAScript's ToBoolean that parsed JSON can hold:
      `NaN` and `0n` never arise, and `-0` is represented by `0`. */
  const FalsyValues: set<Json> := {Undefined, Null, Bool(false), Num(0.0), Str("")}

  /** JavaScript's truthiness: `undefined`, `null`, `false`, `0` and `''` are
      falsy; every array and object, even an empty one, is truthy. */
  function Truthy(v: Json): (r: bool)
    ensures r <==> v !in FalsyValues
  {
    match v
    case Undefined => false
    case Null => false
    case Bool(b) => b
    case Num(n) => n != 0.0
    case Str(s) => s != ""
    case Arr(_) => true
    case Obj(_) => true
  }

  predicate AllFalsy(vs: seq<Json>) {
    forall i :: 0 <= i < |vs| ==> !Truthy(vs[i])
  }

  /** No operand before index `i` is truthy. */
  predicate FalsyBefore(vs: seq<Json>, i: int) {
    forall j :: 0 <= j < i && j < |vs| ==> !Truthy(vs[j])
  }

  /** `r` is what a fallback chain over `vs` should yield: the first truthy
      operand, or the last operand when none is truthy. */
  ghost predicate FirstTruthyOrLast(vs: seq<Json>, r: Json)
    requires |vs| > 0
  {
    if AllFalsy(vs) then r == vs[|vs| - 1]
    else Truthy(r) && exists i :: 0 <= i < |vs| && vs[i] == r && FalsyBefore(vs, i)
  }

  /** JavaScript's binary `a || b`: one of its operands, truthy exactly when
      either operand is. */
  function Or(a: Json, b: Json): (r: Json)
    ensures r == a || r == b
    ensures Truthy(r) <==> Truthy(a) || Truthy(b)
    ensures Truthy(a) ==> r == a
  {
    if Truthy(a) then a else b
  }

  /** JavaScript's binary `a ?? b`: one of its operands, nullish exactly when
      both are. */
  function Coalesce(a: Json, b: Json): (r: Json)
    ensures r == a || r == b
    ensures Nullish(r) <==> Nullish(a) && Nullish(b)
    ensures !Nullish(a) ==> r == a
  {
    if Nullish(a) then b else a
  }

  /** The source's fallback chain `vs[0] || vs[1] || ... || vs[k]`, grouped to
      the left as JavaScript parses it. */
  function OrChain(vs: seq<Json>): (r: Json)
    requires |vs| > 0
    ensures r in vs
    ensures Truthy(r) <==> !AllFalsy(vs)
    decreases |vs|
  {
    if |vs| == 1 then vs[0]
    else
      var pre := vs[..|vs| - 1];
      assert forall x :: x in pre ==> x in vs;
      Or(OrChain(pre), vs[|vs| - 1])
  }

  /** The fallback chain read from the front: the first truthy operand, else the last. */
  function OrElse(vs: seq<Json>): (r: Json)
    requires |vs| > 0
    ensures FirstTruthyOrLast(vs, r)
    ensures r in vs
  {
    if |vs| == 1 || Truthy(vs[0]) then
      vs[0]
    else
      var r := OrElse(vs[1..]);
      FirstTruthyOrLastShift(vs, r);
      r
  }

  /** Skipping a falsy head keeps the "first truthy, else last" reading. */
  lemma FirstTruthyOrLastShift(vs: seq<Json>, r: Json)
    requires |vs| > 1 && !Truthy(vs[0])
    requires FirstTruthyOrLast(vs[1..], r)
    ensures FirstTruthyOrLast(vs, r)
  {
    if AllFalsy(vs[1..]) {
      assert AllFalsy(vs) by {
        forall k | 0 <= k < |vs| ensures !Truthy(vs[k]) {
          if k > 0 {
            assert vs[k] == vs[1..][k - 1];
          }
        }
      }
    } else {
      var i :| 0 <= i < |vs[1..]| && vs[1..][i] == r && FalsyBefore(vs[1..], i);
      assert vs[i + 1] == r;
      assert !AllFalsy(vs) by {
        assert Truthy(vs[i + 1]);
      }
    }
  }

  /** Two indices that are both "first truthy" in `vs` are the same index. */
  lemma FirstTruthyUnique(vs: seq<Json>, i: nat, j: nat)
    requires i < |vs| && j < |vs|
    requires Truthy(vs[i]) && FalsyBefore(vs, i)
    requires Truthy(vs[j]) && FalsyBefore(vs, j)
    ensures i == j
  {
  }

  /** A chain yields a truthy value exactly when some operand is truthy, and
      a truthy head always wins. */
  lemma FirstTruthyFacts(vs: seq<Json>, r: Json)
    requires |vs| > 0 && FirstTruthyOrLast(vs, r)
    ensures Truthy(r) <==> !AllFalsy(vs)
    ensures Truthy(vs[0]) ==> r == vs[0]
  {
    if !AllFalsy(vs) {
      var i :| 0 <= i < |vs| && vs[i] == r && FalsyBefore(vs, i);
      if Truthy(vs[0]) {
          FirstTruthyUnique(vs, i, 0);
      }
    }
  }

  /** A two-operand chain `a || b`, case by case. */
  lemma FirstTruthyOfTwo(a: Json, b: Json, r: Json)
    requires FirstTruthyOrLast([a, b], r)
    ensures Truthy(a) ==> r == a
    ensures !Truthy(a) ==> r == b
    ensures Truthy(r) <==> Truthy(a) || Truthy(b)
  {
    var vs := [a, b];
    if !AllFalsy(vs) {
      var i :| 0 <= i < 2 && vs[i] == r && FalsyBefore(vs, i);
      if Truthy(a) {
          FirstTruthyUnique(vs, i, 0);
      } else {
        FirstTruthyUnique(vs, i, 1);
      }
    } else {
      assert !Truthy(vs[0]) && !Truthy(vs[1]);
    }
  }

  /** A three-operand chain `a || b || c`, case by case. */
  lemma FirstTruthyOfThree(a: Json, b: Json, c: Json, r: Json)
    requires FirstTruthyOrLast([a, b, c], r)
    ensures Truthy(a) ==> r == a
    ensures !Truthy(a) && Truthy(b) ==> r == b
    ensures !Truthy(a) && !Truthy(b) ==> r == c
    ensures Truthy(r) <==> Truthy(a) || Truthy(b) || Truthy(c)
  {
    var vs := [a, b, c];
    if !AllFalsy(vs) {
      var i :| 0 <= i < 3 && vs[i] == r && FalsyBefore(vs, i);
      if Truthy(a) {
          FirstTruthyUnique(vs, i, 0);
      } else if Truthy(b) {
        FirstTruthyUnique(vs, i, 1);
      } else {
        FirstTruthyUnique(vs, i, 2);
      }
    } else {
      assert !Truthy(vs[0]) && !Truthy(vs[1]) && !Truthy(vs[2]);
    }
  }

  /** Appending an operand to a chain is one more `||`. */
  lemma {:induction false} OrElseSnoc(pre: seq<Json>, last: Json)
    requires |pre| > 0
    ensures OrElse(pre + [last]) == Or(OrElse(pre), last)
    decreases |pre|
  {
    var vs := pre + [last];
    if |pre| == 1 {
      assert vs[1..] == [last];
    } else {
      assert vs[1..] == pre[1..] + [last];
      OrElseSnoc(pre[1..], last);
    }
  }

  /** The left-grouped chain of `||` the source writes yields the first truthy
      operand, else the last one. */
  lemma {:induction false} OrChainIsFirstTruthy(vs: seq<Json>)
    requires |vs| > 0
    ensures OrChain(vs) == OrElse(vs)
    ensures FirstTruthyOrLast(vs, OrChain(vs))
    decreases |vs|
  {
    if |vs| > 1 {
      var pre := vs[..|vs| - 1];
      OrChainIsFirstTruthy(pre);
      OrElseSnoc(pre, vs[|vs| - 1]);
      assert pre + [vs[|vs| - 1]] == vs;
    }
  }

  /** `??` and `||` part ways exactly on falsy values that are not nullish:
      `0 ?? b` keeps the `0`, where `0 || b` falls through to `b`. */
  lemma CoalesceKeepsFalsyValues(a: Json, b: Json)
    ensures Coalesce(a, b) == Or(a, b) || (!Truthy(a) && !Nullish(a) && a != b)
    ensures !Nullish(a) ==> Coalesce(a, b) == a
    ensures Nullish(a) ==> Coalesce(a, b) == b && Or(a, b) == b
  {
  }

  /** The value of the first property named `key`, or `undefined`. */
  function Lookup(fields: seq<(string, Json)>, key: string): (r: Json)
    ensures (forall i :: 0 <= i < |fields| ==> fields[i].0 != key) ==> r == Undefined
    ensures (exists i :: 0 <= i < |fields| && fields[i].0 == key) ==>
              exists i :: 0 <= i < |fields| && fields[i] == (key, r)
                        && forall j :: 0 <= j < i ==> fields[j].0 != key
  {
    if |fields| == 0 then Undefined
    else if fields[0].0 == key then fields[0].1
    else
      var r := Lookup(fields[1..], key);
      LookupShift(fields, key, r);
      r
  }

  /** Skipping a head property with another key keeps the "first property
      named `key`" reading. */
  lemma LookupShift(fields: seq<(string, Json)>, key: string, r: Json)
    requires |fields| > 0 && fields[0].0 != key
    requires (forall i :: 0 <= i < |fields[1..]| ==> fields[1..][i].0 != key) ==> r == Undefined
    requires (exists i :: 0 <= i < |fields[1..]| && fields[1..][i].0 == key) ==>
               exists i :: 0 <= i < |fields[1..]| && fields[1..][i] == (key, r)
                         && forall j :: 0 <= j < i ==> fields[1..][j].0 != key
    ensures (forall i :: 0 <= i < |fields| ==> fields[i].0 != key) ==> r == Undefined
    ensures (exists i :: 0 <= i < |fields| && fields[i].0 == key) ==>
              exists i :: 0 <= i < |fields| && fields[i] == (key, r)
                        && forall j :: 0 <= j < i ==> fields[j].0 != key
  {
    if exists i :: 0 <= i < |fields| && fields[i].0 == key {
      var i :| 0 <= i < |fields| && fields[i].0 == key;
      assert fields[1..][i - 1].0 == key;
      var k :| 0 <= k < |fields[1..]| && fields[1..][k] == (key, r)
               && forall j :: 0 <= j < k ==> fields[1..][j].0 != key;
      assert fields[k + 1] == (key, r);
      assert forall j :: 0 <= j < k + 1 ==> fields[j].0 != key by {
        forall j | 0 <= j < k + 1 ensures fields[j].0 != key {
          if j > 0 {
            assert fields[j] == fields[1..][j - 1];
          }
        }
      }
    } else {
      assert forall i :: 0 <= i < |fields[1..]| ==> fields[1..][i].0 != key by {
        forall i | 0 <= i < |fields[1..]| ensures fields[1..][i].0 != key {
          assert fields[1..][i] == fields[i + 1];
        }
      }
    }
  }

  /** Property read `v.key` on a value that is not `null` or `undefined`. Only
      objects contribute properties: none of the keys the dashboard reads names
      a property that strings, numbers, booleans or arrays inherit. */
  function Get(v: Json, key: string): (r: Json)
    requires !Nullish(v)
    ensures !v.Obj? ==> r == Undefined
    ensures v.Obj? ==> r == Lookup(v.fields, key)
    ensures v.Obj? && r != Undefined ==> exists i :: 0 <= i < |v.fields| && v.fields[i] == (key, r)
  {
    if v.Obj? then Lookup(v.fields, key) else Undefined
  }

  /** The message V8 gives the `TypeError` thrown by reading `key` of a nullish value. */
  function NullishReadMessage(v: Json, key: string): string
    requires Nullish(v)
  {
    "Cannot read properties of " + (if v.Null? then "null" else "undefined") + " (reading '" + key + "')"
  }

  /** `Array.isArray(data) ? data : []`. */
  function ArrayOrEmpty(v: Json): (r: seq<Json>)
    ensures v.Arr? ==> r == v.items
    ensures !v.Arr? ==> r == []
  {
    if v.Arr? then v.items else []
  }

  /** Strict equality `a === b` between values parsed from two different
      responses: primitives compare by value, while arrays and objects are
      distinct allocations and never equal. */
  function StrictEquals(a: Json, b: Json): (r: bool)
    ensures r ==> a == b
    ensures a == b && !a.Arr? && !a.Obj? ==> r
    ensures a.Arr? || a.Obj? ==> !r
  {
    match a
    case Undefined => b.Undefined?
    case Null => b.Null?
    case Bool(x) => b.Bool? && b.b == x
    case Num(x) => b.Num? && b.n == x
    case Str(x) => b.Str? && b.s == x
    case Arr(_) => false
    case Obj(_) => false
  }

  /** `Object.entries(v)` for a value that is not `null` or `undefined`: an
      object's own properties in order; an array's or a string's elements keyed
      by their decimal index; nothing for numbers and booleans. */
  function Entries(v: Json): (r: seq<(string, Json)>)
    requires !Nullish(v)
    ensures v.Obj? ==> r == v.fields
    ensures v.Arr? ==> |r| == |v.items|
                       && forall i :: 0 <= i < |r| ==> r[i] == (Decimal.NatToString(i), v.items[i])
    ensures v.Str? ==> |r| == |v.s|
                       && forall i :: 0 <= i < |r| ==> r[i] == (Decimal.NatToString(i), Str([v.s[i]]))
    ensures v.Bool? || v.Num? ==> r == []
  {
    match v
    case Obj(fields) => fields
    case Arr(items) => seq(|items|, i requires 0 <= i < |items| => (Decimal.NatToString(i), items[i]))
    case Str(s) => seq(|s|, i requires 0 <= i < |s| => (Decimal.NatToString(i), Str([s[i]])))
    case Bool(_) => []
    case Num(_) => []
  }
}
