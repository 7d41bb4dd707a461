/** Shared vocabulary: options, GraphQL names, JSON values and sequence helpers. */
module Basics {
  datatype Option<+T> = None | Some(value: T)

  type Name = string

  /** The meta field the planner adds to every printed selection set. */
  const TYPENAME: Name := "__typename"

  /** The response key under which the planner injects key field `k`. */
  function KeyAlias(k: Name): Name {
    "g2__" + k
  }

  predicate IsKeyAlias(k: Name) {
    "g2__" <= k
  }

  /** Introspection names, which every subgraph answers itself. */
  predicate IsMeta(k: Name) {
    "__" <= k
  }

  /** A number's text when it is no integer: the shortest decimal that reads
      back as the same double, always with a point or an exponent. */
  predicate IsFloatText(s: string) {
    && s != "" && (s[0] == '-' || '0' <= s[0] <= '9')
    && (forall i :: 0 <= i < |s| ==> IsNumChar(s[i]))
    && ('.' in s || 'e' in s)
  }

  predicate IsNumChar(c: char) {
    '0' <= c <= '9' || c in ['-', '+', '.', 'e']
  }

  type FloatText = s: string | IsFloatText(s) witness "0.0"

  /** Integers and doubles are told apart: `1` and `1.0` differ. */
  datatype Number = Whole(i: int) | Float(text: FloatText)

  /** JSON values. An object is a finite map: member order carries no meaning. */
  datatype Json =
    | Null
    | Bool(b: bool)
    | Num(n: Number)
    | Str(s: string)
    | Arr(items: seq<Json>)
    | Obj(fields: map<Name, Json>)

  function Max(a: nat, b: nat): nat {
    if a < b then b else a
  }

  ghost predicate Distinct<T(!new)>(s: seq<T>) {
    forall i, j :: 0 <= i < j < |s| ==> s[i] != s[j]
  }

  function Flatten<T>(ss: seq<seq<T>>): seq<T> {
    if ss == [] then [] else ss[0] + Flatten(ss[1..])
  }

  lemma {:induction false} FlattenAppend<T>(ss: seq<seq<T>>, ts: seq<seq<T>>)
    ensures Flatten(ss + ts) == Flatten(ss) + Flatten(ts)
  {
    if ss == [] {
      assert ss + ts == ts;
    } else {
      assert (ss + ts)[1..] == ss[1..] + ts;
      FlattenAppend(ss[1..], ts);
    }
  }
}
