/** The executor's loops: choosing the representations variable, collecting
    the objects of a path, building representations, fetching a level of
    child fetches and merging the entities back into the response. */
module Executor {
  import opened Basics
  import opened GraphQl
  import opened Plan
  import opened Exec
  import opened Resolver
  import opened Wire
  import opened Replies

  // ----- a fresh variable name

  lemma {:induction false} RepsNameLength(n: nat)
    ensures |RepsName(n)| == |REPS_VAR| + n
  {
    if n > 0 {
      RepsNameLength(n - 1);
    }
  }

  ghost function TriedNames(n: nat): set<Name> {
    if n == 0 then {} else TriedNames(n - 1) + {RepsName(n - 1)}
  }

  /** Tried names are pairwise different. */
  lemma {:induction false} TriedCount(n: nat)
    ensures |TriedNames(n)| == n
    ensures forall x :: x in TriedNames(n) ==> |x| < |REPS_VAR| + n
  {
    if n > 0 {
      TriedCount(n - 1);
      RepsNameLength(n - 1);
      assert RepsName(n - 1) !in TriedNames(n - 1);
    }
  }

  lemma {:induction false} FewNames(defs: seq<VarDef>)
    ensures |DefNames(defs)| <= |defs|
  {
    if defs == [] {
      assert DefNames(defs) == {};
    } else {
      FewNames(defs[1..]);
      assert DefNames(defs) == {defs[0].name} + DefNames(defs[1..]);
    }
  }

  lemma {:induction false} RoundsBounded(op: Operation, n: nat)
    requires TriedNames(n) <= DefNames(op.defs)
    ensures n <= |op.defs|
  {
    TriedCount(n);
    FewNames(op.defs);
    SubsetSize(TriedNames(n), DefNames(op.defs));
  }

  lemma {:induction false} SubsetSize(a: set<Name>, b: set<Name>)
    requires a <= b
    ensures |a| <= |b|
  {
    if a != {} {
      var x :| x in a;
      SubsetSize(a - {x}, b - {x});
    }
  }

  /** The representations variable: the first name in the series that the
      client does not declare, found within one round per declared variable. */
  method RepsVarName(op: Operation) returns (name: Name, ghost rounds: nat)
    ensures name !in DefNames(op.defs)
    ensures name == RepsName(rounds) && rounds <= |op.defs|
    ensures forall k: nat :: k < rounds ==> RepsName(k) in DefNames(op.defs)
  {
    name, rounds := REPS_VAR, 0;
    while Declared(op, name)
      invariant name == RepsName(rounds) && TriedNames(rounds) <= DefNames(op.defs)
      invariant forall k: nat :: k < rounds ==> RepsName(k) in DefNames(op.defs)
      decreases |op.defs| - rounds
    {
      RoundsBounded(op, rounds + 1);
      name := name + "_";
      rounds := rounds + 1;
    }
    RoundsBounded(op, rounds);
  }

  // ----- walking and representing

  lemma {:induction false} WalkAllAppend(a: seq<Json>, b: seq<Json>, path: seq<Seg>)
    ensures WalkAll(a + b, path) == WalkAll(a, path) + WalkAll(b, path)
  {
    if a == [] {
      assert a + b == b;
    } else {
      assert (a + b)[1..] == a[1..] + b;
      WalkAllAppend(a[1..], b, path);
    }
  }

  lemma {:induction false} WalkNext(items: seq<Json>, i: nat, path: seq<Seg>)
    requires i < |items|
    ensures WalkAll(items[..i + 1], path) == WalkAll(items[..i], path) + Walk(items[i], path)
  {
    assert items[..i + 1] == items[..i] + [items[i]];
    WalkAllAppend(items[..i], [items[i]], path);
    assert [items[i]][1..] == [];
  }

  /** Appends the objects a path names to `found`. */
  method CollectMaps(j: Json, path: seq<Seg>, found: seq<map<Name, Json>>) returns (out: seq<map<Name, Json>>)
    ensures out == found + Walk(j, path)
    decreases |path|, j
  {
    out := found;
    match j
    case Arr(items) =>
      for i := 0 to |items|
        invariant out == found + WalkAll(items[..i], path)
      {
        WalkNext(items, i, path);
        out := CollectMaps(items[i], path, out);
      }
      assert items[..|items|] == items;
    case Obj(m) =>
      if path == [] {
        out := out + [m];
      } else {
        match path[0]
        case Key(k) =>
          if k in m {
            out := CollectMaps(m[k], path[1..], out);
          }
        case TypeCond(t) =>
          if TYPENAME in m && m[TYPENAME] == Str(t) {
            out := CollectMaps(j, path[1..], out);
          }
      }
    case _ =>
  }

  /** One `_Any` representation; none when the object is of another type or
      lacks a key field. */
  method Representation(m: map<Name, Json>, e: Emitted, ghost n: FetchNode) returns (rep: Option<map<Name, Json>>)
    requires e == Emit([], n)
    ensures rep == RepOf(m, n.cut)
  {
    if TYPENAME in m && m[TYPENAME].Str? && m[TYPENAME].s != e.typeName {
      return None;
    }
    var members := map[TYPENAME := Str(e.typeName)];
    for i := 0 to |e.keyFields|
      invariant KeyMembers(m, e.keyFields[..i]).Some?
      invariant members == map[TYPENAME := Str(e.typeName)] + KeyMembers(m, e.keyFields[..i]).value
    {
      var k := e.keyFields[i];
      assert e.keyFields[..i + 1][..i] == e.keyFields[..i];
      var found := if KeyAlias(k) in m then Some(m[KeyAlias(k)]) else if k in m then Some(m[k]) else None;
      if found.None? || found.value.Null? {
        MembersMissing(m, e.keyFields, i + 1);
        return None;
      }
      members := members[k := found.value];
    }
    assert e.keyFields[..|e.keyFields|] == e.keyFields;
    rep := Some(members);
  }

  lemma {:induction false} MembersMissing(m: map<Name, Json>, ks: seq<Name>, i: nat)
    requires i <= |ks| && KeyMembers(m, ks[..i]).None?
    ensures KeyMembers(m, ks).None?
    decreases |ks|
  {
    if i < |ks| {
      assert ks[..|ks| - 1][..i] == ks[..i];
      MembersMissing(m, ks[..|ks| - 1], i);
    } else {
      assert ks[..i] == ks;
    }
  }

  lemma {:induction false} PresentAppend<T>(a: seq<Option<T>>, b: seq<Option<T>>)
    ensures Present(a + b) == Present(a) + Present(b)
  {
    if a == [] {
      assert a + b == b;
    } else {
      assert (a + b)[1..] == a[1..] + b;
      PresentAppend(a[1..], b);
    }
  }

  /** Which walked objects produced a representation. */
  function Mask(reps: seq<Option<map<Name, Json>>>): seq<bool> {
    seq(|reps|, i requires 0 <= i < |reps| => reps[i].Some?)
  }

  /** Collects one child's representations and the mask that aligns them
      with the walked objects. */
  method Prepare(values: array<Json>, e: Emitted, ghost n: FetchNode) returns (reps: seq<map<Name, Json>>, mask: seq<bool>)
    requires e == Emit([], n)
    ensures reps == Present(RepsAt(values[..], n)) && mask == Mask(RepsAt(values[..], n))
  {
    var maps: seq<map<Name, Json>> := [];
    for i := 0 to values.Length
      invariant maps == WalkAll(values[..i], n.path)
    {
      WalkNext(values[..], i, n.path);
      assert values[..][..i] == values[..i] && values[..][..i + 1] == values[..i + 1];
      maps := CollectMaps(values[i], e.path, maps);
    }
    assert values[..values.Length] == values[..];
    reps, mask := [], [];
    for i := 0 to |maps|
      invariant reps == Present(RepsOf(maps[..i], n.cut)) && mask == Mask(RepsOf(maps[..i], n.cut))
    {
      var rep := Representation(maps[i], e, n);
      assert RepsOf(maps[..i + 1], n.cut) == RepsOf(maps[..i], n.cut) + [rep];
      PresentAppend(RepsOf(maps[..i], n.cut), [rep]);
      assert [rep][1..] == [];
      if rep.Some? {
        reps := reps + [rep.value];
      }
      mask := mask + [rep.Some?];
    }
    assert maps[..|maps|] == maps;
  }

  // ----- merging

  /** Hands the returned entities, in order, to the walked objects that sent
      a representation; stops when they run out. */
  method Deal(ghost reps: seq<Option<map<Name, Json>>>, mask: seq<bool>, es: seq<Json>) returns (us: seq<Option<map<Name, Json>>>)
    requires mask == Mask(reps)
    ensures us == Align(reps, es)
  {
    us := [];
    var next := 0;
    for i := 0 to |mask|
      invariant next <= |es|
      invariant us + Align(reps[i..], es[next..]) == Align(reps, es)
    {
      DealStep(reps, es, i, next, us);
      if !mask[i] || next == |es| {
        us := us + [None];
      } else {
        us := us + [if es[next].Obj? then Some(es[next].fields) else None];
        next := next + 1;
      }
    }
    assert reps[|mask|..] == [];
  }

  /** Dealing one position leaves the rest of the deal. */
  lemma {:induction false} DealStep(reps: seq<Option<map<Name, Json>>>, es: seq<Json>, i: nat, next: nat, us: seq<Option<map<Name, Json>>>)
    requires i < |reps| && next <= |es|
    ensures var taken := reps[i].Some? && next < |es|;
            var u := if taken && es[next].Obj? then Some(es[next].fields) else None;
            us + Align(reps[i..], es[next..]) == us + [u] + Align(reps[i + 1..], es[if taken then next + 1 else next..])
  {
    var taken := reps[i].Some? && next < |es|;
    var u := if taken && es[next].Obj? then Some(es[next].fields) else None;
    assert reps[i..][1..] == reps[i + 1..] && reps[i..][0] == reps[i];
    if taken {
      assert es[next..][1..] == es[next + 1..] && es[next..][0] == es[next];
    }
    Reassoc(us, u, Align(reps[i + 1..], es[if taken then next + 1 else next..]));
  }

  lemma Reassoc<T>(a: seq<T>, x: T, b: seq<T>)
    ensures a + ([x] + b) == a + [x] + b
  {
  }

  lemma {:induction false} MergeCons(j: Json, js: seq<Json>, path: seq<Seg>, us: seq<Option<map<Name, Json>>>)
    requires |us| == |Walk(j, path)| + |WalkAll(js, path)|
    ensures WalkAll([j] + js, path) == Walk(j, path) + WalkAll(js, path)
    ensures MergeList([j] + js, path, us) == [Merge(j, path, us[..|Walk(j, path)|])] + MergeList(js, path, us[|Walk(j, path)|..])
  {
    assert ([j] + js)[1..] == js && ([j] + js)[0] == j;
  }

  lemma {:induction false} MergeListAppend(a: seq<Json>, b: seq<Json>, path: seq<Seg>, us: seq<Option<map<Name, Json>>>)
    requires |us| == |WalkAll(a, path)| + |WalkAll(b, path)|
    ensures WalkAll(a + b, path) == WalkAll(a, path) + WalkAll(b, path)
    ensures MergeList(a + b, path, us) == MergeList(a, path, us[..|WalkAll(a, path)|]) + MergeList(b, path, us[|WalkAll(a, path)|..])
  {
    WalkAllAppend(a, b, path);
    if a == [] {
      assert a + b == b && us[0..] == us;
    } else {
      var n, m := |Walk(a[0], path)|, |WalkAll(a, path)|;
      Cons(a, b);
      WalkAllAppend(a[1..], b, path);
      Slices(us, n, m);
      MergeCons(a[0], a[1..], path, us[..m]);
      MergeCons(a[0], a[1..] + b, path, us);
      MergeListAppend(a[1..], b, path, us[n..]);
      Reassoc([], Merge(a[0], path, us[..n]), MergeList(a[1..], path, us[n..m]) + MergeList(b, path, us[m..]));
    }
  }

  lemma Cons<T>(a: seq<T>, b: seq<T>)
    requires a != []
    ensures a == [a[0]] + a[1..] && a + b == [a[0]] + (a[1..] + b)
  {
  }

  lemma Slices<T>(s: seq<T>, n: nat, m: nat)
    requires n <= m <= |s|
    ensures s[..m][..n] == s[..n] && s[..m][n..] == s[n..m] && s[n..][..m - n] == s[n..m] && s[n..][m - n..] == s[m..]
  {
  }

  /** The first `i` values are merged, with the first `pos` updates. */
  ghost predicate Merged(was: seq<Json>, path: seq<Seg>, us: seq<Option<map<Name, Json>>>, i: nat, pos: nat, done: seq<Json>) {
    && i <= |was| && pos <= |us|
    && pos == |WalkAll(was[..i], path)|
    && done == MergeList(was[..i], path, us[..pos])
  }

  lemma {:induction false} MergedNone(was: seq<Json>, path: seq<Seg>, us: seq<Option<map<Name, Json>>>)
    ensures Merged(was, path, us, 0, 0, [])
  {
    assert us[..0] == [] && was[..0] == [];
  }

  lemma {:induction false} MergedNext(was: seq<Json>, path: seq<Seg>, us: seq<Option<map<Name, Json>>>, i: nat, pos: nat, done: seq<Json>)
    requires |us| == |WalkAll(was, path)| && Merged(was, path, us, i, pos, done) && i < |was|
    ensures var here := pos + |Walk(was[i], path)|;
            here <= |us| && Merged(was, path, us, i + 1, here, done + [Merge(was[i], path, us[pos..here])])
  {
    MergeStep(was, i, path, us, pos);
  }

  lemma {:induction false} MergedAll(was: seq<Json>, path: seq<Seg>, us: seq<Option<map<Name, Json>>>, pos: nat, done: seq<Json>)
    requires |us| == |WalkAll(was, path)| && Merged(was, path, us, |was|, pos, done)
    ensures done == MergeList(was, path, us)
  {
    assert was[..|was|] == was && us[..|us|] == us;
  }

  /** Merges the dealt members into every walked object, value by value. */
  method MergeInto(values: array<Json>, path: seq<Seg>, us: seq<Option<map<Name, Json>>>)
    requires |us| == |WalkAll(values[..], path)|
    modifies values
    ensures values[..] == MergeList(old(values[..]), path, us)
  {
    ghost var was, done := values[..], [];
    var pos := 0;
    MergedNone(was, path, us);
    for i := 0 to values.Length
      invariant |done| == i && values[..] == done + was[i..]
      invariant Merged(was, path, us, i, pos, done)
    {
      assert values[i] == values[..][i] == was[i];
      MergedNext(was, path, us, i, pos, done);
      var maps := CollectMaps(values[i], path, []);
      var here := pos + |maps|;
      var merged := Merge(values[i], path, us[pos..here]);
      SetNext(done, was, i, merged);
      values[i] := merged;
      done, pos := done + [merged], here;
    }
    MergedAll(was, path, us, pos, done);
  }

  lemma SetNext<T>(done: seq<T>, was: seq<T>, i: nat, x: T)
    requires |done| == i < |was|
    ensures (done + was[i..])[i := x] == done + [x] + was[i + 1..]
  {
  }

  /** Merging value `i` extends the merge of those before it. */
  lemma {:induction false} MergeStep(was: seq<Json>, i: nat, path: seq<Seg>, us: seq<Option<map<Name, Json>>>, pos: nat)
    requires i < |was| && |us| == |WalkAll(was, path)| && pos == |WalkAll(was[..i], path)|
    ensures var here := pos + |Walk(was[i], path)|;
            && here <= |us| && |WalkAll(was[..i + 1], path)| == here
            && MergeList(was[..i + 1], path, us[..here]) == MergeList(was[..i], path, us[..pos]) + [Merge(was[i], path, us[pos..here])]
  {
    var here := pos + |Walk(was[i], path)|;
    WalkNext(was, i, path);
    WalkAllAppend(was[..i + 1], was[i + 1..], path);
    assert was == was[..i + 1] + was[i + 1..];
    MergeNext(was, i, path, us[..here]);
    Slices(us, pos, here);
  }

  lemma {:induction false} MergeNext(js: seq<Json>, i: nat, path: seq<Seg>, us: seq<Option<map<Name, Json>>>)
    requires i < |js| && |us| == |WalkAll(js[..i + 1], path)|
    ensures WalkAll(js[..i + 1], path) == WalkAll(js[..i], path) + Walk(js[i], path)
    ensures var n := |WalkAll(js[..i], path)|;
            MergeList(js[..i + 1], path, us) == MergeList(js[..i], path, us[..n]) + [Merge(js[i], path, us[n..])]
  {
    WalkNext(js, i, path);
    assert js[..i + 1] == js[..i] + [js[i]];
    assert [js[i]][1..] == [];
    assert WalkAll([js[i]], path) == Walk(js[i], path) + [];
    MergeListAppend(js[..i], [js[i]], path, us);
    var rest := us[|WalkAll(js[..i], path)|..];
    assert rest[..|Walk(js[i], path)|] == rest;
  }

  // ----- one level of fetches

  /** `rv` is the name `RepsVarName` returns. */
  ghost predicate IsRepsVar(op: Operation, rv: Name) {
    exists rounds: nat :: ChosenAt(op, rv, rounds)
  }

  ghost predicate ChosenAt(op: Operation, rv: Name, rounds: nat) {
    && rv == RepsName(rounds)
    && rv !in DefNames(op.defs)
    && forall k: nat :: k < rounds ==> RepsName(k) in DefNames(op.defs)
  }

  lemma OneRepsVar(op: Operation, a: Name, b: Name, i: nat, j: nat)
    requires ChosenAt(op, a, i) && ChosenAt(op, b, j)
    ensures a == b
  {
  }

  /** One cut: a single fetch, then the entities' own children. */
  method FetchChild(post: Post, op: Operation, ghost rv: Name, reps: seq<map<Name, Json>>, e: Emitted, ghost n: FetchNode) returns (out: Outcome)
    requires IsRepsVar(op, rv) && e == Emit([], n)
    ensures out == FetchCut(Via(post), op, rv, reps, n.cut)
    ensures forall es :: reps != [] && Lists(Via(post)(EntityRequest(op, rv, n.cut, reps)), es) ==>
              out.values == ResolveNodes(Via(post), op, rv, es, n.cut.children).values
    decreases n.cut, 0
  {
    forall es | reps != [] && Lists(Via(post)(EntityRequest(op, rv, n.cut, reps)), es)
      ensures FetchCut(Via(post), op, rv, reps, n.cut).values == ResolveNodes(Via(post), op, rv, es, n.cut.children).values
    {
      FetchLists(Via(post), op, rv, reps, n.cut, es);
    }
    if reps == [] {
      return Outcome([], [], 0);
    }
    var name, rounds := RepsVarName(op);
    ghost var was: nat :| ChosenAt(op, rv, was);
    OneRepsVar(op, name, rv, rounds, was);
    EntityPosted(op, rv, n, reps);
    match post(EntityPost(op, name, e, reps))
    case Failed => out := Outcome([], [Unreachable(e.subgraph)], 1);
    case Answer(data, errors) =>
      var found := Entities(data);
      var entities := new Json[|found|](i requires 0 <= i < |found| => found[i]);
      assert entities[..] == found;
      var problems, fetches := ResolveChildren(post, op, rv, entities, e.children, n.cut.children);
      out := Outcome(entities[..], [Upstream(e.subgraph, errors)] + problems, 1 + fetches);
  }

  /** Merges one child's entities back, unless the walk no longer finds the
      objects it collected. */
  method MergeChild(values: array<Json>, e: Emitted, ghost n: FetchNode, ghost was: seq<Json>, mask: seq<bool>, empty: bool, out: Outcome)
    returns (problems: seq<Problem>)
    requires e == Emit([], n)
    requires mask == Mask(RepsAt(was, n)) && empty == (Present(RepsAt(was, n)) == [])
    modifies values
    ensures (values[..], problems) == MergeOne(was, old(values[..]), n, out)
  {
    problems := out.problems;
    if empty || out.values == [] {
      return;
    }
    var maps: seq<map<Name, Json>> := [];
    for i := 0 to values.Length
      invariant maps == WalkAll(values[..i], n.path) && values[..] == old(values[..])
    {
      WalkNext(values[..], i, n.path);
      assert values[..][..i] == values[..i] && values[..][..i + 1] == values[..i + 1];
      maps := CollectMaps(values[i], e.path, maps);
    }
    assert values[..values.Length] == values[..];
    if |maps| != |mask| {
      problems := problems + [Diverged(e.subgraph)];
      return;
    }
    var us := Deal(RepsAt(was, n), mask, out.values);
    MergeInto(values, e.path, us);
  }

  /** What is collected before any fetch: per child, the representations
      and the mask of walked objects. */
  datatype Prep = Prep(reps: seq<map<Name, Json>>, mask: seq<bool>)

  ghost predicate Prepared(preps: seq<Prep>, values: seq<Json>, ns: seq<FetchNode>) {
    |preps| == |ns| && forall k :: 0 <= k < |ns| ==> preps[k] == Prep(Present(RepsAt(values, ns[k])), Mask(RepsAt(values, ns[k])))
  }

  method PrepareAll(values: array<Json>, es: seq<Emitted>, ghost ns: seq<FetchNode>) returns (preps: seq<Prep>)
    requires es == EmitAll([], ns)
    ensures Prepared(preps, values[..], ns)
  {
    preps := [];
    for i := 0 to |es|
      invariant |preps| == i
      invariant forall k :: 0 <= k < i ==> preps[k] == Prep(Present(RepsAt(values[..], ns[k])), Mask(RepsAt(values[..], ns[k])))
    {
      var reps, mask := Prepare(values, es[i], ns[i]);
      preps := preps + [Prep(reps, mask)];
    }
  }

  method FetchEach(post: Post, op: Operation, ghost rv: Name, preps: seq<Prep>, es: seq<Emitted>, ghost ns: seq<FetchNode>, ghost values: seq<Json>)
    returns (outs: seq<Outcome>)
    requires IsRepsVar(op, rv) && es == EmitAll([], ns) && Prepared(preps, values, ns)
    ensures outs == FetchAll(Via(post), op, rv, values, ns)
    decreases ns, 1
  {
    outs := [];
    for i := 0 to |es|
      invariant outs == FetchAll(Via(post), op, rv, values, ns[..i])
    {
      assert ns[..i + 1][..i] == ns[..i];
      var out := FetchChild(post, op, rv, preps[i].reps, es[i], ns[i]);
      outs := outs + [out];
    }
    assert ns[..|ns|] == ns;
  }

  method MergeEach(values: array<Json>, preps: seq<Prep>, es: seq<Emitted>, ghost ns: seq<FetchNode>, outs: seq<Outcome>)
    returns (problems: seq<Problem>, fetches: nat)
    requires es == EmitAll([], ns) && Prepared(preps, values[..], ns) && |outs| == |ns|
    modifies values
    ensures Outcome(values[..], problems, fetches) == MergeNodes(old(values[..]), ns, outs)
  {
    ghost var was := values[..];
    problems, fetches := [], 0;
    for i := 0 to |es|
      invariant Outcome(values[..], problems, fetches) == MergeNodes(was, ns[..i], outs[..i])
    {
      MergeNodesSnoc(was, ns, outs, i);
      var more := MergeChild(values, es[i], ns[i], was, preps[i].mask, preps[i].reps == [], outs[i]);
      problems, fetches := problems + more, fetches + outs[i].fetches;
    }
    assert outs[..|ns|] == outs && ns[..|ns|] == ns;
  }

  lemma MergeNodesSnoc(values: seq<Json>, ns: seq<FetchNode>, outs: seq<Outcome>, i: nat)
    requires i < |ns| == |outs|
    ensures var before := MergeNodes(values, ns[..i], outs[..i]);
            var r := MergeOne(values, before.values, ns[i], outs[i]);
            MergeNodes(values, ns[..i + 1], outs[..i + 1]) == Outcome(r.0, before.problems + r.1, before.fetches + outs[i].fetches)
  {
    assert ns[..i + 1][..i] == ns[..i] && outs[..i + 1][..i] == outs[..i];
  }

  /** Resolves one level of child fetches against `values` and, recursively,
      every deeper level, merging in place: collect, fetch, then merge. */
  method ResolveChildren(post: Post, op: Operation, ghost rv: Name, values: array<Json>, es: seq<Emitted>, ghost ns: seq<FetchNode>)
    returns (problems: seq<Problem>, fetches: nat)
    requires IsRepsVar(op, rv) && es == EmitAll([], ns)
    modifies values
    ensures Outcome(values[..], problems, fetches) == ResolveNodes(Via(post), op, rv, old(values[..]), ns)
    decreases ns, 2
  {
    var preps := PrepareAll(values, es, ns);
    var outs := FetchEach(post, op, rv, preps, es, ns, values[..]);
    problems, fetches := MergeEach(values, preps, es, ns, outs);
  }
}
