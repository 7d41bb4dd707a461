/** When the merge walk finds the objects it collected: exactly when the
    fetches of the plan are apart, for replies that bring anything under the
    keys they were asked for. */
module Convergence {
  import opened Basics
  import opened GraphQl
  import opened Plan
  import opened PlanFacts
  import opened Exec
  import opened Meaning
  import opened Resolver
  import opened Refinement
  import opened Merging

  // ----- one level of merges

  /** Some collected object sent a representation. */
  predicate Live(values: seq<Json>, n: FetchNode) {
    Present(RepsAt(values, n)) != []
  }

  ghost predicate ClearAll(values: seq<Json>, later: FetchNode, earlier: FetchNode) {
    forall i :: 0 <= i < |values| ==> ClearOn(values[i], later.path, earlier.path, Keys(earlier.cut.text), earlier.cut.typeName)
  }

  /** No live fetch loses objects to an earlier one's merge. */
  ghost predicate ClearLevel(values: seq<Json>, ns: seq<FetchNode>) {
    forall i, j :: 0 <= i < j < |ns| && Live(values, ns[j]) ==> ClearAll(values, ns[j], ns[i])
  }

  ghost predicate KeptAll(js: seq<Json>, js': seq<Json>, p: seq<Seg>) {
    |js'| == |js| && forall i :: 0 <= i < |js| ==> Kept(js[i], js'[i], p)
  }

  lemma {:induction false} AlignFits(ms: seq<map<Name, Json>>, cut: Cut, es: seq<Json>)
    ensures Fits(Align(RepsOf(ms, cut), es), ms, cut.typeName)
  {
    var reps := RepsOf(ms, cut);
    forall i | 0 <= i < |ms| && Align(reps, es)[i].Some? ensures Represented(TypeNameOf(ms[i]), cut.typeName) {
      AlignAt(reps, es, i);
      assert reps[i] == RepOf(ms[i], cut);
    }
  }

  lemma {:induction false} MergeOneKeeps(values: seq<Json>, now: seq<Json>, n: FetchNode, out: Outcome, later: FetchNode)
    requires Live(values, n) ==> KeptAll(values, now, n.path)
    requires OnlySelected(out, n.cut) && Converged(out.problems)
    ensures Converged(MergeOne(values, now, n, out).1)
    ensures KeptAll(values, now, later.path) && ClearAll(values, later, n) ==> KeptAll(values, MergeOne(values, now, n, out).0, later.path)
  {
    var reps := RepsAt(values, n);
    if Live(values, n) {
      KeptLocsList(values, now, n.path, 0);
      LocsFromLength(values, n.path, 0);
      LocsFromLength(now, n.path, 0);
      if out.values != [] && KeptAll(values, now, later.path) && ClearAll(values, later, n) {
        AlignKeys(reps, out.values, Keys(n.cut.text));
        AlignFits(WalkAll(values, n.path), n.cut, out.values);
        SiblingFrameList(values, now, later.path, n.path, Align(reps, out.values), Keys(n.cut.text), n.cut.typeName);
      }
    }
  }

  /** The merges of a clear level find every object they collected. */
  lemma {:induction false} MergesConverge(values: seq<Json>, ns: seq<FetchNode>, outs: seq<Outcome>, i: nat)
    requires |outs| == |ns| && i <= |ns| && ClearLevel(values, ns) && WellAnswered(ns, outs)
    ensures var r := MergeNodes(values, ns[..i], outs[..i]);
            && Converged(r.problems)
            && forall j :: i <= j < |ns| && Live(values, ns[j]) ==> KeptAll(values, r.values, ns[j].path)
  {
    if i == 0 {
      forall j | 0 <= j < |ns| ensures KeptAll(values, values, ns[j].path) {
        forall x | 0 <= x < |values| ensures Kept(values[x], values[x], ns[j].path) {
          KeptSame(values[x], ns[j].path);
        }
      }
    } else {
      MergesConverge(values, ns, outs, i - 1);
      var before := MergeNodes(values, ns[..i - 1], outs[..i - 1]);
      assert ns[..i][..i - 1] == ns[..i - 1] && outs[..i][..i - 1] == outs[..i - 1];
      MergeOneKeeps(values, before.values, ns[i - 1], outs[i - 1], ns[i - 1]);
      forall j | i <= j < |ns| && Live(values, ns[j])
        ensures KeptAll(values, MergeOne(values, before.values, ns[i - 1], outs[i - 1]).0, ns[j].path)
      {
        MergeOneKeeps(values, before.values, ns[i - 1], outs[i - 1], ns[j]);
      }
    }
  }

  // members at the top stay: the paths below an entity start with a key

  ghost predicate KeysKept(j: Json, j': Json) {
    j'.Obj? ==> j.Obj? && j'.fields.Keys == j.fields.Keys
  }

  lemma {:induction false} ListKeysKept(js: seq<Json>, path: seq<Seg>, us: seq<Option<map<Name, Json>>>)
    requires |us| == |WalkAll(js, path)| && path != [] && path[0].Key?
    ensures forall i :: 0 <= i < |js| ==> KeysKept(js[i], MergeList(js, path, us)[i])
  {
    if js != [] {
      var n := |Walk(js[0], path)|;
      ListKeysKept(js[1..], path, us[n..]);
      var rest := MergeList(js[1..], path, us[n..]);
      assert MergeList(js, path, us) == [Merge(js[0], path, us[..n])] + rest;
      forall i | 0 <= i < |js| ensures KeysKept(js[i], MergeList(js, path, us)[i]) {
        if i > 0 {
          assert js[i] == js[1..][i - 1] && MergeList(js, path, us)[i] == rest[i - 1];
        }
      }
    }
  }

  lemma {:induction false} MergedKeysKept(values: seq<Json>, ns: seq<FetchNode>, outs: seq<Outcome>)
    requires |outs| == |ns| && forall n :: n in ns ==> n.path != [] && n.path[0].Key?
    ensures var r := MergeNodes(values, ns, outs).values;
            |r| == |values| && forall i :: 0 <= i < |values| ==> KeysKept(values[i], r[i])
  {
    if ns != [] {
      var i := |ns| - 1;
      MergedKeysKept(values, ns[..i], outs[..i]);
      assert ns[i] in ns;
      var before := MergeNodes(values, ns[..i], outs[..i]).values;
      var reps := RepsAt(values, ns[i]);
      if Present(reps) != [] && outs[i].values != [] && |WalkAll(before, ns[i].path)| == |reps| {
        var us := Align(reps, outs[i].values);
        ListKeysKept(before, ns[i].path, us);
        forall k | 0 <= k < |values| ensures KeysKept(values[k], MergeList(before, ns[i].path, us)[k]) {
          assert KeysKept(before[k], MergeList(before, ns[i].path, us)[k]) && KeysKept(values[k], before[k]);
        }
      }
    }
  }

  ghost predicate Selected(es: seq<Json>, ks: set<Name>) {
    forall e :: e in es && e.Obj? ==> e.fields.Keys <= ks
  }

  lemma {:induction false} SelectedKept(values: seq<Json>, ns: seq<FetchNode>, outs: seq<Outcome>, ks: set<Name>)
    requires |outs| == |ns| && (forall n :: n in ns ==> n.path != [] && n.path[0].Key?) && Selected(values, ks)
    ensures Selected(MergeNodes(values, ns, outs).values, ks)
  {
    MergedKeysKept(values, ns, outs);
    var r := MergeNodes(values, ns, outs).values;
    forall e | e in r && e.Obj? ensures e.fields.Keys <= ks {
      var i :| 0 <= i < |r| && r[i] == e;
      assert KeysKept(values[i], r[i]) && values[i] in values;
    }
  }

  // ----- every run: each fetch may fail or bring anything under its keys

  /** `out` may come of resolving `ns` against `values`. */
  ghost predicate May(ns: seq<FetchNode>, values: seq<Json>, out: Outcome)
    decreases ns, 3
  {
    exists outs: seq<Outcome> :: MayMerge(ns, values, outs) && out == MergeNodes(values, ns, outs)
  }

  ghost predicate MayMerge(ns: seq<FetchNode>, values: seq<Json>, outs: seq<Outcome>)
    decreases ns, 2
  {
    |outs| == |ns| && forall i :: 0 <= i < |ns| ==> MayFetch(ns[i].cut, Present(RepsAt(values, ns[i])), outs[i])
  }

  ghost predicate MayFetch(cut: Cut, reps: seq<map<Name, Json>>, out: Outcome)
    decreases cut, 1
  {
    if reps == [] then out == Outcome([], [], 0)
    else out == Outcome([], [Unreachable(cut.subgraph)], 1) || exists es: seq<Json>, errors: nat, r: Outcome :: MayAnswer(cut, es, errors, r, out)
  }

  ghost predicate MayAnswer(cut: Cut, es: seq<Json>, errors: nat, r: Outcome, out: Outcome)
    decreases cut, 0
  {
    && Selected(es, Keys(cut.text))
    && May(cut.children, es, r)
    && out == Outcome(r.values, [Upstream(cut.subgraph, errors)] + r.problems, 1 + r.fetches)
  }

  // ----- plans whose fetches are apart

  /** Some value has an object on `path` that a fetch of `name` represents. */
  ghost predicate Reaches(path: seq<Seg>, name: Name)
    decreases |path|, 1
  {
    exists tn: Option<Name> :: Passed(tn, path, name)
  }

  ghost predicate Passed(tn: Option<Name>, path: seq<Seg>, name: Name)
    decreases |path|, 0
  {
    var p := Strip(path, tn);
    && p.Some?
    && if p.value == [] then Represented(tn, name)
       else (StripShorter(path, tn); Passable(tn, p.value[0]) && Reaches(p.value[1..], name))
  }

  /** No fetch that can be made has its path crossed by an earlier sibling's
      merge, at any depth. */
  ghost predicate Apart(ns: seq<FetchNode>)
    decreases ns
  {
    && (forall i, j :: 0 <= i < j < |ns| && Reaches(ns[j].path, ns[j].cut.typeName) ==> Uncrossed(ns[j], ns[i]))
    && (forall n :: n in ns && Reaches(n.path, n.cut.typeName) ==> Apart(n.cut.children))
  }

  ghost predicate Uncrossed(later: FetchNode, earlier: FetchNode) {
    Clear(later.path, earlier.path, Keys(earlier.cut.text), earlier.cut.typeName)
  }

  /** As in every plan: paths start with a selected key, at every level. */
  ghost predicate Rooted(ns: seq<FetchNode>, ks: set<Name>)
    decreases ns
  {
    forall n :: n in ns ==> StartsIn(n.path, ks) && Rooted(n.cut.children, Keys(n.cut.text))
  }

  ghost predicate StartsIn(path: seq<Seg>, ks: set<Name>) {
    path != [] && path[0].Key? && path[0].key in ks
  }

  lemma {:induction false} PresentMember<T>(os: seq<Option<T>>, o: Option<T>)
    requires o in os && o.Some?
    ensures o.value in Present(os)
  {
    if os[0] != o {
      PresentMember(os[1..], o);
    }
  }

  lemma {:induction false} WalkReaches(j: Json, path: seq<Seg>, cut: Cut, m: map<Name, Json>)
    requires m in Walk(j, path) && RepOf(m, cut).Some?
    ensures Reaches(path, cut.typeName)
    decreases j, 1
  {
    match j
    case Arr(items) => WalkAllReaches(items, path, cut, m);
    case Obj(o) =>
      var tn := TypeNameOf(o);
      WalkStripped(o, path);
      var p := Strip(path, tn);
      if p.Some? && p.value != [] {
        StripShorter(path, tn);
        var k := p.value[0].key;
        assert k in o && m in Walk(o[k], p.value[1..]);
        WalkReaches(o[k], p.value[1..], cut, m);
      }
      assert Passed(tn, path, cut.typeName);
    case _ =>
  }

  lemma {:induction false} WalkAllReaches(js: seq<Json>, path: seq<Seg>, cut: Cut, m: map<Name, Json>)
    requires m in WalkAll(js, path) && RepOf(m, cut).Some?
    ensures Reaches(path, cut.typeName)
    decreases js, 0
  {
    if m in Walk(js[0], path) {
      WalkReaches(js[0], path, cut, m);
    } else {
      WalkAllReaches(js[1..], path, cut, m);
    }
  }

  lemma {:induction false} LiveReaches(values: seq<Json>, n: FetchNode)
    requires Live(values, n)
    ensures Reaches(n.path, n.cut.typeName)
  {
    var ms := WalkAll(values, n.path);
    var reps := RepsAt(values, n);
    PresentFrom(reps, Present(reps)[0]);
    var i :| 0 <= i < |reps| && reps[i] == Some(Present(reps)[0]);
    WalkAllReaches(values, n.path, n.cut, ms[i]);
  }

  /** Apart fetches converge in every run. */
  lemma {:induction false} ApartConverges(ns: seq<FetchNode>, ks: set<Name>, values: seq<Json>, outs: seq<Outcome>)
    requires Apart(ns) && Rooted(ns, ks) && MayMerge(ns, values, outs)
    ensures Converged(MergeNodes(values, ns, outs).problems)
    decreases ns, 2
  {
    forall i | 0 <= i < |ns| ensures OnlySelected(outs[i], ns[i].cut) && Converged(outs[i].problems) {
      var n := ns[i];
      assert n in ns && MayFetch(n.cut, Present(RepsAt(values, n)), outs[i]);
      if Live(values, n) {
        LiveReaches(values, n);
        FetchApart(n.cut, Present(RepsAt(values, n)), outs[i]);
      }
    }
    forall i, j | 0 <= i < j < |ns| && Live(values, ns[j]) ensures ClearAll(values, ns[j], ns[i]) {
      LiveReaches(values, ns[j]);
      assert Uncrossed(ns[j], ns[i]);
      forall x | 0 <= x < |values| ensures ClearOn(values[x], ns[j].path, ns[i].path, Keys(ns[i].cut.text), ns[i].cut.typeName) {
        ClearEverywhere(values[x], ns[j].path, ns[i].path, Keys(ns[i].cut.text), ns[i].cut.typeName);
      }
    }
    MergesConverge(values, ns, outs, |ns|);
    assert ns[..|ns|] == ns && outs[..|ns|] == outs;
  }

  lemma {:induction false} FetchApart(cut: Cut, reps: seq<map<Name, Json>>, out: Outcome)
    requires Apart(cut.children) && Rooted(cut.children, Keys(cut.text)) && MayFetch(cut, reps, out)
    ensures OnlySelected(out, cut) && Converged(out.problems)
    decreases cut, 0
  {
    if es: seq<Json>, errors: nat, r: Outcome :| MayAnswer(cut, es, errors, r, out) {
      assert May(cut.children, es, r);
      var outs: seq<Outcome> :| MayMerge(cut.children, es, outs) && r == MergeNodes(es, cut.children, outs);
      ApartConverges(cut.children, Keys(cut.text), es, outs);
      forall n | n in cut.children ensures n.path != [] && n.path[0].Key? {
        assert StartsIn(n.path, Keys(cut.text));
      }
      SelectedKept(es, cut.children, outs, Keys(cut.text));
    }
  }

  // ----- values that show a crossing

  /** What an object shows of its type. */
  function Named(tn: Option<Name>): map<Name, Json> {
    if tn.Some? then map[TYPENAME := Str(tn.value)] else map[]
  }

  /** Every key field, under its alias. */
  function KeyMap(ks: seq<Name>): map<Name, Json> {
    if ks == [] then map[] else KeyMap(ks[1..])[KeyAlias(ks[0]) := Bool(true)]
  }

  lemma {:induction false} KeyMapHolds(ks: seq<Name>)
    ensures forall k :: k in ks ==> KeyAlias(k) in KeyMap(ks)
    ensures forall a :: a in KeyMap(ks) ==> IsKeyAlias(a) && KeyMap(ks)[a] == Bool(true)
  {
    if ks != [] {
      KeyMapHolds(ks[1..]);
      AliasFacts(ks[0]);
      assert ks == [ks[0]] + ks[1..];
    }
  }

  /** An object of type name `tn` with the keys of a fetch and one more
      member, under any key a named object can have it at. */
  function Holder(tn: Option<Name>, keys: seq<Name>, more: map<Name, Json>): map<Name, Json> {
    KeyMap(keys) + Named(tn) + more
  }

  lemma {:induction false} HolderFacts(tn: Option<Name>, cut: Cut, more: map<Name, Json>)
    requires forall k :: k in more ==> more[k] != Null
    requires TYPENAME in more ==> tn.None? && !more[TYPENAME].Str?
    ensures TypeNameOf(Holder(tn, cut.keyFields, more)) == tn
    ensures Represented(tn, cut.typeName) ==> RepOf(Holder(tn, cut.keyFields, more), cut).Some?
    ensures forall k :: k in more ==> k in Holder(tn, cut.keyFields, more) && Holder(tn, cut.keyFields, more)[k] == more[k]
  {
    var m := Holder(tn, cut.keyFields, more);
    KeyMapHolds(cut.keyFields);
    AliasFacts("");
    assert TYPENAME !in KeyMap(cut.keyFields) by {
      assert TYPENAME[0] == '_' && "g2__"[0] == 'g';
    }
    forall k | k in cut.keyFields ensures KeyAlias(k) in m && m[KeyAlias(k)] != Null {
      AliasFacts(k);
    }
    MembersFound(m, cut.keyFields);
  }

  lemma {:induction false} StripAgree(path: seq<Seg>, a: Option<Name>, b: Option<Name>)
    requires Strip(path, a).Some? && Strip(path, b).Some?
    ensures Strip(path, a) == Strip(path, b)
  {
    if path != [] && path[0].TypeCond? {
      StripAgree(path[1..], a, b);
    }
  }

  lemma {:induction false} WalkEntered(m: map<Name, Json>, path: seq<Seg>, k: Name)
    requires Enters(TypeNameOf(m), path, k) && k in m
    ensures Walk(Obj(m), path) == Walk(m[k], Strip(path, TypeNameOf(m)).value[1..])
  {
    WalkStripped(m, path);
  }

  /** A path that can be reached is reached by one object. */
  lemma {:induction false} Landing(path: seq<Seg>, cut: Cut) returns (m: map<Name, Json>, o: map<Name, Json>)
    requires Reaches(path, cut.typeName)
    ensures Walk(Obj(m), path) == [o] && RepOf(o, cut).Some?
    decreases |path|
  {
    var tn: Option<Name> :| Passed(tn, path, cut.typeName);
    var p := Strip(path, tn).value;
    if p == [] {
      m := Holder(tn, cut.keyFields, map[]);
      o := m;
      HolderFacts(tn, cut, map[]);
      WalkStripped(m, path);
    } else {
      StripShorter(path, tn);
      var k := p[0].key;
      var sub;
      sub, o := Landing(p[1..], cut);
      m := Holder(tn, [], map[k := Obj(sub)]);
      HolderFacts(tn, cut.(keyFields := []), map[k := Obj(sub)]);
      WalkEntered(m, path, k);
    }
  }

  /** What goes on below an entered key can be reached if the path can. */
  lemma {:induction false} ReachesOn(path: seq<Seg>, name: Name, tn: Option<Name>, k: Name)
    requires Reaches(path, name) && Enters(tn, path, k)
    ensures Reaches(Strip(path, tn).value[1..], name)
  {
    var other: Option<Name> :| Passed(other, path, name);
    StripAgree(path, tn, other);
  }

  /** A crossed path: an object the earlier fetch represents, and members
      under its keys whose merge changes how many objects the later walk
      finds. */
  lemma {:induction false} Crossing(p: seq<Seg>, q: seq<Seg>, a: Cut, b: Cut)
    returns (m: map<Name, Json>, o: map<Name, Json>, u: map<Name, Json>)
    requires !Clear(p, q, Keys(a.text), a.typeName) && Reaches(p, b.typeName)
    ensures Walk(Obj(m), q) == [o] && RepOf(o, a).Some? && u.Keys <= Keys(a.text)
    ensures |Walk(Merge(Obj(m), q, [Some(u)]), p)| != |Walk(Obj(m), p)|
    decreases |q|
  {
    var tn: Option<Name> :| !ClearAt(tn, p, q, Keys(a.text), a.typeName);
    var q' := Strip(q, tn).value;
    if q' == [] {
      m, u := CrossingHere(tn, p, a, b);
      o := m;
      WalkStripped(m, q);
      MergeStrip(m, q, [Some(u)]);
    } else {
      StripShorter(q, tn);
      var k := q'[0].key;
      assert Enters(tn, p, k) && Enters(tn, q, k);
      ReachesOn(p, b.typeName, tn, k);
      var sub;
      sub, o, u := Crossing(Strip(p, tn).value[1..], q'[1..], a, b);
      m := Holder(tn, [], map[k := Obj(sub)]);
      HolderFacts(tn, a.(keyFields := []), map[k := Obj(sub)]);
      CrossingBelow(m, p, q, k, u);
    }
  }

  /** The crossing lies below a member. */
  lemma {:induction false} CrossingBelow(m: map<Name, Json>, p: seq<Seg>, q: seq<Seg>, k: Name, u: map<Name, Json>)
    requires Enters(TypeNameOf(m), p, k) && Enters(TypeNameOf(m), q, k) && k in m
    requires |Walk(m[k], Strip(q, TypeNameOf(m)).value[1..])| == 1
    requires var p', q' := Strip(p, TypeNameOf(m)).value[1..], Strip(q, TypeNameOf(m)).value[1..];
             |Walk(Merge(m[k], q', [Some(u)]), p')| != |Walk(m[k], p')|
    ensures Walk(Obj(m), q) == Walk(m[k], Strip(q, TypeNameOf(m)).value[1..])
    ensures |Walk(Merge(Obj(m), q, [Some(u)]), p)| != |Walk(Obj(m), p)|
  {
    var tn := TypeNameOf(m);
    var q' := Strip(q, tn).value[1..];
    WalkEntered(m, p, k);
    WalkEntered(m, q, k);
    MergeStrip(m, q, [Some(u)]);
    MergeKind(m[k], q', [Some(u)]);
    var m' := m[k := Merge(m[k], q', [Some(u)])];
    assert Merge(Obj(m), q, [Some(u)]) == Obj(m') && TypeNameOf(m') == tn;
    WalkEntered(m', p, k);
  }

  /** The crossing lies at the object itself. */
  lemma {:induction false} CrossingHere(tn: Option<Name>, p: seq<Seg>, a: Cut, b: Cut) returns (m: map<Name, Json>, u: map<Name, Json>)
    requires Represented(tn, a.typeName) && !Spares(tn, p, Keys(a.text)) && Reaches(p, b.typeName)
    ensures TypeNameOf(m) == tn && RepOf(m, a).Some? && u.Keys <= Keys(a.text)
    ensures |Walk(Obj(m + u), p)| != |Walk(Obj(m), p)|
  {
    if Tests(p) && TYPENAME in Keys(a.text) {
      m, u := CrossingType(tn, p, a, b);
    } else {
      var k :| k in Keys(a.text) && Enters(tn, p, k);
      ReachesOn(p, b.typeName, tn, k);
      var sub, _ := Landing(Strip(p, tn).value[1..], b);
      m, u := CrossingKey(tn, p, a, k, sub);
    }
  }

  /** Through a key: the member the later walk goes on through is nulled, or
      brought where a type name stood. */
  lemma {:induction false} CrossingKey(tn: Option<Name>, p: seq<Seg>, a: Cut, k: Name, sub: map<Name, Json>)
    returns (m: map<Name, Json>, u: map<Name, Json>)
    requires Represented(tn, a.typeName) && Enters(tn, p, k) && |Walk(Obj(sub), Strip(p, tn).value[1..])| == 1
    requires Tests(p) ==> k != TYPENAME
    ensures TypeNameOf(m) == tn && RepOf(m, a).Some? && u.Keys == {k}
    ensures |Walk(Obj(m + u), p)| != |Walk(Obj(m), p)|
  {
    if k == TYPENAME && tn.Some? {
      m, u := Holder(tn, a.keyFields, map[]), map[k := Obj(sub)];
      HolderFacts(tn, a, map[]);
      StripUntested(p, tn);
      StripUntested(p, None);
      WalkEntered(m, p, k);
      WalkEntered(m + u, p, k);
    } else {
      m, u := Holder(tn, a.keyFields, map[k := Obj(sub)]), map[k := Null];
      HolderFacts(tn, a, map[k := Obj(sub)]);
      WalkEntered(m, p, k);
      assert TypeNameOf(m + u) == tn;
      WalkEntered(m + u, p, k);
    }
  }

  /** Through the type name: the object loses or gains the type asked for. */
  lemma {:induction false} CrossingType(tn: Option<Name>, p: seq<Seg>, a: Cut, b: Cut) returns (m: map<Name, Json>, u: map<Name, Json>)
    requires Represented(tn, a.typeName) && Tests(p) && TYPENAME in Keys(a.text) && Reaches(p, b.typeName)
    ensures TypeNameOf(m) == tn && RepOf(m, a).Some? && u.Keys == {TYPENAME}
    ensures |Walk(Obj(m + u), p)| != |Walk(Obj(m), p)|
  {
    var other: Option<Name> :| Passed(other, p, b.typeName);
    var c := p[0].ty;
    var p' := Strip(p, other).value;
    assert other == Some(c);
    var more: map<Name, Json> := map[];
    if p' != [] {
      StripShorter(p, other);
      var sub, _ := Landing(p'[1..], b);
      more := map[p'[0].key := Obj(sub)];
    }
    m := Holder(tn, a.keyFields, more);
    HolderFacts(tn, a, more);
    if tn == Some(c) {
      u := map[TYPENAME := Null];
      TypeFound(m, p, c, p', more);
      WalkStripped(m + u, p);
    } else {
      u := map[TYPENAME := Str(c)];
      WalkStripped(m, p);
      TypeFound(m + u, p, c, p', more);
    }
  }

  lemma {:induction false} TypeFound(m: map<Name, Json>, p: seq<Seg>, c: Name, p': seq<Seg>, more: map<Name, Json>)
    requires TypeNameOf(m) == Some(c) && Strip(p, Some(c)) == Some(p')
    requires p' == [] ==> more == map[]
    requires p' != [] ==> p'[0].Key? && p'[0].key in m && p'[0].key in more && m[p'[0].key] == more[p'[0].key]
                          && |Walk(more[p'[0].key], p'[1..])| == 1
    ensures |Walk(Obj(m), p)| == 1
  {
    WalkStripped(m, p);
  }

  // ----- runs that diverge

  /** The outcome of a fetch that fails, or is not made. */
  function Silent(values: seq<Json>, n: FetchNode): Outcome {
    if Live(values, n) then Outcome([], [Unreachable(n.cut.subgraph)], 1) else Outcome([], [], 0)
  }

  function AllSilent(values: seq<Json>, ns: seq<FetchNode>): (outs: seq<Outcome>)
    ensures |outs| == |ns|
  {
    seq(|ns|, i requires 0 <= i < |ns| => Silent(values, ns[i]))
  }

  /** Fetches that bring nothing change nothing. */
  lemma {:induction false} SilentMerges(values: seq<Json>, ns: seq<FetchNode>, outs: seq<Outcome>, i: nat, j: nat)
    requires |outs| == |ns| && i <= j <= |ns| && forall x :: i <= x < j ==> outs[x].values == []
    ensures MergeNodes(values, ns[..j], outs[..j]).values == MergeNodes(values, ns[..i], outs[..i]).values
    decreases j
  {
    if i < j {
      SilentMerges(values, ns, outs, i, j - 1);
      assert ns[..j][..j - 1] == ns[..j - 1] && outs[..j][..j - 1] == outs[..j - 1];
    }
  }

  /** Some run of any fetches changes nothing. */
  lemma {:induction false} QuietRun(ns: seq<FetchNode>, values: seq<Json>) returns (out: Outcome)
    ensures May(ns, values, out) && out.values == values
  {
    var outs := AllSilent(values, ns);
    assert MayMerge(ns, values, outs);
    out := MergeNodes(values, ns, outs);
    SilentMerges(values, ns, outs, 0, |ns|);
    assert ns[..0] == [] && outs[..0] == [] && ns[..|ns|] == ns && outs[..|ns|] == outs;
  }

  /** A fetch may bring any members under its keys. */
  lemma {:induction false} Brings(cut: Cut, reps: seq<map<Name, Json>>, es: seq<Json>) returns (out: Outcome)
    requires reps != [] && Selected(es, Keys(cut.text))
    ensures MayFetch(cut, reps, out) && out.values == es
  {
    var r := QuietRun(cut.children, es);
    out := Outcome(r.values, [Upstream(cut.subgraph, 0)] + r.problems, 1 + r.fetches);
    assert MayAnswer(cut, es, 0, r, out);
  }

  lemma AppendDiverged(a: seq<Problem>, b: seq<Problem>)
    requires !Converged(a) || !Converged(b)
    ensures !Converged(a + b)
  {
    if !Converged(a) {
      var x :| 0 <= x < |a| && a[x].Diverged?;
      assert (a + b)[x].Diverged?;
    } else {
      var x :| 0 <= x < |b| && b[x].Diverged?;
      assert (a + b)[|a| + x].Diverged?;
    }
  }

  /** Problems once met stay on the list. */
  lemma {:induction false} ProblemsStay(values: seq<Json>, ns: seq<FetchNode>, outs: seq<Outcome>, i: nat, j: nat)
    requires |outs| == |ns| && i <= j <= |ns| && !Converged(MergeNodes(values, ns[..i], outs[..i]).problems)
    ensures !Converged(MergeNodes(values, ns[..j], outs[..j]).problems)
    decreases j
  {
    if i < j {
      var n := j - 1;
      ProblemsStay(values, ns, outs, i, n);
      ProblemMet(values, ns, outs, n);
      assert n + 1 == j;
    }
  }

  lemma {:induction false} ProblemMet(values: seq<Json>, ns: seq<FetchNode>, outs: seq<Outcome>, j: nat)
    requires |outs| == |ns| && j < |ns|
    requires var before := MergeNodes(values, ns[..j], outs[..j]);
             !Converged(before.problems) || !Converged(MergeOne(values, before.values, ns[j], outs[j]).1)
    ensures !Converged(MergeNodes(values, ns[..j + 1], outs[..j + 1]).problems)
  {
    assert ns[..j + 1][..j] == ns[..j] && outs[..j + 1][..j] == outs[..j];
    var before := MergeNodes(values, ns[..j], outs[..j]);
    AppendDiverged(before.problems, MergeOne(values, before.values, ns[j], outs[j]).1);
  }

  /** One merge that goes wrong makes the whole run diverge. */
  lemma {:induction false} RunDiverges(values: seq<Json>, ns: seq<FetchNode>, outs: seq<Outcome>, j: nat)
    requires MayMerge(ns, values, outs) && j < |ns|
    requires !Converged(MergeOne(values, MergeNodes(values, ns[..j], outs[..j]).values, ns[j], outs[j]).1)
    ensures May(ns, values, MergeNodes(values, ns, outs)) && !Converged(MergeNodes(values, ns, outs).problems)
  {
    ProblemMet(values, ns, outs, j);
    ProblemsStay(values, ns, outs, j + 1, |ns|);
    assert ns[..|ns|] == ns && outs[..|ns|] == outs;
  }

  lemma OwnProblems(values: seq<Json>, now: seq<Json>, n: FetchNode, out: Outcome)
    requires !Converged(out.problems)
    ensures !Converged(MergeOne(values, now, n, out).1)
  {
    AppendDiverged(out.problems, []);
    AppendDiverged(out.problems, [Diverged(n.cut.subgraph)]);
  }

  lemma {:induction false} OneAnswers(values: seq<Json>, ns: seq<FetchNode>, outs: seq<Outcome>, c: nat, out: Outcome)
    requires MayMerge(ns, values, outs) && c < |ns| && MayFetch(ns[c].cut, Present(RepsAt(values, ns[c])), out)
    ensures MayMerge(ns, values, outs[c := out])
  {
    forall i | 0 <= i < |ns| ensures MayFetch(ns[i].cut, Present(RepsAt(values, ns[i])), outs[c := out][i]) {
      assert MayFetch(ns[i].cut, Present(RepsAt(values, ns[i])), outs[i]);
    }
  }

  lemma {:induction false} SilentMay(values: seq<Json>, ns: seq<FetchNode>)
    ensures MayMerge(ns, values, AllSilent(values, ns))
  {
    forall i | 0 <= i < |ns| ensures MayFetch(ns[i].cut, Present(RepsAt(values, ns[i])), AllSilent(values, ns)[i]) {
      assert AllSilent(values, ns)[i] == Silent(values, ns[i]);
    }
  }

  /** A run below one fetch that diverges makes the whole run diverge. */
  lemma {:induction false} DivergesBelow(ns: seq<FetchNode>, ks: set<Name>, c: nat, e: map<Name, Json>, r: Outcome)
    returns (data: map<Name, Json>, out: Outcome)
    requires Rooted(ns, ks) && c < |ns| && Reaches(ns[c].path, ns[c].cut.typeName)
    requires e.Keys <= Keys(ns[c].cut.text) && May(ns[c].cut.children, [Obj(e)], r) && !Converged(r.problems)
    ensures data.Keys <= ks && May(ns, [Obj(data)], out) && !Converged(out.problems)
  {
    var n := ns[c];
    var k := RootKey(ns, ks, c);
    var sub, o := Landing(n.path[1..], n.cut);
    data := map[k := Obj(sub)];
    var values := [Obj(data)];
    OneFound(data, n, k, o);
    var mine := Outcome(r.values, [Upstream(n.cut.subgraph, 0)] + r.problems, 1 + r.fetches);
    assert MayAnswer(n.cut, [Obj(e)], 0, r, mine);
    AppendDiverged([Upstream(n.cut.subgraph, 0)], r.problems);
    var silent := AllSilent(values, ns);
    SilentMay(values, ns);
    OneAnswers(values, ns, silent, c, mine);
    var outs := silent[c := mine];
    OwnProblems(values, MergeNodes(values, ns[..c], outs[..c]).values, n, mine);
    RunDiverges(values, ns, outs, c);
    out := MergeNodes(values, ns, outs);
  }

  /** The key a rooted path starts with; what follows it can be reached. */
  lemma {:induction false} RootKey(ns: seq<FetchNode>, ks: set<Name>, c: nat) returns (k: Name)
    requires Rooted(ns, ks) && c < |ns| && Reaches(ns[c].path, ns[c].cut.typeName)
    ensures k in ks && ns[c].path != [] && ns[c].path[0] == Key(k) && Reaches(ns[c].path[1..], ns[c].cut.typeName)
  {
    var p := ns[c].path;
    assert ns[c] in ns && StartsIn(p, ks);
    k := p[0].key;
    ReachesOn(p, ns[c].cut.typeName, None, k);
  }

  lemma {:induction false} OneFound(data: map<Name, Json>, n: FetchNode, k: Name, o: map<Name, Json>)
    requires n.path != [] && n.path[0] == Key(k) && k in data && Walk(data[k], n.path[1..]) == [o] && RepOf(o, n.cut).Some?
    ensures Live([Obj(data)], n)
  {
    var values := [Obj(data)];
    assert values[1..] == [] && WalkAll(values, n.path) == [o] + [];
    assert RepsAt(values, n) == [RepOf(o, n.cut)];
  }

  // a crossed path, next to an object that keeps the later fetch going

  function Pair(k: Name, x: Json, y: Json): seq<Json> {
    [Obj(map[k := Arr([x, y])])]
  }

  lemma {:induction false} PairWalk(k: Name, x: Json, y: Json, p: seq<Seg>)
    requires p != [] && p[0] == Key(k)
    ensures WalkAll(Pair(k, x, y), p) == Walk(x, p[1..]) + Walk(y, p[1..])
  {
    var p' := p[1..];
    assert WalkAll([], p) == [] && WalkAll([], p') == [];
    assert [x, y][1..] == [y] && [y][1..] == [] && Pair(k, x, y)[1..] == [];
    assert WalkAll([y], p') == Walk(y, p') + [];
    assert WalkAll([x, y], p') == Walk(x, p') + WalkAll([y], p');
    var v := Obj(map[k := Arr([x, y])]);
    assert WalkAll([v], p) == Walk(v, p) + [];
    assert Walk(v, p) == Walk(Arr([x, y]), p');
  }

  lemma {:induction false} ListMerge(x: Json, y: Json, q: seq<Seg>, us: seq<Option<map<Name, Json>>>)
    requires |Walk(x, q)| == 1 && |us| == 1 + |Walk(y, q)| && forall i :: 1 <= i < |us| ==> us[i].None?
    ensures |WalkAll([x, y], q)| == |us| && MergeList([x, y], q, us) == [Merge(x, q, us[..1]), y]
  {
    assert [x, y][1..] == [y] && [y][1..] == [] && WalkAll([], q) == [];
    assert WalkAll([y], q) == Walk(y, q) + [];
    assert us[1..][..|us| - 1] == us[1..];
    MergeNothingOne(y, q, us[1..]);
    assert MergeList([y], q, us[1..]) == [y] + [];
    assert MergeList([x, y], q, us) == [Merge(x, q, us[..1])] + MergeList([y], q, us[1..]);
  }

  lemma {:induction false} PairMerge(k: Name, x: Json, y: Json, q: seq<Seg>, us: seq<Option<map<Name, Json>>>)
    requires q != [] && q[0] == Key(k) && us != [] && |Walk(x, q[1..])| == 1 && |us| == |WalkAll(Pair(k, x, y), q)|
    requires forall i :: 1 <= i < |us| ==> us[i].None?
    ensures MergeList(Pair(k, x, y), q, us) == Pair(k, Merge(x, q[1..], us[..1]), y)
  {
    var v := Obj(map[k := Arr([x, y])]);
    PairWalk(k, x, y, q);
    ListMerge(x, y, q[1..], us);
    assert WalkAll([v], q) == Walk(v, q) + WalkAll([], q) && WalkAll([], q) == [];
    assert Walk(v, q) == Walk(Arr([x, y]), q[1..]);
    assert us[..|us|] == us;
    assert Merge(v, q, us) == Obj(v.fields[k := Arr(MergeList([x, y], q[1..], us))]);
    assert v.fields[k := Arr(MergeList([x, y], q[1..], us))] == map[k := Arr(MergeList([x, y], q[1..], us))];
    assert MergeList([v], q, us) == [Merge(v, q, us)] + [];
  }

  lemma {:induction false} AlignFirst(reps: seq<Option<map<Name, Json>>>, u: map<Name, Json>)
    requires reps != [] && reps[0].Some?
    ensures Align(reps, [Obj(u)])[..1] == [Some(u)]
    ensures forall i :: 1 <= i < |reps| ==> Align(reps, [Obj(u)])[i].None?
  {
    forall i | 1 <= i < |reps| ensures Align(reps, [Obj(u)])[i].None? {
      AlignAt(reps, [Obj(u)], i);
      assert reps[..i][0] == reps[0];
    }
  }

  /** The later of two merges misses its objects when the earlier one
      changed how many there are. */
  lemma {:induction false} SecondMisses(values: seq<Json>, ns: seq<FetchNode>, outs: seq<Outcome>, i: nat, j: nat, now: seq<Json>)
    requires MayMerge(ns, values, outs) && i < j < |ns|
    requires forall x :: 0 <= x < j && x != i ==> outs[x].values == []
    requires MergeOne(values, values, ns[i], outs[i]).0 == now && |WalkAll(now, ns[j].path)| != |WalkAll(values, ns[j].path)|
    requires Live(values, ns[j]) && outs[j].values != []
    ensures May(ns, values, MergeNodes(values, ns, outs)) && !Converged(MergeNodes(values, ns, outs).problems)
  {
    SilentMerges(values, ns, outs, 0, i);
    SilentMerges(values, ns, outs, i + 1, j);
    assert ns[..0] == [] && outs[..0] == [];
    assert ns[..i + 1][..i] == ns[..i] && outs[..i + 1][..i] == outs[..i];
    assert MergeNodes(values, ns[..j], outs[..j]).values == now;
    assert [Diverged(ns[j].cut.subgraph)][0].Diverged?;
    AppendDiverged(outs[j].problems, [Diverged(ns[j].cut.subgraph)]);
    RunDiverges(values, ns, outs, j);
  }

  /** Two crossed fetches start at one key and are crossed below it. */
  lemma {:induction false} CrossedBelow(later: FetchNode, earlier: FetchNode, ks: set<Name>) returns (k: Name)
    requires StartsIn(later.path, ks) && StartsIn(earlier.path, ks) && !Uncrossed(later, earlier)
    ensures k in ks && later.path[0] == Key(k) && earlier.path[0] == Key(k)
    ensures !Clear(later.path[1..], earlier.path[1..], Keys(earlier.cut.text), earlier.cut.typeName)
  {
    k := earlier.path[0].key;
    assert !Clear(later.path, earlier.path, Keys(earlier.cut.text), earlier.cut.typeName);
    var tn: Option<Name> :| !ClearAt(tn, later.path, earlier.path, Keys(earlier.cut.text), earlier.cut.typeName);
    StripUntested(later.path, tn);
    StripUntested(earlier.path, tn);
  }

  /** What the crossing shows: with `x` crossed, `y` found by the later walk. */
  lemma {:induction false} CrossedPair(k: Name, a: FetchNode, b: FetchNode, x: map<Name, Json>, o: map<Name, Json>, u: map<Name, Json>,
                                       y: map<Name, Json>, t: map<Name, Json>, out: Outcome)
    requires a.path != [] && a.path[0] == Key(k) && b.path != [] && b.path[0] == Key(k)
    requires Walk(Obj(x), a.path[1..]) == [o] && RepOf(o, a.cut).Some? && out.values == [Obj(u)]
    requires |Walk(Merge(Obj(x), a.path[1..], [Some(u)]), b.path[1..])| != |Walk(Obj(x), b.path[1..])|
    requires Walk(Obj(y), b.path[1..]) == [t] && RepOf(t, b.cut).Some?
    ensures var values := Pair(k, Obj(x), Obj(y));
            && Live(values, a) && Live(values, b)
            && |WalkAll(MergeOne(values, values, a, out).0, b.path)| != |WalkAll(values, b.path)|
  {
    var values := Pair(k, Obj(x), Obj(y));
    var reps := RepsAt(values, a);
    PairWalk(k, Obj(x), Obj(y), a.path);
    PairWalk(k, Obj(x), Obj(y), b.path);
    assert reps[0] == RepOf(o, a.cut);
    assert RepsAt(values, b)[|WalkAll(values, b.path)| - 1] == RepOf(t, b.cut);
    PresentMember(RepsAt(values, b), RepOf(t, b.cut));
    AlignFirst(reps, u);
    var us := Align(reps, [Obj(u)]);
    PairMerge(k, Obj(x), Obj(y), a.path, us);
    assert MergeOne(values, values, a, out).0 == MergeList(values, a.path, us);
    PairWalk(k, Merge(Obj(x), a.path[1..], us[..1]), Obj(y), b.path);
  }

  /** A crossed fetch that can be made diverges in some run. */
  lemma {:induction false} CrossedDiverges(ns: seq<FetchNode>, ks: set<Name>, i: nat, j: nat) returns (data: map<Name, Json>, out: Outcome)
    requires Rooted(ns, ks) && i < j < |ns| && Reaches(ns[j].path, ns[j].cut.typeName) && !Uncrossed(ns[j], ns[i])
    ensures data.Keys <= ks && May(ns, [Obj(data)], out) && !Converged(out.problems)
  {
    var a, b := ns[i], ns[j];
    assert a in ns && b in ns;
    var k := CrossedBelow(b, a, ks);
    var k' := RootKey(ns, ks, j);
    var x, o, u := Crossing(b.path[1..], a.path[1..], a.cut, b.cut);
    var y, t := Landing(b.path[1..], b.cut);
    data := map[k := Arr([Obj(x), Obj(y)])];
    var values := [Obj(data)];
    assert values == Pair(k, Obj(x), Obj(y));
    out := PairRun(ns, i, j, values, k, x, o, u, y, t);
  }

  lemma {:induction false} PairRun(ns: seq<FetchNode>, i: nat, j: nat, values: seq<Json>, k: Name, x: map<Name, Json>, o: map<Name, Json>,
                                   u: map<Name, Json>, y: map<Name, Json>, t: map<Name, Json>) returns (out: Outcome)
    requires i < j < |ns| && values == Pair(k, Obj(x), Obj(y)) && u.Keys <= Keys(ns[i].cut.text)
    requires ns[i].path != [] && ns[i].path[0] == Key(k) && ns[j].path != [] && ns[j].path[0] == Key(k)
    requires Walk(Obj(x), ns[i].path[1..]) == [o] && RepOf(o, ns[i].cut).Some?
    requires |Walk(Merge(Obj(x), ns[i].path[1..], [Some(u)]), ns[j].path[1..])| != |Walk(Obj(x), ns[j].path[1..])|
    requires Walk(Obj(y), ns[j].path[1..]) == [t] && RepOf(t, ns[j].cut).Some?
    ensures May(ns, values, out) && !Converged(out.problems)
  {
    CrossedPair(k, ns[i], ns[j], x, o, u, y, t, Outcome([Obj(u)], [], 0));
    var first := Brings(ns[i].cut, Present(RepsAt(values, ns[i])), [Obj(u)]);
    var second := Brings(ns[j].cut, Present(RepsAt(values, ns[j])), [Null]);
    CrossedPair(k, ns[i], ns[j], x, o, u, y, t, first);
    var silent := AllSilent(values, ns);
    SilentMay(values, ns);
    OneAnswers(values, ns, silent, i, first);
    OneAnswers(values, ns, silent[i := first], j, second);
    var outs := silent[i := first][j := second];
    SecondMisses(values, ns, outs, i, j, MergeOne(values, values, ns[i], first).0);
    out := MergeNodes(values, ns, outs);
  }

  /** Fetches that are not apart diverge in some run. */
  lemma {:induction false} Diverges(ns: seq<FetchNode>, ks: set<Name>) returns (data: map<Name, Json>, out: Outcome)
    requires Rooted(ns, ks) && !Apart(ns)
    ensures data.Keys <= ks && May(ns, [Obj(data)], out) && !Converged(out.problems)
    decreases ns
  {
    if n :| n in ns && Reaches(n.path, n.cut.typeName) && !Apart(n.cut.children) {
      var e, r := Diverges(n.cut.children, Keys(n.cut.text));
      var c :| 0 <= c < |ns| && ns[c] == n;
      data, out := DivergesBelow(ns, ks, c, e, r);
    } else {
      var i, j :| 0 <= i < j < |ns| && Reaches(ns[j].path, ns[j].cut.typeName) && !Uncrossed(ns[j], ns[i]);
      data, out := CrossedDiverges(ns, ks, i, j);
    }
  }

  /** The merge walk finds its objects in every run from values under `ks`. */
  ghost predicate AlwaysConverges(ns: seq<FetchNode>, ks: set<Name>) {
    forall data: map<Name, Json>, out: Outcome :: data.Keys <= ks && May(ns, [Obj(data)], out) ==> Converged(out.problems)
  }

  /** The branch the code marks unreachable is unreachable, whatever the
      subgraphs bring under the keys they were asked for, exactly when no
      fetch has its path crossed by an earlier sibling. */
  lemma {:induction false} ConvergesExactly(ns: seq<FetchNode>, ks: set<Name>)
    requires Rooted(ns, ks)
    ensures AlwaysConverges(ns, ks) <==> Apart(ns)
  {
    if Apart(ns) {
      forall data: map<Name, Json>, out: Outcome | data.Keys <= ks && May(ns, [Obj(data)], out) ensures Converged(out.problems) {
        var outs: seq<Outcome> :| MayMerge(ns, [Obj(data)], outs) && out == MergeNodes([Obj(data)], ns, outs);
        ApartConverges(ns, ks, [Obj(data)], outs);
      }
    } else {
      var data, out := Diverges(ns, ks);
    }
  }

  // ----- every plan is rooted

  /** The cut of a planned fetch comes of one group of foreign fields. */
  ghost predicate CutFrom(e: Engine, n: FetchNode, depth: nat) {
    exists p: Name, g: Group :: n.cut == CutNode(e, p, g).cut && FieldsDepth(g.fields) <= depth
  }

  lemma {:induction false} NodeFrom(e: Engine, sg: nat, p: Name, sels: seq<Sel>, n: FetchNode)
    requires n in Nodes(e, sg, p, sels)
    ensures CutFrom(e, n, DepthOf(sels))
    decreases DepthOf(sels), 3
  {
    var gs := Groups(e, p, Cuts(e, sg, p, sels));
    if n in CutNodes(e, p, gs) {
      CutNodesAt(e, p, gs);
      var i :| 0 <= i < |gs| && n == CutNode(e, p, gs[i]);
      GroupsDepthMember(gs, gs[i]);
    } else {
      LocalFrom(e, sg, p, sels, n);
    }
  }

  lemma {:induction false} LocalFrom(e: Engine, sg: nat, p: Name, sels: seq<Sel>, n: FetchNode)
    requires n in LocalNodes(e, sg, p, sels)
    ensures CutFrom(e, n, DepthOf(sels))
    decreases DepthOf(sels), 2, |sels|
  {
    if n in SelNodes(e, sg, p, sels[0]) {
      SelFrom(e, sg, p, sels[0], n);
    } else {
      LocalFrom(e, sg, p, sels[1..], n);
    }
  }

  lemma {:induction false} SelFrom(e: Engine, sg: nat, p: Name, x: Sel, n: FetchNode)
    requires n in SelNodes(e, sg, p, x)
    ensures CutFrom(e, n, Depth(x))
    decreases Depth(x), 1
  {
    match x
    case F(f) => FieldFrom(e, sg, f, n);
    case Frag(cond, _, sub) =>
      PrefixHeads(TypeCond(cond), Nodes(e, sg, cond, sub));
      var n' := if cond != p then n.(path := n.path[1..]) else n;
      NodeFrom(e, sg, cond, sub, n');
  }

  lemma {:induction false} FieldFrom(e: Engine, sg: nat, f: Field, n: FetchNode)
    requires n in FieldNodes(e, sg, f)
    ensures n.path != [] && n.path[0] == Key(f.Key()) && CutFrom(e, n, DepthOf(f.sels))
    decreases DepthF(f), 0
  {
    PrefixHeads(Key(f.Key()), Nodes(e, sg, f.ty, f.sels));
    NodeFrom(e, sg, f.ty, f.sels, n.(path := n.path[1..]));
  }

  lemma {:induction false} PlanRooted(e: Engine, sg: nat, fs: seq<Field>)
    ensures Rooted(FieldsNodes(e, sg, fs), Keys(fs))
    decreases FieldsDepth(fs), 1
  {
    forall n | n in FieldsNodes(e, sg, fs) ensures StartsIn(n.path, Keys(fs)) && Rooted(n.cut.children, Keys(n.cut.text)) {
      var f := SourceField(e, sg, fs, n);
      FieldFrom(e, sg, f, n);
      assert f.Key() in Keys(fs);
      var p: Name, g: Group :| n.cut == CutNode(e, p, g).cut && FieldsDepth(g.fields) <= DepthOf(f.sels);
      PrintedKeys(e, g.target, g.fields, "");
      PlanRooted(e, g.target, g.fields);
    }
  }

  lemma {:induction false} SourceField(e: Engine, sg: nat, fs: seq<Field>, n: FetchNode) returns (f: Field)
    requires n in FieldsNodes(e, sg, fs)
    ensures f in fs && n in FieldNodes(e, sg, f) && DepthF(f) <= FieldsDepth(fs)
  {
    if n in FieldNodes(e, sg, fs[0]) {
      f := fs[0];
    } else {
      f := SourceField(e, sg, fs[1..], n);
    }
  }

  /** For every client selection: the plan converges in every run exactly
      when its fetches are apart. */
  lemma {:induction false} PlansConvergeExactly(e: Engine, sg: nat, fs: seq<Field>)
    ensures AlwaysConverges(FieldsNodes(e, sg, fs), Keys(fs)) <==> Apart(FieldsNodes(e, sg, fs))
  {
    PlanRooted(e, sg, fs);
    ConvergesExactly(FieldsNodes(e, sg, fs), Keys(fs));
  }

  // ----- the resolver is one of the runs

  /** Entities hold only keys they were asked for. */
  ghost predicate AsAsked(ft: Fetch) {
    forall req :: EntitiesAsAsked(req, ft(req))
  }

  ghost predicate EntitiesAsAsked(req: Request, reply: Reply) {
    req.reps.Some? && reply.Answer? ==> Selected(Entities(reply.data), Keys(req.text))
  }

  lemma {:induction false} FetchMay(ft: Fetch, op: Operation, rv: Name, reps: seq<map<Name, Json>>, cut: Cut)
    requires AsAsked(ft)
    ensures MayFetch(cut, reps, FetchCut(ft, op, rv, reps, cut))
    decreases cut, 0
  {
    var req := EntityRequest(op, rv, cut, reps);
    if reps != [] && ft(req).Answer? {
      assert EntitiesAsAsked(req, ft(req));
      var es := Entities(ft(req).data);
      ResolveMay(ft, op, rv, es, cut.children);
      assert MayAnswer(cut, es, ft(req).errors, ResolveNodes(ft, op, rv, es, cut.children), FetchCut(ft, op, rv, reps, cut));
    }
  }

  lemma {:induction false} FetchAllMay(ft: Fetch, op: Operation, rv: Name, values: seq<Json>, ns: seq<FetchNode>)
    requires AsAsked(ft)
    ensures MayMerge(ns, values, FetchAll(ft, op, rv, values, ns))
    decreases ns, 1
  {
    if ns != [] {
      var c := |ns| - 1;
      FetchAllMay(ft, op, rv, values, ns[..c]);
      var n := ns[c];
      FetchMay(ft, op, rv, Present(RepsAt(values, n)), n.cut);
      var outs := FetchAll(ft, op, rv, values, ns);
      forall i | 0 <= i < |ns| ensures MayFetch(ns[i].cut, Present(RepsAt(values, ns[i])), outs[i]) {
        if i < c {
          assert ns[i] == ns[..c][i] && outs[i] == FetchAll(ft, op, rv, values, ns[..c])[i];
        }
      }
    }
  }

  lemma {:induction false} ResolveMay(ft: Fetch, op: Operation, rv: Name, values: seq<Json>, ns: seq<FetchNode>)
    requires AsAsked(ft)
    ensures May(ns, values, ResolveNodes(ft, op, rv, values, ns))
    decreases ns, 2
  {
    FetchAllMay(ft, op, rv, values, ns);
  }
}
