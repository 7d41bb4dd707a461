/** The batched resolver computes the object-by-object meaning: one fetch
    per cut, alignment by position and merging in place agree with applying
    every cut to every object, when subgraphs answer faithfully. */
module Refinement {
  import opened Basics
  import opened GraphQl
  import opened Plan
  import opened PlanFacts
  import opened Exec
  import opened Resolver

  // ----- faithful replies

  ghost function RawEntity(x: Run, cut: Cut, rep: map<Name, Json>): Json {
    var o := Find(x.c.w, cut.typeName, cut.keyFields, rep);
    if o.None? then Null else Obj(EvalObj(SubCtx(x, cut.subgraph), o.value, cut.text))
  }

  ghost function RawEntities(x: Run, cut: Cut, reps: seq<map<Name, Json>>): seq<Json> {
    seq(|reps|, i requires 0 <= i < |reps| => RawEntity(x, cut, reps[i]))
  }

  /** Every request of the fetch tree gets the entities of its own
      representations, in order, evaluated on the store. */
  ghost predicate Faithful(x: Run, ft: Fetch, op: Operation, rv: Name, ns: seq<FetchNode>)
    decreases ns, 1
  {
    forall n :: n in ns ==> FaithfulCut(x, ft, op, rv, n.cut)
  }

  ghost predicate FaithfulCut(x: Run, ft: Fetch, op: Operation, rv: Name, cut: Cut)
    decreases cut, 0
  {
    && (forall reps: seq<map<Name, Json>> :: ft(EntityRequest(op, rv, cut, reps)) ==
          Answer(Some(map["_entities" := Arr(RawEntities(x, cut, reps))]), 0))
    && Faithful(x, ft, op, rv, cut.children)
  }

  // ----- stable representations

  function RepsOne(j: Json, n: FetchNode): seq<Option<map<Name, Json>>> {
    RepsOf(Walk(j, n.path), n.cut)
  }

  /** Earlier merges never change a later sibling's representations, here
      and in every entity fetched below. */
  ghost predicate Stable(x: Run, j: Json, ns: seq<FetchNode>)
    decreases ns, 1
  {
    && (forall i: nat :: i < |ns| ==> Unmoved(x, j, ns, i))
    && (forall n, rep :: n in ns && Some(rep) in RepsOne(j, n) ==> EntityStable(x, n.cut, rep))
  }

  ghost predicate Unmoved(x: Run, j: Json, ns: seq<FetchNode>, i: nat)
    requires i < |ns|
  {
    RepsOne(ApplyNodes(x, j, ns[..i]), ns[i]) == RepsOne(j, ns[i])
  }

  ghost predicate EntityStable(x: Run, cut: Cut, rep: map<Name, Json>)
    decreases cut, 0
  {
    Stable(x, RawEntity(x, cut, rep), cut.children)
  }

  // ----- stability of lists, leaves and objects

  lemma {:induction false} StableScalar(x: Run, j: Json, ns: seq<FetchNode>)
    requires !j.Arr? && !j.Obj?
    ensures Stable(x, j, ns)
  {
    forall i: nat | i < |ns| ensures Unmoved(x, j, ns, i) {
      ApplyScalar(x, j, ns[..i]);
    }
  }

  lemma {:induction false} RepsOfAppend(a: seq<map<Name, Json>>, b: seq<map<Name, Json>>, cut: Cut)
    ensures RepsOf(a + b, cut) == RepsOf(a, cut) + RepsOf(b, cut)
  {
  }

  lemma {:induction false} SameReps(js: seq<Json>, js': seq<Json>, n: FetchNode)
    requires |js| == |js'|
    requires forall i :: 0 <= i < |js| ==> RepsOne(js[i], n) == RepsOne(js'[i], n)
    ensures RepsAt(js, n) == RepsAt(js', n)
  {
    if js != [] {
      assert RepsOne(js[0], n) == RepsOne(js'[0], n);
      forall i | 0 <= i < |js[1..]| ensures RepsOne(js[1..][i], n) == RepsOne(js'[1..][i], n) {
        assert RepsOne(js[i + 1], n) == RepsOne(js'[i + 1], n);
      }
      SameReps(js[1..], js'[1..], n);
      RepsOfAppend(Walk(js[0], n.path), WalkAll(js[1..], n.path), n.cut);
      RepsOfAppend(Walk(js'[0], n.path), WalkAll(js'[1..], n.path), n.cut);
    }
  }

  lemma {:induction false} RepsFrom(js: seq<Json>, n: FetchNode, r: Option<map<Name, Json>>)
    requires r in RepsAt(js, n)
    ensures exists i :: 0 <= i < |js| && r in RepsOne(js[i], n)
  {
    RepsOfAppend(Walk(js[0], n.path), WalkAll(js[1..], n.path), n.cut);
    if r in RepsOne(js[0], n) {
    } else {
      RepsFrom(js[1..], n, r);
      var i :| 0 <= i < |js[1..]| && r in RepsOne(js[1..][i], n);
      assert r in RepsOne(js[i + 1], n);
    }
  }

  lemma {:induction false} StableList(x: Run, items: seq<Json>, ns: seq<FetchNode>)
    requires forall i :: 0 <= i < |items| ==> Stable(x, items[i], ns)
    ensures Stable(x, Arr(items), ns)
  {
    forall i: nat | i < |ns| ensures Unmoved(x, Arr(items), ns, i) {
      ApplyList(x, items, ns[..i]);
      var out := ApplyNodes(x, Arr(items), ns[..i]).items;
      forall k | 0 <= k < |items| ensures RepsOne(out[k], ns[i]) == RepsOne(items[k], ns[i]) {
        assert Stable(x, items[k], ns) && Unmoved(x, items[k], ns, i);
      }
      SameReps(out, items, ns[i]);
      assert RepsOne(Arr(out), ns[i]) == RepsAt(out, ns[i]);
      assert RepsOne(Arr(items), ns[i]) == RepsAt(items, ns[i]);
    }
    forall n, rep | n in ns && Some(rep) in RepsOne(Arr(items), n) ensures EntityStable(x, n.cut, rep) {
      assert RepsOne(Arr(items), n) == RepsAt(items, n);
      RepsFrom(items, n, Some(rep));
      var k :| 0 <= k < |items| && Some(rep) in RepsOne(items[k], n);
      assert Stable(x, items[k], ns);
    }
  }

  lemma {:induction false} SteadyPrefix(x: Run, m: map<Name, Json>, ns: seq<FetchNode>, i: nat)
    requires Steady(x, m, ns) && i <= |ns|
    ensures Steady(x, m, ns[..i])
    decreases |ns|
  {
    if i < |ns| {
      var n := |ns| - 1;
      assert ns == ns[..n] + [ns[n]];
      SteadyInit(x, m, ns[..n], ns[n]);
      SteadyPrefix(x, m, ns[..n], i);
      assert ns[..n][..i] == ns[..i];
    } else {
      assert ns[..i] == ns;
    }
  }

  /** The fetches at and below one member split at sibling `i`. */
  lemma {:induction false} DerivSplit(tn: Option<Name>, k: Name, ns: seq<FetchNode>, i: nat)
    requires i < |ns|
    ensures Deriv(tn, k, ns) == Deriv(tn, k, ns[..i]) + DerivOne(tn, k, ns[i]) + Deriv(tn, k, ns[i + 1..])
    ensures Own(tn, ns) == Own(tn, ns[..i]) + OwnOne(tn, ns[i]) + Own(tn, ns[i + 1..])
  {
    assert ns == ns[..i] + ns[i..] && ns[i..][0] == ns[i] && ns[i..][1..] == ns[i + 1..];
    DerivAppend(tn, k, ns[..i], ns[i..]);
    OwnAppend(tn, ns[..i], ns[i..]);
    Nested(Deriv(tn, k, ns[..i]), DerivOne(tn, k, ns[i]), Deriv(tn, k, ns[i + 1..]));
    Nested(Own(tn, ns[..i]), OwnOne(tn, ns[i]), Own(tn, ns[i + 1..]));
  }

  lemma Nested<T>(a: seq<T>, b: seq<T>, c: seq<T>)
    ensures a + (b + c) == a + b + c
  {
  }

  /** An object is stable when merging at it is steady, every member is
      stable for the fetches below it, and so is every entity fetched here. */
  lemma {:induction false} StableObject(x: Run, m: map<Name, Json>, ns: seq<FetchNode>)
    requires Steady(x, m, ns)
    requires forall k :: k in m ==> Stable(x, m[k], Deriv(TypeNameOf(m), k, ns))
    requires forall n, rep :: n in Own(TypeNameOf(m), ns) && RepOf(m, n.cut) == Some(rep) ==> EntityStable(x, n.cut, rep)
    ensures Stable(x, Obj(m), ns)
  {
    forall i: nat | i < |ns| ensures Unmoved(x, Obj(m), ns, i) {
      StableAt(x, m, ns, i);
    }
    forall n, rep | n in ns && Some(rep) in RepsOne(Obj(m), n) ensures EntityStable(x, n.cut, rep) {
      var i :| 0 <= i < |ns| && ns[i] == n;
      StableEntity(x, m, ns, i, rep);
    }
  }

  lemma {:induction false} StableEntity(x: Run, m: map<Name, Json>, ns: seq<FetchNode>, i: nat, rep: map<Name, Json>)
    requires i < |ns| && Some(rep) in RepsOne(Obj(m), ns[i])
    requires forall k :: k in m ==> Stable(x, m[k], Deriv(TypeNameOf(m), k, ns))
    requires forall n, rep :: n in Own(TypeNameOf(m), ns) && RepOf(m, n.cut) == Some(rep) ==> EntityStable(x, n.cut, rep)
    ensures EntityStable(x, ns[i].cut, rep)
  {
    var tn := TypeNameOf(m);
    WalkStripped(m, ns[i].path);
    var p := Strip(ns[i].path, tn);
    if p.Some? {
      DerivSplit(tn, "", ns, i);
      if p.value == [] {
        assert ns[i].(path := []) in Own(tn, ns);
      } else {
        StripHead(ns[i].path, tn);
        var k := p.value[0].key;
        DerivSplit(tn, k, ns, i);
        var below := ns[i].(path := p.value[1..]);
        assert below in Deriv(tn, k, ns);
        assert Some(rep) in RepsOne(m[k], below);
      }
    }
  }

  lemma {:induction false} StableAt(x: Run, m: map<Name, Json>, ns: seq<FetchNode>, i: nat)
    requires Steady(x, m, ns) && i < |ns|
    requires forall k :: k in m ==> Stable(x, m[k], Deriv(TypeNameOf(m), k, ns))
    ensures RepsOne(ApplyNodes(x, Obj(m), ns[..i]), ns[i]) == RepsOne(Obj(m), ns[i])
  {
    var tn := TypeNameOf(m);
    var n := ns[i];
    var m' := Applied(x, m, ns[..i]);
    SteadyPrefix(x, m, ns, i);
    ApplyObject(x, m, ns[..i]);
    SteadyMembers(x, m, ns[..i], TYPENAME);
    WalkStripped(m, n.path);
    WalkStripped(m', n.path);
    var p := Strip(n.path, tn);
    if p.Some? {
      if p.value == [] {
        OwnStable(x, m, ns, i);
      } else {
        StripHead(n.path, tn);
        BelowStable(x, m, ns, i, p.value[0].key, p.value[1..]);
      }
    }
  }

  lemma {:induction false} OwnStable(x: Run, m: map<Name, Json>, ns: seq<FetchNode>, i: nat)
    requires Steady(x, m, ns) && i < |ns| && Steady(x, m, ns[..i])
    requires Strip(ns[i].path, TypeNameOf(m)) == Some([])
    ensures RepOf(Applied(x, m, ns[..i]), ns[i].cut) == RepOf(m, ns[i].cut)
  {
    DerivSplit(TypeNameOf(m), "", ns, i);
    assert ns[i].(path := []) in Own(TypeNameOf(m), ns);
    SteadyGain(x, m, ns[..i], ns[i].cut);
  }

  lemma {:induction false} BelowStable(x: Run, m: map<Name, Json>, ns: seq<FetchNode>, i: nat, k: Name, p: seq<Seg>)
    requires Steady(x, m, ns) && i < |ns|
    requires Strip(ns[i].path, TypeNameOf(m)).Some? && Strip(ns[i].path, TypeNameOf(m)).value != []
    requires Strip(ns[i].path, TypeNameOf(m)).value[0] == Key(k) && Strip(ns[i].path, TypeNameOf(m)).value[1..] == p
    requires k in m ==> Stable(x, m[k], Deriv(TypeNameOf(m), k, ns))
    ensures k in Applied(x, m, ns[..i]) <==> k in m
    ensures k in m ==> RepsOf(Walk(Applied(x, m, ns[..i])[k], p), ns[i].cut) == RepsOf(Walk(m[k], p), ns[i].cut)
  {
    var tn := TypeNameOf(m);
    var below := ns[i].(path := p);
    DerivSplit(tn, k, ns, i);
    assert DerivOne(tn, k, ns[i]) == [below];
    NotGainedBefore(x, m, ns, i, k);
    if k in m {
      var init := Deriv(tn, k, ns[..i]);
      var all := Deriv(tn, k, ns);
      assert all[..|init|] == init && all[|init|] == below;
      assert Unmoved(x, m[k], all, |init|);
    }
  }

  lemma {:induction false} NotGainedBefore(x: Run, m: map<Name, Json>, ns: seq<FetchNode>, i: nat, k: Name)
    requires Steady(x, m, ns) && i < |ns| && Deriv(TypeNameOf(m), k, ns) != []
    ensures k !in Gains(x, m, Own(TypeNameOf(m), ns[..i]))
  {
    var own := Own(TypeNameOf(m), ns[..i]);
    DerivSplit(TypeNameOf(m), "", ns, i);
    if k in Gains(x, m, own) {
      GainsKeys(x, m, own, k);
    }
  }

  // ----- merging aligned entities is applying the cut

  ghost function Upd(x: Run, cut: Cut, r: Option<map<Name, Json>>): Option<map<Name, Json>> {
    if r.Some? && Entity(x, cut, r.value).Obj? then Some(Entity(x, cut, r.value).fields) else None
  }

  ghost function Upds(x: Run, cut: Cut, rs: seq<Option<map<Name, Json>>>): seq<Option<map<Name, Json>>> {
    seq(|rs|, i requires 0 <= i < |rs| => Upd(x, cut, rs[i]))
  }

  ghost function EntitiesFor(x: Run, cut: Cut, reps: seq<map<Name, Json>>): seq<Json> {
    seq(|reps|, i requires 0 <= i < |reps| => Entity(x, cut, reps[i]))
  }

  lemma {:induction false} AlignFaithful(x: Run, cut: Cut, rs: seq<Option<map<Name, Json>>>)
    ensures Align(rs, EntitiesFor(x, cut, Present(rs))) == Upds(x, cut, rs)
  {
    if rs != [] {
      AlignFaithful(x, cut, rs[1..]);
      UpdsCons(x, cut, rs);
      if rs[0].Some? {
        EntitiesCons(x, cut, rs[0].value, Present(rs[1..]));
      }
    }
  }

  lemma UpdsCons(x: Run, cut: Cut, rs: seq<Option<map<Name, Json>>>)
    requires rs != []
    ensures Upds(x, cut, rs) == [Upd(x, cut, rs[0])] + Upds(x, cut, rs[1..])
  {
  }

  lemma EntitiesCons(x: Run, cut: Cut, rep: map<Name, Json>, reps: seq<map<Name, Json>>)
    ensures var es := EntitiesFor(x, cut, [rep] + reps);
            es != [] && es[0] == Entity(x, cut, rep) && es[1..] == EntitiesFor(x, cut, reps)
  {
    assert ([rep] + reps)[0] == rep;
  }

  lemma {:induction false} MergeApplies(x: Run, j: Json, path: seq<Seg>, cut: Cut)
    ensures Merge(j, path, Upds(x, cut, RepsOf(Walk(j, path), cut))) == ApplyCut(x, j, path, cut)
    decreases |path|, j, 1
  {
    match j
    case Arr(items) => MergeListApplies(x, items, path, cut);
    case Obj(m) =>
      if path == [] {
        assert m + map[] == m;
      } else {
        match path[0]
        case Key(k) => if k in m { MergeApplies(x, m[k], path[1..], cut); }
        case TypeCond(_) => MergeApplies(x, j, path[1..], cut);
      }
    case _ =>
  }

  lemma {:induction false} MergeListApplies(x: Run, js: seq<Json>, path: seq<Seg>, cut: Cut)
    ensures MergeList(js, path, Upds(x, cut, RepsOf(WalkAll(js, path), cut))) ==
            seq(|js|, i requires 0 <= i < |js| => ApplyCut(x, js[i], path, cut))
    decreases |path|, js, 0
  {
    if js != [] {
      var a, b := Walk(js[0], path), WalkAll(js[1..], path);
      RepsOfAppend(a, b, cut);
      var us := Upds(x, cut, RepsOf(a + b, cut));
      assert us[..|a|] == Upds(x, cut, RepsOf(a, cut));
      assert us[|a|..] == Upds(x, cut, RepsOf(b, cut));
      MergeApplies(x, js[0], path, cut);
      MergeListApplies(x, js[1..], path, cut);
    }
  }

  // ----- refinement

  ghost function ApplyEach(x: Run, js: seq<Json>, ns: seq<FetchNode>): seq<Json> {
    seq(|js|, i requires 0 <= i < |js| => ApplyNodes(x, js[i], ns))
  }

  ghost predicate AllStable(x: Run, js: seq<Json>, ns: seq<FetchNode>) {
    forall i :: 0 <= i < |js| ==> Stable(x, js[i], ns)
  }

  lemma {:induction false} FetchFaithful(x: Run, ft: Fetch, op: Operation, rv: Name, reps: seq<map<Name, Json>>, cut: Cut)
    requires FaithfulCut(x, ft, op, rv, cut)
    requires forall rep :: rep in reps ==> EntityStable(x, cut, rep)
    ensures FetchCut(ft, op, rv, reps, cut).values == EntitiesFor(x, cut, reps)
    ensures Converged(FetchCut(ft, op, rv, reps, cut).problems)
    decreases cut, 0
  {
    if reps != [] {
      var raw := RawEntities(x, cut, reps);
      forall i | 0 <= i < |raw| ensures Stable(x, raw[i], cut.children) {
        assert reps[i] in reps;
      }
      Refines(x, ft, op, rv, raw, cut.children);
      forall i | 0 <= i < |raw| ensures ApplyNodes(x, raw[i], cut.children) == Entity(x, cut, reps[i]) {
        if Find(x.c.w, cut.typeName, cut.keyFields, reps[i]).None? {
          ApplyScalar(x, Null, cut.children);
        }
      }
    }
  }

  /** One merge of a faithful fetch applies its cut to every value. */
  lemma {:induction false} MergeOneApplies(x: Run, values: seq<Json>, now: seq<Json>, n: FetchNode, out: Outcome)
    requires RepsAt(now, n) == RepsAt(values, n)
    requires out.values == EntitiesFor(x, n.cut, Present(RepsAt(values, n)))
    ensures MergeOne(values, now, n, out).0 == seq(|now|, i requires 0 <= i < |now| => ApplyCut(x, now[i], n.path, n.cut))
    ensures MergeOne(values, now, n, out).1 == out.problems
  {
    var reps := RepsAt(values, n);
    assert |WalkAll(now, n.path)| == |RepsAt(now, n)|;
    AlignFaithful(x, n.cut, reps);
    MergeListApplies(x, now, n.path, n.cut);
    if Present(reps) == [] {
      NonePresent(reps);
      forall i | 0 <= i < |reps| ensures Upds(x, n.cut, reps)[i] == None {
        assert reps[i] in reps;
      }
      MergeNothing(now, n.path, Upds(x, n.cut, reps));
    }
  }

  lemma {:induction false} NonePresent<T>(os: seq<Option<T>>)
    requires Present(os) == []
    ensures forall o :: o in os ==> o.None?
  {
    if os != [] {
      NonePresent(os[1..]);
    }
  }

  lemma {:induction false} MergeNothing(js: seq<Json>, path: seq<Seg>, us: seq<Option<map<Name, Json>>>)
    requires |us| == |WalkAll(js, path)| && forall u :: u in us ==> u.None?
    ensures MergeList(js, path, us) == js
    decreases |path|, js, 0
  {
    if js != [] {
      var n := |Walk(js[0], path)|;
      MergeNothingOne(js[0], path, us[..n]);
      MergeNothing(js[1..], path, us[n..]);
    }
  }

  lemma {:induction false} MergeNothingOne(j: Json, path: seq<Seg>, us: seq<Option<map<Name, Json>>>)
    requires |us| == |Walk(j, path)| && forall u :: u in us ==> u.None?
    ensures Merge(j, path, us) == j
    decreases |path|, j, 1
  {
    match j
    case Arr(items) => MergeNothing(items, path, us);
    case Obj(m) =>
      if path == [] {
        assert us[0] in us;
      } else {
        match path[0]
        case Key(k) => if k in m { MergeNothingOne(m[k], path[1..], us); }
        case TypeCond(t) => if TypeNameOf(m) == Some(t) { MergeNothingOne(j, path[1..], us); }
      }
    case _ =>
  }

  /** The resolver, run against faithful subgraphs on stable values, applies
      the whole fetch tree to every value. */
  lemma {:induction false} Refines(x: Run, ft: Fetch, op: Operation, rv: Name, values: seq<Json>, ns: seq<FetchNode>)
    requires Faithful(x, ft, op, rv, ns) && AllStable(x, values, ns)
    ensures ResolveNodes(ft, op, rv, values, ns).values == ApplyEach(x, values, ns)
    ensures Converged(ResolveNodes(ft, op, rv, values, ns).problems)
    decreases ns, 3
  {
    MergeRefines(x, ft, op, rv, values, ns, |ns|);
    assert ns[..|ns|] == ns;
  }

  lemma {:induction false} FetchAllSnoc(ft: Fetch, op: Operation, rv: Name, values: seq<Json>, init: seq<FetchNode>, n: FetchNode)
    ensures FetchAll(ft, op, rv, values, init + [n]) ==
            FetchAll(ft, op, rv, values, init) + [FetchCut(ft, op, rv, Present(RepsAt(values, n)), n.cut)]
  {
    assert (init + [n])[..|init|] == init;
  }

  lemma {:induction false} MergeSnoc(values: seq<Json>, init: seq<FetchNode>, outs: seq<Outcome>, n: FetchNode, out: Outcome)
    requires |outs| == |init|
    ensures MergeNodes(values, init + [n], outs + [out]).values ==
            MergeOne(values, MergeNodes(values, init, outs).values, n, out).0
    ensures MergeNodes(values, init + [n], outs + [out]).problems ==
            MergeNodes(values, init, outs).problems + MergeOne(values, MergeNodes(values, init, outs).values, n, out).1
  {
    assert (init + [n])[..|init|] == init && (outs + [out])[..|init|] == outs;
  }

  lemma {:induction false} ApplyEachSnoc(x: Run, values: seq<Json>, init: seq<FetchNode>, n: FetchNode)
    ensures var now := ApplyEach(x, values, init);
            ApplyEach(x, values, init + [n]) == seq(|now|, i requires 0 <= i < |now| => ApplyCut(x, now[i], n.path, n.cut))
  {
    forall v | 0 <= v < |values|
      ensures ApplyNodes(x, values[v], init + [n]) == ApplyCut(x, ApplyNodes(x, values[v], init), n.path, n.cut)
    {
      ApplyAppendOne(x, values[v], init, n);
    }
  }

  lemma {:induction false} MergeStep(x: Run, ft: Fetch, op: Operation, rv: Name, values: seq<Json>, init: seq<FetchNode>, n: FetchNode)
    requires MergeNodes(values, init, FetchAll(ft, op, rv, values, init)).values == ApplyEach(x, values, init)
    requires RepsAt(ApplyEach(x, values, init), n) == RepsAt(values, n)
    requires FetchCut(ft, op, rv, Present(RepsAt(values, n)), n.cut).values == EntitiesFor(x, n.cut, Present(RepsAt(values, n)))
    requires Converged(MergeNodes(values, init, FetchAll(ft, op, rv, values, init)).problems)
    requires Converged(FetchCut(ft, op, rv, Present(RepsAt(values, n)), n.cut).problems)
    ensures MergeNodes(values, init + [n], FetchAll(ft, op, rv, values, init + [n])).values == ApplyEach(x, values, init + [n])
    ensures Converged(MergeNodes(values, init + [n], FetchAll(ft, op, rv, values, init + [n])).problems)
  {
    FetchAllSnoc(ft, op, rv, values, init, n);
    var out := FetchCut(ft, op, rv, Present(RepsAt(values, n)), n.cut);
    MergeSnoc(values, init, FetchAll(ft, op, rv, values, init), n, out);
    ApplyEachSnoc(x, values, init, n);
    MergeOneApplies(x, values, ApplyEach(x, values, init), n, out);
  }

  ghost predicate RefinedTo(x: Run, ft: Fetch, op: Operation, rv: Name, values: seq<Json>, ns: seq<FetchNode>) {
    && MergeNodes(values, ns, FetchAll(ft, op, rv, values, ns)).values == ApplyEach(x, values, ns)
    && Converged(MergeNodes(values, ns, FetchAll(ft, op, rv, values, ns)).problems)
  }

  lemma {:induction false} RefineStep(x: Run, ft: Fetch, op: Operation, rv: Name, values: seq<Json>, ns: seq<FetchNode>, i: nat)
    requires Faithful(x, ft, op, rv, ns) && AllStable(x, values, ns) && i < |ns|
    requires RefinedTo(x, ft, op, rv, values, ns[..i])
    ensures RefinedTo(x, ft, op, rv, values, ns[..i] + [ns[i]])
    decreases ns, 1
  {
    assert ns[i] in ns;
    NodeReps(x, values, ns, i);
    FetchFaithful(x, ft, op, rv, Present(RepsAt(values, ns[i])), ns[i].cut);
    MergeStep(x, ft, op, rv, values, ns[..i], ns[i]);
  }

  lemma {:induction false} MergeRefines(x: Run, ft: Fetch, op: Operation, rv: Name, values: seq<Json>, ns: seq<FetchNode>, i: nat)
    requires Faithful(x, ft, op, rv, ns) && AllStable(x, values, ns) && i <= |ns|
    ensures RefinedTo(x, ft, op, rv, values, ns[..i])
    decreases ns, 2, i
  {
    if i > 0 {
      MergeRefines(x, ft, op, rv, values, ns, i - 1);
      RefineStep(x, ft, op, rv, values, ns, i - 1);
      assert ns[..i] == ns[..i - 1] + [ns[i - 1]];
    } else {
      assert ns[..0] == [];
      NothingRefined(x, ft, op, rv, values);
    }
  }

  lemma NothingRefined(x: Run, ft: Fetch, op: Operation, rv: Name, values: seq<Json>)
    ensures RefinedTo(x, ft, op, rv, values, [])
  {
  }

  lemma {:induction false} NodeReps(x: Run, values: seq<Json>, ns: seq<FetchNode>, k: nat)
    requires AllStable(x, values, ns) && k < |ns|
    ensures RepsAt(ApplyEach(x, values, ns[..k]), ns[k]) == RepsAt(values, ns[k])
    ensures forall rep :: rep in Present(RepsAt(values, ns[k])) ==> EntityStable(x, ns[k].cut, rep)
  {
    var now := ApplyEach(x, values, ns[..k]);
    forall i | 0 <= i < |values| ensures RepsOne(now[i], ns[k]) == RepsOne(values[i], ns[k]) {
      assert Stable(x, values[i], ns) && Unmoved(x, values[i], ns, k);
    }
    SameReps(now, values, ns[k]);
    forall rep | rep in Present(RepsAt(values, ns[k])) ensures EntityStable(x, ns[k].cut, rep) {
      PresentFrom(RepsAt(values, ns[k]), rep);
      RepsFrom(values, ns[k], Some(rep));
      var i :| 0 <= i < |values| && Some(rep) in RepsOne(values[i], ns[k]);
      assert Stable(x, values[i], ns) && ns[k] in ns;
    }
  }

  lemma {:induction false} PresentFrom<T>(os: seq<Option<T>>, v: T)
    requires v in Present(os)
    ensures Some(v) in os
  {
    if !(os[0].Some? && os[0].value == v) {
      PresentFrom(os[1..], v);
    }
  }
}
