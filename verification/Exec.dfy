/** Entity resolution, object by object: what every fetch of a plan does to
    the fetched JSON when subgraphs answer faithfully from one store. */
module Exec {
  import opened Basics
  import opened GraphQl
  import opened Plan
  import opened PlanFacts

  /** What one federated execution runs against: the supergraph and the
      store every subgraph reads from. */
  datatype Run = Run(s: Sup, c: Ctx)

  /** Subgraph `sg` supplies `f` on objects of type `t`: it declares the
      field, and on entities owns it or holds it as a key field. */
  predicate CanResolve(s: Sup, sg: nat, t: Name, f: Name) {
    && s.Declares(sg, t, f)
    && (t !in s.e.keys || ((t, f) in s.e.owners && sg in s.e.owners[(t, f)]) || IsKeyOf(s.e, t, f))
  }

  /** The store as `sg` sees it: fields it cannot resolve are null. */
  function SubWorld(s: Sup, w: World, sg: nat): World {
    World(w.typeOf, (o: Oid, f: Name, args: ArgVals) => if CanResolve(s, sg, w.typeOf(o), f) then w.resolve(o, f, args) else RNull)
  }

  function SubCtx(x: Run, sg: nat): Ctx {
    x.c.(w := SubWorld(x.s, x.c.w, sg))
  }

  // ----- representations

  /** The key members of a representation, `None` when one is missing or
      null: the alias is read first, the plain name second. */
  function KeyMembers(m: map<Name, Json>, ks: seq<Name>): Option<map<Name, Json>> {
    if ks == [] then Some(map[])
    else
      var n := |ks| - 1;
      var rest := KeyMembers(m, ks[..n]);
      var k := ks[n];
      var v := if KeyAlias(k) in m then Some(m[KeyAlias(k)]) else if k in m then Some(m[k]) else None;
      if rest.Some? && v.Some? && !v.value.Null? then Some(rest.value[k := v.value]) else None
  }

  function TypeNameOf(m: map<Name, Json>): Option<Name> {
    if TYPENAME in m && m[TYPENAME].Str? then Some(m[TYPENAME].s) else None
  }

  /** The `_Any` representation of a walked object for a cut. */
  function RepOf(m: map<Name, Json>, cut: Cut): Option<map<Name, Json>> {
    if TypeNameOf(m).Some? && TypeNameOf(m) != Some(cut.typeName) then None
    else
      var ks := KeyMembers(m, cut.keyFields);
      if ks.None? then None else Some(map[TYPENAME := Str(cut.typeName)] + ks.value)
  }

  /** The JSON of a value without objects. */
  function LeafJson(v: RVal): Json {
    match v
    case RNull => Null
    case RLeaf(j) => j
    case RRef(_) => Null
    case RList(items) => Arr(seq(|items|, i requires 0 <= i < |items| => LeafJson(items[i])))
  }

  /** The key value an object shows under field `k`. */
  function KeyValue(w: World, o: Oid, k: Name): Json {
    LeafJson(w.resolve(o, k, map[]))
  }

  ghost predicate Identifies(w: World, t: Name, ks: seq<Name>, rep: map<Name, Json>, o: Oid) {
    && w.typeOf(o) == t
    && forall k :: k in ks ==> k in rep && rep[k] == KeyValue(w, o, k)
  }

  /** A faithful subgraph's entity for a representation. */
  ghost function Find(w: World, t: Name, ks: seq<Name>, rep: map<Name, Json>): Option<Oid> {
    if exists o :: Identifies(w, t, ks, rep, o) then
      var o :| Identifies(w, t, ks, rep, o);
      Some(o)
    else None
  }

  // ----- applying a fetch tree to JSON, object by object

  ghost function ApplyNodes(x: Run, j: Json, ns: seq<FetchNode>): Json
    decreases ns, 3
  {
    if ns == [] then j
    else
      var n := |ns| - 1;
      ApplyCut(x, ApplyNodes(x, j, ns[..n]), ns[n].path, ns[n].cut)
  }

  ghost function ApplyCut(x: Run, j: Json, path: seq<Seg>, cut: Cut): Json
    decreases cut, 2, |path|, j
  {
    match j
    case Arr(items) => Arr(seq(|items|, i requires 0 <= i < |items| => ApplyCut(x, items[i], path, cut)))
    case Obj(m) =>
      if path == [] then Obj(m + Gain(x, m, cut))
      else (
        match path[0]
        case Key(k) => if k in m then Obj(m[k := ApplyCut(x, m[k], path[1..], cut)]) else j
        case TypeCond(t) => if TypeNameOf(m) == Some(t) then ApplyCut(x, j, path[1..], cut) else j)
    case _ => j
  }

  /** The members a fetch merges into one object. */
  ghost function Gain(x: Run, m: map<Name, Json>, cut: Cut): map<Name, Json>
    decreases cut, 1
  {
    var rep := RepOf(m, cut);
    if rep.None? then map[]
    else
      var e := Entity(x, cut, rep.value);
      if e.Obj? then e.fields else map[]
  }

  ghost function Entity(x: Run, cut: Cut, rep: map<Name, Json>): Json
    decreases cut, 0
  {
    var o := Find(x.c.w, cut.typeName, cut.keyFields, rep);
    if o.None? then Null
    else ApplyNodes(x, Obj(EvalObj(SubCtx(x, cut.subgraph), o.value, cut.text)), cut.children)
  }

  // ----- how a fetch tree acts on lists, leaves and objects

  lemma {:induction false} ApplyAppendOne(x: Run, j: Json, ns: seq<FetchNode>, n: FetchNode)
    ensures ApplyNodes(x, j, ns + [n]) == ApplyCut(x, ApplyNodes(x, j, ns), n.path, n.cut)
  {
    assert (ns + [n])[..|ns|] == ns;
  }

  lemma {:induction false} ApplyScalar(x: Run, j: Json, ns: seq<FetchNode>)
    requires !j.Arr? && !j.Obj?
    ensures ApplyNodes(x, j, ns) == j
  {
    if ns != [] {
      ApplyScalar(x, j, ns[..|ns| - 1]);
    }
  }

  lemma {:induction false} ApplyList(x: Run, items: seq<Json>, ns: seq<FetchNode>)
    ensures ApplyNodes(x, Arr(items), ns).Arr?
    ensures |ApplyNodes(x, Arr(items), ns).items| == |items|
    ensures forall i :: 0 <= i < |items| ==> ApplyNodes(x, Arr(items), ns).items[i] == ApplyNodes(x, items[i], ns)
  {
    if ns != [] {
      ApplyList(x, items, ns[..|ns| - 1]);
    }
  }

  lemma {:induction false} ApplyStrip(x: Run, m: map<Name, Json>, path: seq<Seg>, cut: Cut)
    ensures ApplyCut(x, Obj(m), path, cut) ==
      match Strip(path, TypeNameOf(m))
      case None => Obj(m)
      case Some(p) => ApplyCut(x, Obj(m), p, cut)
  {
    if path != [] && path[0].TypeCond? && TypeNameOf(m) == Some(path[0].ty) {
      ApplyStrip(x, m, path[1..], cut);
    }
  }

  /** All that the fetches ending at an object merge into it. */
  ghost function Gains(x: Run, m: map<Name, Json>, own: seq<FetchNode>): map<Name, Json> {
    if own == [] then map[]
    else Gains(x, m, own[..|own| - 1]) + Gain(x, m, own[|own| - 1].cut)
  }

  /** Merging never touches what representations and paths read: merged
      keys are client keys that no sibling path continues through, and
      every key alias is present. */
  ghost predicate Steady(x: Run, m: map<Name, Json>, ns: seq<FetchNode>) {
    var tn := TypeNameOf(m);
    && (forall n :: n in Own(tn, ns) ==>
          forall k :: k in Gain(x, m, n.cut) ==> ClientKey(k) && Deriv(tn, k, ns) == [])
    && (forall n :: n in Own(tn, ns) ==> forall k :: k in n.cut.keyFields ==> KeyAlias(k) in m)
    && (forall k :: !ClientKey(k) ==> Deriv(tn, k, ns) == [])
  }

  /** The result on an object: deeper fetches act under their key, fetches
      ending here merge on top. */
  ghost function Applied(x: Run, m: map<Name, Json>, ns: seq<FetchNode>): map<Name, Json> {
    Below(x, m, ns) + Gains(x, m, Own(TypeNameOf(m), ns))
  }

  ghost function Below(x: Run, m: map<Name, Json>, ns: seq<FetchNode>): map<Name, Json> {
    map k | k in m :: ApplyNodes(x, m[k], Deriv(TypeNameOf(m), k, ns))
  }

  lemma SameBelow(x: Run, m: map<Name, Json>, a: seq<FetchNode>, b: seq<FetchNode>)
    requires forall k :: k in m ==> Deriv(TypeNameOf(m), k, a) == Deriv(TypeNameOf(m), k, b)
    ensures Below(x, m, a) == Below(x, m, b)
  {
  }

  lemma {:induction false} GainsKeys(x: Run, m: map<Name, Json>, own: seq<FetchNode>, k: Name)
    requires k in Gains(x, m, own)
    ensures exists n :: n in own && k in Gain(x, m, n.cut)
  {
    var i := |own| - 1;
    if k in Gain(x, m, own[i].cut) {
      assert own[i] in own;
    } else {
      GainsKeys(x, m, own[..i], k);
    }
  }

  lemma {:induction false} SameKeyMembers(m: map<Name, Json>, m': map<Name, Json>, ks: seq<Name>)
    requires forall k :: k in ks ==> KeyAlias(k) in m && KeyAlias(k) in m' && m[KeyAlias(k)] == m'[KeyAlias(k)]
    ensures KeyMembers(m, ks) == KeyMembers(m', ks)
  {
    if ks != [] {
      var n := |ks| - 1;
      assert ks[n] in ks;
      SameKeyMembers(m, m', ks[..n]);
    }
  }

  lemma {:induction false} SteadyInit(x: Run, m: map<Name, Json>, ns: seq<FetchNode>, n: FetchNode)
    requires Steady(x, m, ns + [n])
    ensures Steady(x, m, ns)
  {
    var tn := TypeNameOf(m);
    OwnAppend(tn, ns, [n]);
    forall k ensures Deriv(tn, k, ns + [n]) == [] ==> Deriv(tn, k, ns) == [] {
      DerivAppend(tn, k, ns, [n]);
    }
  }

  /** On a steady object, members outside the client's keys stay as they are. */
  lemma {:induction false} SteadyMembers(x: Run, m: map<Name, Json>, ns: seq<FetchNode>, k: Name)
    requires Steady(x, m, ns) && !ClientKey(k)
    ensures k in m <==> k in Applied(x, m, ns)
    ensures k in m ==> Applied(x, m, ns)[k] == m[k]
  {
    var own := Own(TypeNameOf(m), ns);
    if k in Gains(x, m, own) {
      GainsKeys(x, m, own, k);
    }
  }

  lemma {:induction false} SteadyGain(x: Run, m: map<Name, Json>, ns: seq<FetchNode>, cut: Cut)
    requires Steady(x, m, ns)
    requires forall k :: k in cut.keyFields ==> KeyAlias(k) in m
    ensures TypeNameOf(Applied(x, m, ns)) == TypeNameOf(m)
    ensures RepOf(Applied(x, m, ns), cut) == RepOf(m, cut)
  {
    SteadyMembers(x, m, ns, TYPENAME);
    forall k | k in cut.keyFields
      ensures KeyAlias(k) in Applied(x, m, ns) && Applied(x, m, ns)[KeyAlias(k)] == m[KeyAlias(k)]
    {
      assert IsKeyAlias(KeyAlias(k));
      SteadyMembers(x, m, ns, KeyAlias(k));
    }
    SameKeyMembers(m, Applied(x, m, ns), cut.keyFields);
  }

  /** The closed form of a fetch tree's effect on an object. */
  lemma {:induction false} ApplyObject(x: Run, m: map<Name, Json>, ns: seq<FetchNode>)
    requires Steady(x, m, ns)
    ensures ApplyNodes(x, Obj(m), ns) == Obj(Applied(x, m, ns))
  {
    var tn := TypeNameOf(m);
    if ns == [] {
      assert Applied(x, m, ns) == m;
    } else {
      var init, n := ns[..|ns| - 1], ns[|ns| - 1];
      assert ns == init + [n];
      SteadyInit(x, m, init, n);
      ApplyObject(x, m, init);
      ApplyAppendOne(x, Obj(m), init, n);
      ApplyStep(x, m, init, n);
    }
  }

  lemma {:induction false} DerivSnoc(tn: Option<Name>, k: Name, ns: seq<FetchNode>, n: FetchNode)
    ensures Deriv(tn, k, ns + [n]) == Deriv(tn, k, ns) + DerivOne(tn, k, n)
    ensures Own(tn, ns + [n]) == Own(tn, ns) + OwnOne(tn, n)
  {
    assert [n][1..] == [];
    DerivAppend(tn, k, ns, [n]);
    OwnAppend(tn, ns, [n]);
    assert Deriv(tn, k, [n]) == DerivOne(tn, k, n) + [];
    assert Own(tn, [n]) == OwnOne(tn, n) + [];
  }

  lemma {:induction false} ApplyStep(x: Run, m: map<Name, Json>, init: seq<FetchNode>, n: FetchNode)
    requires Steady(x, m, init + [n]) && Steady(x, m, init)
    ensures ApplyCut(x, Obj(Applied(x, m, init)), n.path, n.cut) == Obj(Applied(x, m, init + [n]))
  {
    var p := Strip(n.path, TypeNameOf(m));
    SteadyMembers(x, m, init, TYPENAME);
    if p == Some([]) {
      OwnLast(TypeNameOf(m), init, n);
      SteadyGain(x, m, init, n.cut);
    } else if p.Some? {
      NotGained(x, m, init, n);
    }
    StepCases(x, m, init, n);
  }

  lemma {:induction false} OwnLast(tn: Option<Name>, init: seq<FetchNode>, n: FetchNode)
    requires Strip(n.path, tn) == Some([])
    ensures n.(path := []) in Own(tn, init + [n])
  {
    DerivSnoc(tn, "", init, n);
  }

  lemma {:induction false} StepCases(x: Run, m: map<Name, Json>, init: seq<FetchNode>, n: FetchNode)
    requires TypeNameOf(Applied(x, m, init)) == TypeNameOf(m)
    requires Strip(n.path, TypeNameOf(m)) == Some([]) ==> RepOf(Applied(x, m, init), n.cut) == RepOf(m, n.cut)
    requires Strip(n.path, TypeNameOf(m)).Some? && Strip(n.path, TypeNameOf(m)).value != [] ==>
               Strip(n.path, TypeNameOf(m)).value[0].Key?
               && Strip(n.path, TypeNameOf(m)).value[0].key !in Gains(x, m, Own(TypeNameOf(m), init))
    ensures ApplyCut(x, Obj(Applied(x, m, init)), n.path, n.cut) == Obj(Applied(x, m, init + [n]))
  {
    var p := Strip(n.path, TypeNameOf(m));
    ApplyStrip(x, Applied(x, m, init), n.path, n.cut);
    if p.None? {
      StepAside(x, m, init, n);
    } else if p.value == [] {
      StepHere(x, m, init, n);
    } else {
      StepBelow(x, m, init, n);
    }
  }

  lemma {:induction false} NotGained(x: Run, m: map<Name, Json>, init: seq<FetchNode>, n: FetchNode)
    requires Steady(x, m, init + [n])
    requires Strip(n.path, TypeNameOf(m)).Some? && Strip(n.path, TypeNameOf(m)).value != []
    ensures Strip(n.path, TypeNameOf(m)).value[0].Key?
    ensures Strip(n.path, TypeNameOf(m)).value[0].key !in Gains(x, m, Own(TypeNameOf(m), init))
  {
    var tn := TypeNameOf(m);
    StripHead(n.path, tn);
    var k := Strip(n.path, tn).value[0].key;
    DerivSnoc(tn, k, init, n);
    if k in Gains(x, m, Own(tn, init)) {
      GainsKeys(x, m, Own(tn, init), k);
    }
  }

  lemma {:induction false} StepAside(x: Run, m: map<Name, Json>, init: seq<FetchNode>, n: FetchNode)
    requires Strip(n.path, TypeNameOf(m)) == None
    ensures Applied(x, m, init + [n]) == Applied(x, m, init)
  {
    var tn := TypeNameOf(m);
    DerivSnoc(tn, "", init, n);
    assert Own(tn, init + [n]) == Own(tn, init);
    forall k ensures Deriv(tn, k, init + [n]) == Deriv(tn, k, init) {
      DerivSnoc(tn, k, init, n);
    }
    SameBelow(x, m, init + [n], init);
  }

  lemma {:induction false} GainsSnoc(x: Run, m: map<Name, Json>, own: seq<FetchNode>, n: FetchNode)
    ensures Gains(x, m, own + [n]) == Gains(x, m, own) + Gain(x, m, n.cut)
  {
    assert (own + [n])[..|own|] == own;
  }

  lemma SameGain(x: Run, m: map<Name, Json>, m': map<Name, Json>, cut: Cut)
    requires RepOf(m, cut) == RepOf(m', cut)
    ensures Gain(x, m, cut) == Gain(x, m', cut)
  {
  }

  lemma MapAssoc(a: map<Name, Json>, b: map<Name, Json>, c: map<Name, Json>)
    ensures (a + b) + c == a + (b + c)
  {
  }

  lemma MapUpdate(a: map<Name, Json>, b: map<Name, Json>, k: Name, v: Json)
    requires k !in b
    ensures a[k := v] + b == (a + b)[k := v]
  {
  }

  lemma {:induction false} StepHere(x: Run, m: map<Name, Json>, init: seq<FetchNode>, n: FetchNode)
    requires Strip(n.path, TypeNameOf(m)) == Some([])
    requires RepOf(Applied(x, m, init), n.cut) == RepOf(m, n.cut)
    ensures Applied(x, m, init) + Gain(x, Applied(x, m, init), n.cut) == Applied(x, m, init + [n])
  {
    var tn := TypeNameOf(m);
    var own := Own(tn, init);
    DerivSnoc(tn, "", init, n);
    assert Own(tn, init + [n]) == own + [n.(path := [])];
    forall k ensures Deriv(tn, k, init + [n]) == Deriv(tn, k, init) {
      DerivSnoc(tn, k, init, n);
    }
    SameBelow(x, m, init + [n], init);
    GainsSnoc(x, m, own, n.(path := []));
    SameGain(x, Applied(x, m, init), m, n.cut);
    MapAssoc(Below(x, m, init), Gains(x, m, own), Gain(x, m, n.cut));
  }

  lemma DiffersAt(a: map<Name, Json>, b: map<Name, Json>, k: Name)
    requires k in a && a.Keys == b.Keys
    requires forall k' :: k' in a && k' != k ==> b[k'] == a[k']
    ensures b == a[k := b[k]]
  {
  }

  lemma {:induction false} BelowStep(x: Run, m: map<Name, Json>, init: seq<FetchNode>, n: FetchNode, k: Name, p: seq<Seg>)
    requires Strip(n.path, TypeNameOf(m)) == Some([Key(k)] + p)
    ensures Own(TypeNameOf(m), init + [n]) == Own(TypeNameOf(m), init)
    ensures k in m ==> Below(x, m, init + [n]) == Below(x, m, init)[k := ApplyCut(x, Below(x, m, init)[k], p, n.cut)]
    ensures k !in m ==> Below(x, m, init + [n]) == Below(x, m, init)
  {
    var tn := TypeNameOf(m);
    DerivSnoc(tn, k, init, n);
    forall k' | k' != k ensures Deriv(tn, k', init + [n]) == Deriv(tn, k', init) {
      DerivSnoc(tn, k', init, n);
    }
    if k in m {
      assert ([Key(k)] + p)[1..] == p;
      assert DerivOne(tn, k, n) == [n.(path := p)];
      ApplyAppendOne(x, m[k], Deriv(tn, k, init), n.(path := p));
      DiffersAt(Below(x, m, init), Below(x, m, init + [n]), k);
    } else {
      SameBelow(x, m, init + [n], init);
    }
  }

  lemma {:induction false} StepBelow(x: Run, m: map<Name, Json>, init: seq<FetchNode>, n: FetchNode)
    requires Strip(n.path, TypeNameOf(m)).Some? && Strip(n.path, TypeNameOf(m)).value != []
    requires Strip(n.path, TypeNameOf(m)).value[0].Key?
    requires Strip(n.path, TypeNameOf(m)).value[0].key !in Gains(x, m, Own(TypeNameOf(m), init))
    ensures ApplyCut(x, Obj(Applied(x, m, init)), Strip(n.path, TypeNameOf(m)).value, n.cut) ==
            Obj(Applied(x, m, init + [n]))
  {
    var p := Strip(n.path, TypeNameOf(m)).value;
    var k := p[0].key;
    var gains := Gains(x, m, Own(TypeNameOf(m), init));
    assert p == [Key(k)] + p[1..];
    BelowStep(x, m, init, n, k, p[1..]);
    DescendKey(x, Below(x, m, init), gains, p, n.cut);
  }

  /** Descending into a member that is not gained commutes with the gains. */
  lemma {:induction false} DescendKey(x: Run, below: map<Name, Json>, gains: map<Name, Json>, p: seq<Seg>, cut: Cut)
    requires p != [] && p[0].Key? && p[0].key !in gains
    ensures var k := p[0].key;
            ApplyCut(x, Obj(below + gains), p, cut) ==
              if k in below then Obj(below[k := ApplyCut(x, below[k], p[1..], cut)] + gains) else Obj(below + gains)
  {
    var k := p[0].key;
    if k in below {
      MapUpdate(below, gains, k, ApplyCut(x, below[k], p[1..], cut));
    }
  }

  lemma {:induction false} StripHead(path: seq<Seg>, tn: Option<Name>)
    requires Strip(path, tn).Some? && Strip(path, tn).value != []
    ensures Strip(path, tn).value[0].Key?
  {
    if path[0].TypeCond? {
      StripHead(path[1..], tn);
    }
  }
}
