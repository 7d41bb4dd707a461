/** How a plan looks from one object of the response: which printed fields,
    which deeper fetches and which entity fetches concern it. */
module PlanFacts {
  import opened Basics
  import opened GraphQl
  import opened Plan

  /** A supergraph: ownership tables, composed schema, and per subgraph the
      fields it declares (with their named types) and the types it defines. */
  datatype Sup = Sup(e: Engine, schema: Schema, decl: seq<map<(Name, Name), Name>>, defs: seq<set<Name>>)
  {
    predicate Declares(sg: nat, t: Name, f: Name) {
      sg < |decl| && (t, f) in decl[sg]
    }

    predicate Defines(sg: nat, t: Name) {
      sg < |defs| && t in defs[sg]
    }

    ghost predicate EntitiesAreObjects() {
      forall ty :: ty in e.keys ==> schema.IsObject(ty)
    }
  }

  const ROOTS: set<Name> := {"Query", "Mutation"}

  /** What federation asks of a query beyond validity, rule by rule. */
  datatype Rule =
    | ClientKeys       // response keys avoid the names the planner adds
    | OneCut           // a response key with selections is cut in one fetch
    | KnownConditions  // the subgraph defines the types of fragment conditions
    | Decidable        // fetches lie only below conditions `__typename` decides
    | ThroughAbstract  // fields selected through an abstract type are local
    | OwnRoots         // root types below the root are asked for own fields

  const ALL: set<Rule> := {ClientKeys, OneCut, KnownConditions, Decidable, ThroughAbstract, OwnRoots}

  /** A field selected on a root object below the root is one `sg` declares:
      root types are no entities, so the planner never cuts their fields. */
  ghost predicate DeclaredAtRoots(s: Sup, sg: nat, p: Name, f: Field) {
    || IsMeta(f.name)
    || forall t :: t in ROOTS && s.Defines(sg, t) && (t == p || (p in s.schema.ps && t in s.schema.ps[p])) ==>
         s.Declares(sg, t, f.name)
  }

  /** A field selected through an abstract type is one `sg` answers on every
      object type it can return there: the planner only cuts fields of
      object types. */
  ghost predicate AnsweredThroughAbstract(s: Sup, sg: nat, p: Name, f: Field) {
    || s.schema.IsObject(p)
    || forall t :: p in s.schema.ps && t in s.schema.ps[p] && s.Defines(sg, t) ==>
         s.e.Local(sg, t, f)
  }

  /** A fragment condition under which the path walk misses nothing: the
      parent type itself, an object type, or one with no fetch below it. */
  ghost predicate DecidableCond(s: Sup, sg: nat, p: Name, cond: Name, sub: seq<Sel>) {
    cond == p || s.schema.IsObject(cond) || Nodes(s.e, sg, cond, sub) == []
  }

  /** The shapes the splitting planner supports as far as `rules` ask for
      them, followed along its own assignment of selections to subgraphs. */
  ghost predicate Splits(rules: set<Rule>, s: Sup, sg: nat, p: Name, sels: seq<Sel>)
    decreases DepthOf(sels), 1
  {
    forall x :: x in sels ==> (DepthMember(sels, x); SplitsSel(rules, s, sg, p, x))
  }

  ghost predicate SplitsSel(rules: set<Rule>, s: Sup, sg: nat, p: Name, x: Sel)
    decreases Depth(x), 0
  {
    match x
    case F(f) =>
      assert Depth(x) == DepthF(f);
      && (ThroughAbstract in rules ==> AnsweredThroughAbstract(s, sg, p, f))
      && (OwnRoots in rules ==> DeclaredAtRoots(s, sg, p, f))
      && Splits(rules, s, if s.e.Local(sg, p, f) then sg else s.e.Target(p, f), f.ty, f.sels)
    case Frag(cond, _, sub) =>
      && (KnownConditions in rules ==> cond == p || s.Defines(sg, cond))
      && (Decidable in rules ==> DecidableCond(s, sg, p, cond, sub))
      && Splits(rules, s, sg, cond, sub)
  }

  ghost predicate SplitOk(s: Sup, sg: nat, p: Name, sels: seq<Sel>) {
    Splits(ALL, s, sg, p, sels)
  }

  ghost predicate SplitSel(s: Sup, sg: nat, p: Name, x: Sel) {
    SplitsSel(ALL, s, sg, p, x)
  }

  /** An object of type `t` that `sg` returned at static type `p`. */
  ghost predicate At(s: Sup, sg: nat, p: Name, t: Name) {
    && s.schema.Coherent()
    && s.EntitiesAreObjects()
    && p in s.schema.ps
    && t in s.schema.ps[p]
    && s.Defines(sg, t)
  }

  lemma LocalAgrees(s: Sup, sg: nat, p: Name, t: Name, f: Field)
    requires At(s, sg, p, t) && SplitSel(s, sg, p, F(f))
    ensures s.e.Local(sg, p, f) == s.e.Local(sg, t, f)
  {
  }

  function LocalsAt(e: Engine, sg: nat, t: Name, fs: seq<Field>): (gs: seq<Field>)
    ensures forall g <- gs :: g in fs && e.Local(sg, t, g)
    ensures forall f <- fs :: e.Local(sg, t, f) ==> f in gs
  {
    if fs == [] then []
    else if e.Local(sg, t, fs[0]) then [fs[0]] + LocalsAt(e, sg, t, fs[1..])
    else LocalsAt(e, sg, t, fs[1..])
  }

  /** The locally answered fields of key `k` on an object of type `t`. */
  function LocalsWith(s: Sup, sg: nat, t: Name, sels: seq<Sel>, k: Name): seq<Field> {
    LocalsAt(s.e, sg, t, With(Collect(s.schema.ps, t, sels), k))
  }

  lemma {:induction false} LocalsAppend(e: Engine, sg: nat, t: Name, a: seq<Field>, b: seq<Field>)
    ensures LocalsAt(e, sg, t, a + b) == LocalsAt(e, sg, t, a) + LocalsAt(e, sg, t, b)
  {
    if a == [] {
      assert a + b == b;
    } else {
      assert (a + b)[1..] == a[1..] + b;
      LocalsAppend(e, sg, t, a[1..], b);
    }
  }

  lemma {:induction false} LocalsWithAppend(s: Sup, sg: nat, t: Name, a: seq<Sel>, b: seq<Sel>, k: Name)
    ensures LocalsWith(s, sg, t, a + b, k) == LocalsWith(s, sg, t, a, k) + LocalsWith(s, sg, t, b, k)
  {
    CollectAppend(s.schema.ps, t, a, b);
    WithAppend(Collect(s.schema.ps, t, a), Collect(s.schema.ps, t, b), k);
    LocalsAppend(s.e, sg, t, With(Collect(s.schema.ps, t, a), k), With(Collect(s.schema.ps, t, b), k));
  }

  /** The contribution of one selection. */
  lemma {:induction false} LocalsWithOne(s: Sup, sg: nat, t: Name, x: Sel, k: Name)
    ensures LocalsWith(s, sg, t, [x], k) ==
      match x
      case F(f) => if f.Key() == k && s.e.Local(sg, t, f) then [f] else []
      case Frag(cond, _, sub) => if Applies(s.schema.ps, t, cond) then LocalsWith(s, sg, t, sub, k) else []
  {
    var ps := s.schema.ps;
    assert [x][1..] == [];
    match x
    case F(f) =>
      assert Collect(ps, t, [x]) == [f];
      assert [f][1..] == [];
      assert With([f], k) == if f.Key() == k then [f] else [];
      assert LocalsAt(s.e, sg, t, [f]) == if s.e.Local(sg, t, f) then [f] else [];
    case Frag(cond, _, sub) =>
      assert Collect(ps, t, [x]) == if Applies(ps, t, cond) then Collect(ps, t, sub) else [];
  }

  // ----- nodes seen from an object

  /** A path after the type conditions an object named `tn` satisfies. */
  function Strip(path: seq<Seg>, tn: Option<Name>): Option<seq<Seg>> {
    if path != [] && path[0].TypeCond? then
      if tn == Some(path[0].ty) then Strip(path[1..], tn) else None
    else Some(path)
  }

  function DerivOne(tn: Option<Name>, k: Name, n: FetchNode): seq<FetchNode> {
    var p := Strip(n.path, tn);
    if p.Some? && p.value != [] && p.value[0] == Key(k) then [n.(path := p.value[1..])] else []
  }

  /** The fetches that continue below response key `k`. */
  function Deriv(tn: Option<Name>, k: Name, ns: seq<FetchNode>): seq<FetchNode> {
    if ns == [] then [] else DerivOne(tn, k, ns[0]) + Deriv(tn, k, ns[1..])
  }

  function OwnOne(tn: Option<Name>, n: FetchNode): seq<FetchNode> {
    if Strip(n.path, tn) == Some([]) then [n.(path := [])] else []
  }

  /** The fetches that end at the object itself. */
  function Own(tn: Option<Name>, ns: seq<FetchNode>): seq<FetchNode> {
    if ns == [] then [] else OwnOne(tn, ns[0]) + Own(tn, ns[1..])
  }

  lemma {:induction false} DerivAppend(tn: Option<Name>, k: Name, a: seq<FetchNode>, b: seq<FetchNode>)
    ensures Deriv(tn, k, a + b) == Deriv(tn, k, a) + Deriv(tn, k, b)
  {
    if a == [] {
      assert a + b == b;
    } else {
      assert (a + b)[1..] == a[1..] + b;
      DerivAppend(tn, k, a[1..], b);
    }
  }

  lemma {:induction false} OwnAppend(tn: Option<Name>, a: seq<FetchNode>, b: seq<FetchNode>)
    ensures Own(tn, a + b) == Own(tn, a) + Own(tn, b)
  {
    if a == [] {
      assert a + b == b;
    } else {
      assert (a + b)[1..] == a[1..] + b;
      OwnAppend(tn, a[1..], b);
    }
  }

  lemma PrefixCons(seg: Seg, ns: seq<FetchNode>)
    requires ns != []
    ensures Prefix(seg, ns) != [] && Prefix(seg, ns)[0] == ns[0].(path := [seg] + ns[0].path)
    ensures Prefix(seg, ns)[1..] == Prefix(seg, ns[1..])
  {
  }

  lemma {:induction false} DerivPrefixKey(tn: Option<Name>, k: Name, k': Name, ns: seq<FetchNode>)
    ensures Deriv(tn, k, Prefix(Key(k'), ns)) == if k == k' then ns else []
    ensures Own(tn, Prefix(Key(k'), ns)) == []
  {
    if ns == [] {
      assert Prefix(Key(k'), ns) == [];
    } else {
      PrefixCons(Key(k'), ns);
      var ps := Prefix(Key(k'), ns);
      DerivPrefixKey(tn, k, k', ns[1..]);
      KeyedOne(tn, k, k', ns[0]);
      assert Deriv(tn, k, ps) == DerivOne(tn, k, ps[0]) + Deriv(tn, k, ps[1..]);
      assert Own(tn, ps) == OwnOne(tn, ps[0]) + Own(tn, ps[1..]);
      if k == k' {
        assert [ns[0]] + ns[1..] == ns;
      }
    }
  }

  lemma KeyedOne(tn: Option<Name>, k: Name, k': Name, n: FetchNode)
    ensures DerivOne(tn, k, n.(path := [Key(k')] + n.path)) == if k == k' then [n] else []
    ensures OwnOne(tn, n.(path := [Key(k')] + n.path)) == []
  {
    assert ([Key(k')] + n.path)[1..] == n.path;
    assert Strip([Key(k')] + n.path, tn) == Some([Key(k')] + n.path);
  }

  lemma {:induction false} DerivPrefixCond(tn: Option<Name>, k: Name, t: Name, ns: seq<FetchNode>)
    ensures Deriv(tn, k, Prefix(TypeCond(t), ns)) == if tn == Some(t) then Deriv(tn, k, ns) else []
    ensures Own(tn, Prefix(TypeCond(t), ns)) == if tn == Some(t) then Own(tn, ns) else []
  {
    if ns == [] {
      assert Prefix(TypeCond(t), ns) == [];
    } else {
      PrefixCons(TypeCond(t), ns);
      var ps := Prefix(TypeCond(t), ns);
      DerivPrefixCond(tn, k, t, ns[1..]);
      CondOne(tn, k, t, ns[0]);
      assert Deriv(tn, k, ps) == DerivOne(tn, k, ps[0]) + Deriv(tn, k, ps[1..]);
      assert Own(tn, ps) == OwnOne(tn, ps[0]) + Own(tn, ps[1..]);
    }
  }

  lemma CondOne(tn: Option<Name>, k: Name, t: Name, n: FetchNode)
    ensures DerivOne(tn, k, n.(path := [TypeCond(t)] + n.path)) == if tn == Some(t) then DerivOne(tn, k, n) else []
    ensures OwnOne(tn, n.(path := [TypeCond(t)] + n.path)) == if tn == Some(t) then OwnOne(tn, n) else []
  {
    assert ([TypeCond(t)] + n.path)[1..] == n.path;
  }

  lemma {:induction false} DerivCuts(tn: Option<Name>, k: Name, e: Engine, p: Name, gs: seq<Group>)
    ensures Deriv(tn, k, CutNodes(e, p, gs)) == []
    ensures Own(tn, CutNodes(e, p, gs)) == CutNodes(e, p, gs)
  {
    if gs != [] {
      var ns := CutNodes(e, p, gs);
      assert ns[1..] == CutNodes(e, p, gs[1..]);
      DerivCuts(tn, k, e, p, gs[1..]);
      assert ns[0] == CutNode(e, p, gs[0]);
      assert ns[0].(path := []) == ns[0];
    }
  }

  /** Paths of the fetches below fields start with a response key. */
  lemma {:induction false} FieldsPaths(e: Engine, sg: nat, fs: seq<Field>)
    ensures forall n :: n in FieldsNodes(e, sg, fs) ==> n.path != [] && n.path[0].Key?
  {
    if fs != [] {
      FieldsPaths(e, sg, fs[1..]);
      PrefixHeads(Key(fs[0].Key()), Nodes(e, sg, fs[0].ty, fs[0].sels));
    }
  }

  lemma {:induction false} PrefixHeads(seg: Seg, ns: seq<FetchNode>)
    ensures forall n :: n in Prefix(seg, ns) ==> n.path != [] && n.path[0] == seg && n.(path := n.path[1..]) in ns
  {
    if ns != [] {
      PrefixHeads(seg, ns[1..]);
      assert ([seg] + ns[0].path)[1..] == ns[0].path;
    }
  }

  /** The un-prefixed fetches below a list of fields. */
  function SubNodes(e: Engine, sg: nat, fs: seq<Field>): seq<FetchNode> {
    if fs == [] then [] else Nodes(e, sg, fs[0].ty, fs[0].sels) + SubNodes(e, sg, fs[1..])
  }

  lemma {:induction false} SubNodesAppend(e: Engine, sg: nat, a: seq<Field>, b: seq<Field>)
    ensures SubNodes(e, sg, a + b) == SubNodes(e, sg, a) + SubNodes(e, sg, b)
  {
    if a == [] {
      assert a + b == b;
    } else {
      assert (a + b)[1..] == a[1..] + b;
      SubNodesAppend(e, sg, a[1..], b);
    }
  }

  lemma {:induction false} DerivField(e: Engine, sg: nat, tn: Option<Name>, k: Name, f: Field)
    ensures Deriv(tn, k, FieldNodes(e, sg, f)) == if f.Key() == k then Nodes(e, sg, f.ty, f.sels) else []
    ensures Own(tn, FieldNodes(e, sg, f)) == []
  {
    if f.sels != [] {
      DerivPrefixKey(tn, k, f.Key(), Nodes(e, sg, f.ty, f.sels));
    } else {
      assert Nodes(e, sg, f.ty, []) == [];
    }
  }

  /** Below a list of fields, key `k` continues exactly the fetches of the
      fields answering under `k`, and nothing ends at the top. */
  lemma {:induction false} DerivFields(e: Engine, sg: nat, tn: Option<Name>, k: Name, fs: seq<Field>)
    ensures Deriv(tn, k, FieldsNodes(e, sg, fs)) == SubNodes(e, sg, With(fs, k))
    ensures Own(tn, FieldsNodes(e, sg, fs)) == []
  {
    if fs != [] {
      DerivField(e, sg, tn, k, fs[0]);
      DerivFields(e, sg, tn, k, fs[1..]);
      DerivAppend(tn, k, FieldNodes(e, sg, fs[0]), FieldsNodes(e, sg, fs[1..]));
      OwnAppend(tn, FieldNodes(e, sg, fs[0]), FieldsNodes(e, sg, fs[1..]));
      if fs[0].Key() == k {
        assert With(fs, k)[1..] == With(fs[1..], k);
      }
    }
  }

  /** On an object of type `t`, key `k` continues exactly the fetches of the
      local fields collected under `k`. */
  lemma {:induction false} DerivNodes(s: Sup, sg: nat, p: Name, t: Name, sels: seq<Sel>, k: Name)
    requires At(s, sg, p, t) && SplitOk(s, sg, p, sels)
    ensures Deriv(Some(t), k, Nodes(s.e, sg, p, sels)) == SubNodes(s.e, sg, LocalsWith(s, sg, t, sels, k))
    decreases DepthOf(sels), 2
  {
    DerivLocalNodes(s, sg, p, t, sels, k);
    DerivCuts(Some(t), k, s.e, p, Groups(s.e, p, Cuts(s.e, sg, p, sels)));
    DerivAppend(Some(t), k, LocalNodes(s.e, sg, p, sels), CutNodes(s.e, p, Groups(s.e, p, Cuts(s.e, sg, p, sels))));
  }

  lemma {:induction false} DerivLocalNodes(s: Sup, sg: nat, p: Name, t: Name, sels: seq<Sel>, k: Name)
    requires At(s, sg, p, t) && SplitOk(s, sg, p, sels)
    ensures Deriv(Some(t), k, LocalNodes(s.e, sg, p, sels)) == SubNodes(s.e, sg, LocalsWith(s, sg, t, sels, k))
    decreases DepthOf(sels), 1, |sels|
  {
    if sels != [] {
      var x := sels[0];
      assert x in sels && SplitSel(s, sg, p, x);
      assert sels == [x] + sels[1..];
      LocalsWithAppend(s, sg, t, [x], sels[1..], k);
      DerivLocalNodes(s, sg, p, t, sels[1..], k);
      DerivSel(s, sg, p, t, x, k);
      DerivAppend(Some(t), k, SelNodes(s.e, sg, p, x), LocalNodes(s.e, sg, p, sels[1..]));
      SubNodesAppend(s.e, sg, LocalsWith(s, sg, t, [x], k), LocalsWith(s, sg, t, sels[1..], k));
    }
  }

  lemma {:induction false} DerivSel(s: Sup, sg: nat, p: Name, t: Name, x: Sel, k: Name)
    requires At(s, sg, p, t) && SplitSel(s, sg, p, x)
    ensures Deriv(Some(t), k, SelNodes(s.e, sg, p, x)) == SubNodes(s.e, sg, LocalsWith(s, sg, t, [x], k))
    decreases Depth(x), 0
  {
    LocalsWithOne(s, sg, t, x, k);
    match x
    case F(f) =>
      LocalAgrees(s, sg, p, t, f);
      DerivField(s.e, sg, Some(t), k, f);
      assert SubNodes(s.e, sg, [f]) == Nodes(s.e, sg, f.ty, f.sels) by { assert [f][1..] == []; }
    case Frag(cond, _, sub) =>
      if cond != p {
        DerivPrefixCond(Some(t), k, cond, Nodes(s.e, sg, cond, sub));
      }
      if Applies(s.schema.ps, t, cond) {
        DerivNodes(s, sg, cond, t, sub, k);
      }
  }

  // ----- entity fetches that end at an object

  function OwnGroups(e: Engine, ps: Poss, sg: nat, t: Name, p: Name, sels: seq<Sel>): (gs: seq<Group>)
    ensures GroupsDepth(gs) <= DepthOf(sels)
    decreases DepthOf(sels), 2
  {
    GroupsDepthAppend(OwnLocal(e, ps, sg, t, sels), Groups(e, p, Cuts(e, sg, p, sels)));
    OwnLocal(e, ps, sg, t, sels) + Groups(e, p, Cuts(e, sg, p, sels))
  }

  function OwnLocal(e: Engine, ps: Poss, sg: nat, t: Name, sels: seq<Sel>): (gs: seq<Group>)
    ensures GroupsDepth(gs) <= DepthOf(sels)
    decreases DepthOf(sels), 1, |sels|
  {
    if sels == [] then []
    else if sels[0].Frag? && Applies(ps, t, sels[0].cond) then
      assert Depth(sels[0]) == 1 + DepthOf(sels[0].fsels);
      assert DepthOf(sels) == Max(Depth(sels[0]), DepthOf(sels[1..]));
      GroupsDepthAppend(OwnGroups(e, ps, sg, t, sels[0].cond, sels[0].fsels), OwnLocal(e, ps, sg, t, sels[1..]));
      OwnGroups(e, ps, sg, t, sels[0].cond, sels[0].fsels) + OwnLocal(e, ps, sg, t, sels[1..])
    else OwnLocal(e, ps, sg, t, sels[1..])
  }

  lemma {:induction false} CutNodesAppend(e: Engine, p: Name, a: seq<Group>, b: seq<Group>)
    ensures CutNodes(e, p, a + b) == CutNodes(e, p, a) + CutNodes(e, p, b)
  {
    if a == [] {
      assert a + b == b;
    } else {
      assert (a + b)[1..] == a[1..] + b;
      CutNodesAppend(e, p, a[1..], b);
    }
  }

  lemma {:induction false} CutsNeedEntity(e: Engine, sg: nat, p: Name, sels: seq<Sel>)
    ensures !e.IsEntity(p) ==> Cuts(e, sg, p, sels) == []
  {
    if sels != [] {
      CutsNeedEntity(e, sg, p, sels[1..]);
    }
  }

  /** The fetches ending at an object of type `t` are the cut groups of the
      selection sets that apply to it. */
  lemma {:induction false} OwnNodes(s: Sup, sg: nat, p: Name, t: Name, sels: seq<Sel>)
    requires At(s, sg, p, t) && SplitOk(s, sg, p, sels)
    ensures Own(Some(t), Nodes(s.e, sg, p, sels)) == CutNodes(s.e, t, OwnGroups(s.e, s.schema.ps, sg, t, p, sels))
    decreases DepthOf(sels), 2
  {
    var gs := Groups(s.e, p, Cuts(s.e, sg, p, sels));
    OwnLocalNodes(s, sg, p, t, sels);
    CutsNeedEntity(s.e, sg, p, sels);
    DerivCuts(Some(t), "", s.e, p, gs);
    OwnAppend(Some(t), LocalNodes(s.e, sg, p, sels), CutNodes(s.e, p, gs));
    CutNodesAppend(s.e, t, OwnLocal(s.e, s.schema.ps, sg, t, sels), gs);
    if gs != [] {
      assert p == t;
    }
  }

  lemma {:induction false} OwnLocalNodes(s: Sup, sg: nat, p: Name, t: Name, sels: seq<Sel>)
    requires At(s, sg, p, t) && SplitOk(s, sg, p, sels)
    ensures Own(Some(t), LocalNodes(s.e, sg, p, sels)) == CutNodes(s.e, t, OwnLocal(s.e, s.schema.ps, sg, t, sels))
    decreases DepthOf(sels), 1, |sels|
  {
    if sels != [] {
      var x := sels[0];
      assert x in sels && SplitSel(s, sg, p, x);
      OwnLocalNodes(s, sg, p, t, sels[1..]);
      OwnAppend(Some(t), SelNodes(s.e, sg, p, x), LocalNodes(s.e, sg, p, sels[1..]));
      match x
      case F(f) => DerivField(s.e, sg, Some(t), "", f);
      case Frag(cond, _, sub) =>
        assert Depth(x) == 1 + DepthOf(sub);
        if cond != p {
          DerivPrefixCond(Some(t), "", cond, Nodes(s.e, sg, cond, sub));
        }
        if Applies(s.schema.ps, t, cond) {
          OwnNodes(s, sg, cond, t, sub);
          CutNodesAppend(s.e, t, OwnGroups(s.e, s.schema.ps, sg, t, cond, sub),
                         OwnLocal(s.e, s.schema.ps, sg, t, sels[1..]));
        }
    }
  }

  /** The foreign fields among `fs`, each with its target. */
  ghost function ForeignPairs(e: Engine, sg: nat, t: Name, fs: seq<Field>): set<(nat, Field)> {
    set f | f in fs && !e.Local(sg, t, f) :: (e.Target(t, f), f)
  }

  lemma ForeignAppend(e: Engine, sg: nat, t: Name, a: seq<Field>, b: seq<Field>)
    ensures ForeignPairs(e, sg, t, a + b) == ForeignPairs(e, sg, t, a) + ForeignPairs(e, sg, t, b)
  {
    assert forall f :: f in a + b <==> f in a || f in b;
  }

  /** The fields selected directly, not through a fragment. */
  function Direct(sels: seq<Sel>): seq<Field> {
    if sels == [] then []
    else if sels[0].F? then [sels[0].f] + Direct(sels[1..])
    else Direct(sels[1..])
  }

  lemma {:induction false} CutsPairs(s: Sup, sg: nat, p: Name, t: Name, sels: seq<Sel>)
    requires At(s, sg, p, t) && SplitOk(s, sg, p, sels)
    ensures (set f | f in Cuts(s.e, sg, p, sels) :: (s.e.Target(p, f), f)) ==
            ForeignPairs(s.e, sg, t, Direct(sels))
  {
    if sels != [] {
      var x := sels[0];
      assert x in sels && SplitSel(s, sg, p, x);
      CutsPairs(s, sg, p, t, sels[1..]);
      if x.F? {
        LocalAgrees(s, sg, p, t, x.f);
        ForeignAppend(s.e, sg, t, [x.f], Direct(sels[1..]));
      }
    }
  }

  /** The groups at an object hold exactly its foreign fields. */
  lemma {:induction false} OwnPairs(s: Sup, sg: nat, p: Name, t: Name, sels: seq<Sel>)
    requires At(s, sg, p, t) && SplitOk(s, sg, p, sels)
    ensures Pairs(OwnGroups(s.e, s.schema.ps, sg, t, p, sels)) ==
            ForeignPairs(s.e, sg, t, Collect(s.schema.ps, t, sels))
    decreases DepthOf(sels), 2
  {
    var cuts := Cuts(s.e, sg, p, sels);
    OwnLocalPairs(s, sg, p, t, sels);
    PairsAppend(OwnLocal(s.e, s.schema.ps, sg, t, sels), Groups(s.e, p, cuts));
    GroupsPairs(s.e, p, cuts);
    CutsPairs(s, sg, p, t, sels);
  }

  lemma {:induction false} OwnLocalPairs(s: Sup, sg: nat, p: Name, t: Name, sels: seq<Sel>)
    requires At(s, sg, p, t) && SplitOk(s, sg, p, sels)
    ensures Pairs(OwnLocal(s.e, s.schema.ps, sg, t, sels)) + ForeignPairs(s.e, sg, t, Direct(sels)) ==
            ForeignPairs(s.e, sg, t, Collect(s.schema.ps, t, sels))
    decreases DepthOf(sels), 1, |sels|
  {
    if sels != [] {
      var x := sels[0];
      var ps := s.schema.ps;
      assert x in sels && SplitSel(s, sg, p, x);
      OwnLocalPairs(s, sg, p, t, sels[1..]);
      match x
      case F(f) =>
        ForeignAppend(s.e, sg, t, [f], Direct(sels[1..]));
        ForeignAppend(s.e, sg, t, [f], Collect(ps, t, sels[1..]));
      case Frag(cond, _, sub) =>
        assert Depth(x) == 1 + DepthOf(sub);
        if Applies(ps, t, cond) {
          OwnPairs(s, sg, cond, t, sub);
          ForeignAppend(s.e, sg, t, Collect(ps, t, sub), Collect(ps, t, sels[1..]));
          PairsAppend(OwnGroups(s.e, ps, sg, t, cond, sub), OwnLocal(s.e, ps, sg, t, sels[1..]));
        }
    }
  }

  // ----- printed fields seen from an object

  lemma {:induction false} PrintedAppend(e: Engine, sg: nat, a: seq<Field>, b: seq<Field>)
    ensures PrintedAll(e, sg, a + b) == PrintedAll(e, sg, a) + PrintedAll(e, sg, b)
  {
    if a == [] {
      assert a + b == b;
    } else {
      assert (a + b)[1..] == a[1..] + b;
      PrintedAppend(e, sg, a[1..], b);
    }
  }

  /** A response key the planner never adds itself. */
  predicate ClientKey(k: Name) {
    k != TYPENAME && !IsKeyAlias(k)
  }

  lemma {:induction false} KeyTextCollect(ps: Poss, t: Name, ks: seq<Name>, k: Name)
    ensures ClientKey(k) ==> With(Collect(ps, t, KeyText(ks)), k) == []
    ensures forall x <- ks :: KeyField(x) in Collect(ps, t, KeyText(ks))
    ensures forall h <- Collect(ps, t, KeyText(ks)) :: exists x :: x in ks && h == KeyField(x)
  {
    if ks != [] {
      KeyTextCollect(ps, t, ks[1..], k);
      assert KeyText(ks)[1..] == KeyText(ks[1..]);
      var rest := Collect(ps, t, KeyText(ks[1..]));
      assert Collect(ps, t, KeyText(ks)) == [KeyField(ks[0])] + rest;
      assert ([KeyField(ks[0])] + rest)[1..] == rest;
      assert ks[0] in ks && IsKeyAlias(KeyAlias(ks[0]));
    }
  }

  /** Under a client key, the sub-query holds exactly the printed forms of
      the local fields, in order. */
  lemma {:induction false} TextWith(s: Sup, sg: nat, p: Name, t: Name, sels: seq<Sel>, k: Name)
    requires At(s, sg, p, t) && SplitOk(s, sg, p, sels) && ClientKey(k)
    ensures With(Collect(s.schema.ps, t, Text(s.e, sg, p, sels)), k) ==
            PrintedAll(s.e, sg, LocalsWith(s, sg, t, sels, k))
    decreases DepthOf(sels), 2
  {
    var ps := s.schema.ps;
    var ks := InjectedKeys(s.e, p, Groups(s.e, p, Cuts(s.e, sg, p, sels)), {});
    var local := LocalText(s.e, sg, p, sels);
    LocalTextWith(s, sg, p, t, sels, k);
    KeyTextCollect(ps, t, ks, k);
    TextCollect(s.e, s.schema.ps, sg, p, t, sels);
    WithAppend([TypenameField] + Collect(ps, t, local), Collect(ps, t, KeyText(ks)), k);
    WithAppend([TypenameField], Collect(ps, t, local), k);
    assert With([TypenameField], k) == [] by { assert [TypenameField][1..] == []; }
  }

  lemma {:induction false} TextCollect(e: Engine, ps: Poss, sg: nat, p: Name, t: Name, sels: seq<Sel>)
    ensures var ks := InjectedKeys(e, p, Groups(e, p, Cuts(e, sg, p, sels)), {});
            Collect(ps, t, Text(e, sg, p, sels)) ==
            [TypenameField] + Collect(ps, t, LocalText(e, sg, p, sels)) + Collect(ps, t, KeyText(ks))
  {
    var ks := InjectedKeys(e, p, Groups(e, p, Cuts(e, sg, p, sels)), {});
    var local := LocalText(e, sg, p, sels);
    CollectAppend(ps, t, [F(TypenameField)] + local, KeyText(ks));
    CollectAppend(ps, t, [F(TypenameField)], local);
    assert Collect(ps, t, [F(TypenameField)]) == [TypenameField] by {
      assert [F(TypenameField)][1..] == [];
    }
  }

  lemma {:induction false} LocalTextWith(s: Sup, sg: nat, p: Name, t: Name, sels: seq<Sel>, k: Name)
    requires At(s, sg, p, t) && SplitOk(s, sg, p, sels) && ClientKey(k)
    ensures With(Collect(s.schema.ps, t, LocalText(s.e, sg, p, sels)), k) ==
            PrintedAll(s.e, sg, LocalsWith(s, sg, t, sels, k))
    decreases DepthOf(sels), 1, |sels|
  {
    if sels != [] {
      var x := sels[0];
      var ps := s.schema.ps;
      assert x in sels && SplitSel(s, sg, p, x);
      assert sels == [x] + sels[1..];
      LocalsWithAppend(s, sg, t, [x], sels[1..], k);
      PrintedAppend(s.e, sg, LocalsWith(s, sg, t, [x], k), LocalsWith(s, sg, t, sels[1..], k));
      LocalTextWith(s, sg, p, t, sels[1..], k);
      SelTextWith(s, sg, p, t, x, k);
      CollectAppend(ps, t, SelText(s.e, sg, p, x), LocalText(s.e, sg, p, sels[1..]));
      WithAppend(Collect(ps, t, SelText(s.e, sg, p, x)), Collect(ps, t, LocalText(s.e, sg, p, sels[1..])), k);
    }
  }

  lemma {:induction false} SelTextWith(s: Sup, sg: nat, p: Name, t: Name, x: Sel, k: Name)
    requires At(s, sg, p, t) && SplitSel(s, sg, p, x) && ClientKey(k)
    ensures With(Collect(s.schema.ps, t, SelText(s.e, sg, p, x)), k) ==
            PrintedAll(s.e, sg, LocalsWith(s, sg, t, [x], k))
    decreases Depth(x), 0
  {
    var ps := s.schema.ps;
    LocalsWithOne(s, sg, t, x, k);
    match x
    case F(f) =>
      LocalAgrees(s, sg, p, t, f);
      if s.e.Local(sg, p, f) {
        var g := Printed(s.e, sg, f);
        assert [F(g)][1..] == [] && [g][1..] == [] && [f][1..] == [];
        assert Collect(ps, t, [F(g)]) == [g];
        assert With([g], k) == if f.Key() == k then [g] else [];
        assert PrintedAll(s.e, sg, [f]) == [g];
      }
    case Frag(cond, dirs, sub) =>
      var y := Frag(cond, dirs, Text(s.e, sg, cond, sub));
      assert [y][1..] == [];
      assert Collect(ps, t, [y]) == if Applies(ps, t, cond) then Collect(ps, t, Text(s.e, sg, cond, sub)) else [];
      if Applies(ps, t, cond) {
        TextWith(s, sg, cond, t, sub, k);
      }
  }

  lemma {:induction false} NewKeysCover(ks: seq<Name>, seen: set<Name>, k: Name)
    requires k in ks
    ensures k in seen || k in NewKeys(ks, seen)
  {
    if ks[0] != k {
      NewKeysCover(ks[1..], if ks[0] in seen then seen else seen + {ks[0]}, k);
    }
  }

  lemma {:induction false} InjectedCover(e: Engine, p: Name, gs: seq<Group>, seen: set<Name>, g: Group, k: Name)
    requires g in gs && k in e.KeysOf(p, g.target)
    ensures k in seen || k in InjectedKeys(e, p, gs, seen)
  {
    var ks := e.KeysOf(p, gs[0].target);
    if k in ks {
      NewKeysCover(ks, seen, k);
    } else {
      InjectedCover(e, p, gs[1..], seen + (set x | x in ks), g, k);
    }
  }

  /** Every key field an entity fetch at the object needs is in the
      object's sub-query. */
  lemma {:induction false} KeysInText(s: Sup, sg: nat, p: Name, t: Name, sels: seq<Sel>, g: Group, k: Name)
    requires At(s, sg, p, t) && SplitOk(s, sg, p, sels)
    requires g in OwnGroups(s.e, s.schema.ps, sg, t, p, sels) && k in s.e.KeysOf(t, g.target)
    ensures KeyField(k) in Collect(s.schema.ps, t, Text(s.e, sg, p, sels))
    decreases DepthOf(sels), 2
  {
    TextCollect(s.e, s.schema.ps, sg, p, t, sels);
    var gs := Groups(s.e, p, Cuts(s.e, sg, p, sels));
    if g in gs {
      CutsNeedEntity(s.e, sg, p, sels);
      assert p == t;
      InjectedCover(s.e, p, gs, {}, g, k);
      KeyTextCollect(s.schema.ps, t, InjectedKeys(s.e, p, gs, {}), "");
    } else {
      KeysInLocalText(s, sg, p, t, sels, g, k);
    }
  }

  lemma {:induction false} KeysInLocalText(s: Sup, sg: nat, p: Name, t: Name, sels: seq<Sel>, g: Group, k: Name)
    requires At(s, sg, p, t) && SplitOk(s, sg, p, sels)
    requires g in OwnLocal(s.e, s.schema.ps, sg, t, sels) && k in s.e.KeysOf(t, g.target)
    ensures KeyField(k) in Collect(s.schema.ps, t, LocalText(s.e, sg, p, sels))
    decreases DepthOf(sels), 1, |sels|
  {
    var x := sels[0];
    var ps := s.schema.ps;
    assert x in sels && SplitSel(s, sg, p, x);
    CollectAppend(ps, t, SelText(s.e, sg, p, x), LocalText(s.e, sg, p, sels[1..]));
    if g in OwnLocal(s.e, ps, sg, t, sels[1..]) {
      KeysInLocalText(s, sg, p, t, sels[1..], g, k);
    } else {
      assert Depth(x) == 1 + DepthOf(x.fsels);
      KeysInText(s, sg, x.cond, t, x.fsels, g, k);
      var y := Frag(x.cond, x.fdirs, Text(s.e, sg, x.cond, x.fsels));
      assert [y][1..] == [];
      assert Collect(ps, t, [y]) == Collect(ps, t, y.fsels) + Collect(ps, t, []);
    }
  }

  // ----- several field occurrences at one object

  ghost predicate AllAt(s: Sup, sg: nat, fs: seq<Field>, t: Name) {
    forall f :: f in fs ==> At(s, sg, f.ty, t) && SplitOk(s, sg, f.ty, f.sels) && f.sels != []
  }

  function AllGroups(e: Engine, ps: Poss, sg: nat, t: Name, fs: seq<Field>): (gs: seq<Group>)
    ensures fs != [] ==> GroupsDepth(gs) < FieldsDepth(fs)
    ensures fs == [] ==> gs == []
  {
    if fs == [] then []
    else
      GroupsDepthAppend(OwnGroups(e, ps, sg, t, fs[0].ty, fs[0].sels), AllGroups(e, ps, sg, t, fs[1..]));
      OwnGroups(e, ps, sg, t, fs[0].ty, fs[0].sels) + AllGroups(e, ps, sg, t, fs[1..])
  }

  lemma {:induction false} AllTextWith(s: Sup, sg: nat, t: Name, fs: seq<Field>, k: Name)
    requires AllAt(s, sg, fs, t) && ClientKey(k)
    ensures With(Collect(s.schema.ps, t, Subs(PrintedAll(s.e, sg, fs))), k) ==
            PrintedAll(s.e, sg, LocalsWith(s, sg, t, Subs(fs), k))
  {
    if fs != [] {
      var f := fs[0];
      var ps := s.schema.ps;
      assert f in fs;
      var tail := PrintedAll(s.e, sg, fs[1..]);
      assert PrintedAll(s.e, sg, fs)[1..] == tail;
      AllTextWith(s, sg, t, fs[1..], k);
      TextWith(s, sg, f.ty, t, f.sels, k);
      CollectAppend(ps, t, Text(s.e, sg, f.ty, f.sels), Subs(tail));
      WithAppend(Collect(ps, t, Text(s.e, sg, f.ty, f.sels)), Collect(ps, t, Subs(tail)), k);
      LocalsWithAppend(s, sg, t, f.sels, Subs(fs[1..]), k);
      PrintedAppend(s.e, sg, LocalsWith(s, sg, t, f.sels, k), LocalsWith(s, sg, t, Subs(fs[1..]), k));
    }
  }

  lemma {:induction false} AllDeriv(s: Sup, sg: nat, t: Name, fs: seq<Field>, k: Name)
    requires AllAt(s, sg, fs, t)
    ensures Deriv(Some(t), k, SubNodes(s.e, sg, fs)) == SubNodes(s.e, sg, LocalsWith(s, sg, t, Subs(fs), k))
  {
    if fs != [] {
      var f := fs[0];
      assert f in fs;
      AllDeriv(s, sg, t, fs[1..], k);
      DerivNodes(s, sg, f.ty, t, f.sels, k);
      DerivAppend(Some(t), k, Nodes(s.e, sg, f.ty, f.sels), SubNodes(s.e, sg, fs[1..]));
      LocalsWithAppend(s, sg, t, f.sels, Subs(fs[1..]), k);
      SubNodesAppend(s.e, sg, LocalsWith(s, sg, t, f.sels, k), LocalsWith(s, sg, t, Subs(fs[1..]), k));
    }
  }

  lemma {:induction false} AllOwn(s: Sup, sg: nat, t: Name, fs: seq<Field>)
    requires AllAt(s, sg, fs, t)
    ensures Own(Some(t), SubNodes(s.e, sg, fs)) == CutNodes(s.e, t, AllGroups(s.e, s.schema.ps, sg, t, fs))
  {
    if fs != [] {
      var f := fs[0];
      assert f in fs;
      AllOwn(s, sg, t, fs[1..]);
      OwnNodes(s, sg, f.ty, t, f.sels);
      OwnAppend(Some(t), Nodes(s.e, sg, f.ty, f.sels), SubNodes(s.e, sg, fs[1..]));
      CutNodesAppend(s.e, t, OwnGroups(s.e, s.schema.ps, sg, t, f.ty, f.sels),
                     AllGroups(s.e, s.schema.ps, sg, t, fs[1..]));
    }
  }

  lemma {:induction false} AllPairs(s: Sup, sg: nat, t: Name, fs: seq<Field>)
    requires AllAt(s, sg, fs, t)
    ensures Pairs(AllGroups(s.e, s.schema.ps, sg, t, fs)) ==
            ForeignPairs(s.e, sg, t, Collect(s.schema.ps, t, Subs(fs)))
  {
    if fs != [] {
      var f := fs[0];
      assert f in fs;
      AllPairs(s, sg, t, fs[1..]);
      OwnPairs(s, sg, f.ty, t, f.sels);
      PairsAppend(OwnGroups(s.e, s.schema.ps, sg, t, f.ty, f.sels), AllGroups(s.e, s.schema.ps, sg, t, fs[1..]));
      CollectAppend(s.schema.ps, t, f.sels, Subs(fs[1..]));
      ForeignAppend(s.e, sg, t, Collect(s.schema.ps, t, f.sels), Collect(s.schema.ps, t, Subs(fs[1..])));
    }
  }

  /** Seen from the object, a group's fields are foreign and its own. */
  lemma {:induction false} GroupFields(s: Sup, sg: nat, t: Name, fs: seq<Field>, g: Group, f: Field)
    requires AllAt(s, sg, fs, t)
    requires g in AllGroups(s.e, s.schema.ps, sg, t, fs) && f in g.fields
    ensures f in Collect(s.schema.ps, t, Subs(fs)) && !s.e.Local(sg, t, f) && g.target == s.e.Target(t, f)
  {
    var gs := AllGroups(s.e, s.schema.ps, sg, t, fs);
    AllPairs(s, sg, t, fs);
    PairsMember(gs, g.target, f);
    assert (g.target, f) in ForeignPairs(s.e, sg, t, Collect(s.schema.ps, t, Subs(fs)));
  }

  lemma {:induction false} AllKeysInText(s: Sup, sg: nat, t: Name, fs: seq<Field>, g: Group, k: Name)
    requires AllAt(s, sg, fs, t)
    requires g in AllGroups(s.e, s.schema.ps, sg, t, fs) && k in s.e.KeysOf(t, g.target)
    ensures KeyField(k) in Collect(s.schema.ps, t, Subs(PrintedAll(s.e, sg, fs)))
  {
    var f := fs[0];
    assert f in fs;
    var tail := PrintedAll(s.e, sg, fs[1..]);
    assert PrintedAll(s.e, sg, fs)[1..] == tail;
    CollectAppend(s.schema.ps, t, Text(s.e, sg, f.ty, f.sels), Subs(tail));
    if g in AllGroups(s.e, s.schema.ps, sg, t, fs[1..]) {
      AllKeysInText(s, sg, t, fs[1..], g, k);
    } else {
      KeysInText(s, sg, f.ty, t, f.sels, g, k);
    }
  }

  /** Fields the planner adds: the type name and aliased key fields. */
  predicate Added(h: Field) {
    h == TypenameField || (h.alias.Some? && h == KeyField(h.name))
  }

  /** Everything a sub-query selects on an object is an added field or the
      printed form of a client field selected there. */
  lemma {:induction false} TextField(e: Engine, ps: Poss, sg: nat, p: Name, t: Name, sels: seq<Sel>, h: Field)
    requires h in Collect(ps, t, Text(e, sg, p, sels))
    ensures Added(h) || exists f :: f in Collect(ps, t, sels) && h == Printed(e, sg, f)
    decreases DepthOf(sels), 2
  {
    var ks := InjectedKeys(e, p, Groups(e, p, Cuts(e, sg, p, sels)), {});
    TextCollect(e, ps, sg, p, t, sels);
    if h in Collect(ps, t, LocalText(e, sg, p, sels)) {
      LocalTextField(e, ps, sg, p, t, sels, h);
    } else if h != TypenameField {
      KeyTextCollect(ps, t, ks, "");
    }
  }

  lemma {:induction false} LocalTextField(e: Engine, ps: Poss, sg: nat, p: Name, t: Name, sels: seq<Sel>, h: Field)
    requires h in Collect(ps, t, LocalText(e, sg, p, sels))
    ensures Added(h) || exists f :: f in Collect(ps, t, sels) && h == Printed(e, sg, f)
    decreases DepthOf(sels), 1, |sels|
  {
    var x := sels[0];
    CollectAppend(ps, t, SelText(e, sg, p, x), LocalText(e, sg, p, sels[1..]));
    if h in Collect(ps, t, LocalText(e, sg, p, sels[1..])) {
      LocalTextField(e, ps, sg, p, t, sels[1..], h);
    } else {
      match x
      case F(f) =>
        assert [F(Printed(e, sg, f))][1..] == [];
        assert f in Collect(ps, t, sels);
      case Frag(cond, dirs, sub) =>
        assert Depth(x) == 1 + DepthOf(sub);
        var y := Frag(cond, dirs, Text(e, sg, cond, sub));
        assert [y][1..] == [];
        assert Collect(ps, t, [y]) == Collect(ps, t, y.fsels) + Collect(ps, t, []);
        TextField(e, ps, sg, cond, t, sub, h);
    }
  }

  lemma {:induction false} AllTextField(e: Engine, ps: Poss, sg: nat, t: Name, fs: seq<Field>, h: Field)
    requires h in Collect(ps, t, Subs(PrintedAll(e, sg, fs)))
    ensures Added(h) || exists f :: f in Collect(ps, t, Subs(fs)) && h == Printed(e, sg, f)
  {
    if fs != [] {
      var f := fs[0];
      var tail := PrintedAll(e, sg, fs[1..]);
      assert PrintedAll(e, sg, fs)[1..] == tail;
      CollectAppend(ps, t, Printed(e, sg, f).sels, Subs(tail));
      CollectAppend(ps, t, f.sels, Subs(fs[1..]));
      if h in Collect(ps, t, Subs(tail)) {
        AllTextField(e, ps, sg, t, fs[1..], h);
      } else {
        TextField(e, ps, sg, f.ty, t, f.sels, h);
      }
    }
  }

  /** `k` belongs to some subgraph's canonical key of `t`. */
  predicate IsKeyOf(e: Engine, t: Name, k: Name) {
    t in e.keys && exists i :: 0 <= i < |e.keys[t]| && e.keys[t][i].Some? && k in e.keys[t][i].value
  }

  /** The type name is selected on every object of a response. */
  lemma {:induction false} TypenameInText(s: Sup, sg: nat, t: Name, fs: seq<Field>)
    requires AllAt(s, sg, fs, t) && fs != []
    ensures TypenameField in Collect(s.schema.ps, t, Subs(PrintedAll(s.e, sg, fs)))
  {
    var f := fs[0];
    assert f in fs;
    assert PrintedAll(s.e, sg, fs)[1..] == PrintedAll(s.e, sg, fs[1..]);
    CollectAppend(s.schema.ps, t, Text(s.e, sg, f.ty, f.sels), Subs(PrintedAll(s.e, sg, fs[1..])));
    TextCollect(s.e, s.schema.ps, sg, f.ty, t, f.sels);
  }

  ghost predicate Nonempty(gs: seq<Group>) {
    forall g :: g in gs ==> g.fields != []
  }

  lemma {:induction false} AddToNonempty(gs: seq<Group>, t: nat, f: Field)
    requires Nonempty(gs)
    ensures Nonempty(AddTo(gs, t, f))
  {
    if gs != [] && gs[0].target != t {
      AddToNonempty(gs[1..], t, f);
    }
  }

  lemma {:induction false} GroupsNonempty(e: Engine, p: Name, fs: seq<Field>)
    ensures Nonempty(Groups(e, p, fs))
  {
    if fs != [] {
      var n := |fs| - 1;
      GroupsNonempty(e, p, fs[..n]);
      AddToNonempty(Groups(e, p, fs[..n]), e.Target(p, fs[n]), fs[n]);
    }
  }

  lemma {:induction false} OwnNonempty(e: Engine, ps: Poss, sg: nat, t: Name, p: Name, sels: seq<Sel>)
    ensures Nonempty(OwnGroups(e, ps, sg, t, p, sels))
    decreases DepthOf(sels), 2
  {
    OwnLocalNonempty(e, ps, sg, t, sels);
    GroupsNonempty(e, p, Cuts(e, sg, p, sels));
  }

  lemma {:induction false} OwnLocalNonempty(e: Engine, ps: Poss, sg: nat, t: Name, sels: seq<Sel>)
    ensures Nonempty(OwnLocal(e, ps, sg, t, sels))
    decreases DepthOf(sels), 1, |sels|
  {
    if sels != [] {
      OwnLocalNonempty(e, ps, sg, t, sels[1..]);
      if sels[0].Frag? {
        assert Depth(sels[0]) == 1 + DepthOf(sels[0].fsels);
        OwnNonempty(e, ps, sg, t, sels[0].cond, sels[0].fsels);
      }
    }
  }

  lemma {:induction false} AllNonempty(e: Engine, ps: Poss, sg: nat, t: Name, fs: seq<Field>)
    ensures Nonempty(AllGroups(e, ps, sg, t, fs))
  {
    if fs != [] {
      OwnNonempty(e, ps, sg, t, fs[0].ty, fs[0].sels);
      AllNonempty(e, ps, sg, t, fs[1..]);
    }
  }

  lemma {:induction false} CutNodesAt(e: Engine, p: Name, gs: seq<Group>)
    ensures |CutNodes(e, p, gs)| == |gs|
    ensures forall i :: 0 <= i < |gs| ==> CutNodes(e, p, gs)[i] == CutNode(e, p, gs[i])
  {
    if gs != [] {
      CutNodesAt(e, p, gs[1..]);
    }
  }
}
