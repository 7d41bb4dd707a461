/** Runs that reach the branch the code marks unreachable: a fetch that
    brings `__typename`, and one that brings a key a sibling goes on through. */
module Divergence {
  import opened Basics
  import opened GraphQl
  import opened Plan
  import opened PlanFacts
  import opened Exec
  import opened Federation
  import opened Resolver
  import opened Subqueries
  import opened Variables
  import opened Refinement
  import opened EndToEnd
  import opened Witness
  import opened Necessity
  import opened Conformance
  import M = Meaning

  // ----- two fetches, the second of which misses its object

  lemma {:induction false} LaterMisses(ft: Fetch, op: Operation, rv: Name, values: seq<Json>, now: seq<Json>, a: FetchNode, b: FetchNode,
                                       rep: map<Name, Json>)
    requires RepsAt(values, b) == [Some(rep)] && FetchCut(ft, op, rv, [rep], b.cut).values != [] && WalkAll(now, b.path) == []
    requires MergeOne(values, values, a, FetchCut(ft, op, rv, Present(RepsAt(values, a)), a.cut)).0 == now
    ensures !Converged(ResolveNodes(ft, op, rv, values, [a, b]).problems)
  {
    var outs := FetchAll(ft, op, rv, values, [a, b]);
    FetchAllAt(ft, op, rv, values, [a, b], 0);
    FetchAllAt(ft, op, rv, values, [a, b], 1);
    assert [Some(rep)][1..] == [] && Present([Some(rep)]) == [rep];
    assert [a, b][..1] == [a] && outs[..1] == [outs[0]] && [a][..0] == [] && [outs[0]][..0] == [];
    assert MergeNodes(values, [a], [outs[0]]).values == now;
    var all := MergeNodes(values, [a, b], outs).problems;
    assert all[|all| - 1] == Diverged(b.cut.subgraph);
  }

  /** One fetch at the only object it finds. */
  lemma {:induction false} OneMerged(values: seq<Json>, a: FetchNode, out: Outcome, rep: map<Name, Json>, u: map<Name, Json>)
    requires RepsAt(values, a) == [Some(rep)] && out.values == [Obj(u)]
    ensures |WalkAll(values, a.path)| == 1 && MergeOne(values, values, a, out).0 == MergeList(values, a.path, [Some(u)])
  {
    assert [Some(rep)][1..] == [] && Present([Some(rep)]) == [rep];
    assert Align([], [Obj(u)][1..]) == [];
    assert Align([Some(rep)], [Obj(u)]) == [Some(u)] + Align([Some(rep)][1..], [Obj(u)][1..]);
    assert Align(RepsAt(values, a), out.values) == [Some(u)];
  }

  function One(k: Name, m: map<Name, Json>): seq<Json> {
    [Obj(map[k := Obj(m)])]
  }

  lemma {:induction false} WalkOne(k: Name, m: map<Name, Json>, path: seq<Seg>)
    requires path != [] && path[0] == Key(k)
    ensures WalkAll(One(k, m), path) == Walk(Obj(m), path[1..])
  {
    assert One(k, m)[1..] == [] && WalkAll([], path) == [];
    assert Walk(One(k, m)[0], path) == Walk(Obj(m), path[1..]);
    assert WalkAll(One(k, m), path) == Walk(One(k, m)[0], path) + [];
  }

  lemma {:induction false} MergeOneBelow(k: Name, m: map<Name, Json>, path: seq<Seg>, us: seq<Option<map<Name, Json>>>)
    requires path != [] && path[0] == Key(k) && |us| == |Walk(Obj(m), path[1..])|
    ensures |WalkAll(One(k, m), path)| == |us| && MergeList(One(k, m), path, us) == [Obj(map[k := Merge(Obj(m), path[1..], us)])]
  {
    WalkOne(k, m, path);
    var v := One(k, m)[0];
    assert One(k, m)[1..] == [] && us[..|us|] == us && WalkAll([], path) == [] && us[|us|..] == [];
    assert Walk(v, path) == Walk(Obj(m), path[1..]);
    assert v.fields[k := Merge(Obj(m), path[1..], us)] == map[k := Merge(Obj(m), path[1..], us)];
    assert MergeList(One(k, m), path, us) == [Merge(v, path, us)] + [];
  }

  /** The first fetch ends at the object, below a condition on its type, and
      leaves an object on which the second finds nothing. */
  lemma {:induction false} EarlierEnds(ft: Fetch, op: Operation, rv: Name, k: Name, m: map<Name, Json>, a: FetchNode, b: FetchNode,
                                       ra: map<Name, Json>, rb: map<Name, Json>, inner: map<Name, Json>, u: map<Name, Json>)
    requires a.path == [Key(k), TypeCond(a.cut.typeName)] && TypeNameOf(m) == Some(a.cut.typeName) && RepOf(m, a.cut) == Some(ra)
    requires b.path != [] && b.path[0] == Key(k) && Walk(Obj(m), b.path[1..]) == [inner] && RepOf(inner, b.cut) == Some(rb)
    requires FetchCut(ft, op, rv, [ra], a.cut).values == [Obj(u)] && FetchCut(ft, op, rv, [rb], b.cut).values != []
    requires Walk(Obj(m + u), b.path[1..]) == []
    ensures !Converged(ResolveNodes(ft, op, rv, One(k, m), [a, b]).problems)
  {
    var values := One(k, m);
    var p := a.path[1..];
    assert p == [TypeCond(a.cut.typeName)] && p[1..] == [] && Walk(Obj(m), p) == Walk(Obj(m), []) == [m];
    WalkOne(k, m, a.path);
    WalkOne(k, m, b.path);
    assert RepsAt(values, a) == [Some(ra)] && RepsAt(values, b) == [Some(rb)];
    var out := FetchCut(ft, op, rv, [ra], a.cut);
    assert [Some(ra)][1..] == [] && Present([Some(ra)]) == [ra];
    OneMerged(values, a, out, ra, u);
    MergeOneBelow(k, m, a.path, [Some(u)]);
    assert Merge(Obj(m), p, [Some(u)]) == Merge(Obj(m), [], [Some(u)]) == Obj(m + u);
    WalkOne(k, m + u, b.path);
    LaterMisses(ft, op, rv, values, One(k, m + u), a, b, rb);
  }

  // ----- plans on `U`

  /** A field of `U` that subgraph 0 leaves to subgraph 1. */
  predicate Foreign(f: Field) {
    !ENGINE.Local(0, "U", f) && ENGINE.Target("U", f) == 1
  }

  lemma {:induction false} OwnedBySecond(f: Field)
    requires f.name in ["e", "h"]
    ensures Foreign(f)
  {
    Letters();
    Owners(f.name);
    assert ENGINE.PickTarget("U", [1]) == Some(1);
  }

  const KEYED: seq<Sel> := [F(TypenameField), F(KeyField("i"))]

  lemma {:induction false} ForeignOnly(f: Field)
    requires Foreign(f)
    ensures Text(ENGINE, 0, "U", [F(f)]) == KEYED
    ensures Nodes(ENGINE, 0, "U", [F(f)]) == [CutNode(ENGINE, "U", Group(1, [f]))]
  {
    OneSel(F(f));
    OneCutKeys(f);
    assert Cuts(ENGINE, 0, "U", [F(f)]) == [f] + [];
    assert LocalText(ENGINE, 0, "U", [F(f)]) == [] + [];
    assert SelNodes(ENGINE, 0, "U", F(f)) == [] && LocalNodes(ENGINE, 0, "U", []) == [];
    assert LocalNodes(ENGINE, 0, "U", [F(f)]) == SelNodes(ENGINE, 0, "U", F(f)) + LocalNodes(ENGINE, 0, "U", [F(f)][1..]);
    assert ["i"][1..] == [] && KeyText(["i"]) == [F(KeyField("i"))] + [];
    CutNodesAt(ENGINE, "U", [Group(1, [f])]);
    assert CutNodes(ENGINE, "U", [Group(1, [f])]) == [CutNode(ENGINE, "U", Group(1, [f]))];
  }

  function Fetching(path: seq<Seg>, text: Field): FetchNode {
    FetchNode(path, Cut("U", 1, ["i"], [text], {}, []))
  }

  lemma {:induction false} LeafFetch(f: Field)
    requires f.sels == [] && f.args == [] && f.dirs == []
    ensures CutNode(ENGINE, "U", Group(1, [f])) == Fetching([], f)
  {
    assert [f][1..] == [] && Printed(ENGINE, 1, f) == f && PrintedAll(ENGINE, 1, [f]) == [f];
    assert FieldVars(f) == ArgsVars([]) + DirsVars([]) + SelsVars([]);
    assert FieldsVars([f]) == FieldVars(f) + {};
    assert FieldsNodes(ENGINE, 1, [f]) == [] + [];
    assert ENGINE.KeysOf("U", 1) == ["i"];
  }

  lemma PrefixOne(seg: Seg, n: FetchNode)
    ensures Prefix(seg, [n]) == [n.(path := [seg] + n.path)]
  {
    assert [n][1..] == [];
  }

  /** The fetch for `e` below a local field. */
  lemma {:induction false} HopNodes(f: Field)
    requires f.sels == [F(Leaf("e"))] && f.ty == "U"
    ensures FieldNodes(ENGINE, 0, f) == [Fetching([Key(f.Key())], Leaf("e"))]
    ensures Printed(ENGINE, 0, f).sels == KEYED
  {
    OwnedBySecond(Leaf("e"));
    ForeignOnly(Leaf("e"));
    LeafFetch(Leaf("e"));
    PrefixOne(Key(f.Key()), Fetching([], Leaf("e")));
    assert [Key(f.Key())] + [] == [Key(f.Key())];
  }

  // ----- what subgraph 0 answers about `U`

  lemma {:induction false} EvalLeaf(c: Ctx, o: Oid, fs: seq<Field>, f: Field)
    requires f in fs && f.sels == [] && forall g :: g in fs && g.Key() == f.Key() ==> g == f
    ensures f.Key() in EvalObj(c, o, fs) && EvalObj(c, o, fs)[f.Key()] == Complete(c, Resolve(c, o, f), [])
  {
    var hs := With(fs, f.Key());
    forall h | h in hs ensures h == f {
    }
    M.NoSelections(ENGINE, 0, hs);
    assert hs[0] in hs && f.Key() in Keys(fs);
  }

  lemma {:induction false} EvalBranch(c: Ctx, o: Oid, fs: seq<Field>, f: Field)
    requires With(fs, f.Key()) == [f] && f in fs
    ensures f.Key() in EvalObj(c, o, fs) && EvalObj(c, o, fs)[f.Key()] == Complete(c, Resolve(c, o, f), f.sels)
  {
    assert [f][1..] == [] && Subs([f]) == f.sels + Subs([]) && f.sels + [] == f.sels;
    assert f.Key() in Keys(fs);
  }

  /** The object shows its type and its key. */
  predicate Shows(m: map<Name, Json>) {
    TypeNameOf(m) == Some("U") && "g2__i" in m && m["g2__i"] == Str("x")
  }

  lemma {:induction false} KeyedShows(fs: seq<Field>)
    requires TypenameField in fs && KeyField("i") in fs
    requires forall g :: g in fs && g.Key() == TYPENAME ==> g == TypenameField
    requires forall g :: g in fs && g.Key() == "g2__i" ==> g == KeyField("i")
    ensures Shows(EvalObj(SubCtx(RUN, 0), 1, fs))
  {
    AliasedKeys();
    KeyResolved();
    EvalLeaf(SubCtx(RUN, 0), 1, fs, TypenameField);
    EvalLeaf(SubCtx(RUN, 0), 1, fs, KeyField("i"));
  }

  function Friend(): map<Name, Json> {
    EvalObj(SubCtx(RUN, 0), 1, [TypenameField, KeyField("i")])
  }

  lemma {:induction false} InnerShows()
    ensures Shows(Friend()) && Complete(SubCtx(RUN, 0), RRef(1), KEYED) == Obj(Friend())
  {
    AliasedKeys();
    Letters();
    KeyResolved();
    CollectTwo(SCHEMA.ps, "U", TypenameField, KeyField("i"));
    KeyedShows([TypenameField, KeyField("i")]);
  }

  // ----- { n { ... on U { __typename: e } ... on U { f { e } } } }

  const MASK := Field(Some(TYPENAME), "e", [], [], "ID", [])

  const MASKED := Branch("n", "N", [Frag("U", [], [F(MASK)]), Frag("U", [], [F(FRIEND)])])

  lemma {:induction false} MaskShape(name: Name -> Name)
    requires forall k :: name(k) == if k == TYPENAME then "e" else k
    ensures Typed(SCHEMA, "U", [F(MASK)]) && Plain(name, [F(MASK)]) && LeafCuts(ENGINE, 0, [F(MASK)])
    ensures Typed(SCHEMA, "U", [F(FRIEND)]) && Plain(name, [F(FRIEND)]) && LeafCuts(ENGINE, 0, [F(FRIEND)])
  {
    Letters();
    Types("U", "e");
    Types("U", "f");
    Kinds("ID");
    Kinds("U");
    OneSel(F(MASK));
    assert TypedSel(SCHEMA, "U", F(MASK)) && PlainSel(name, F(MASK)) && LeafCutsSel(ENGINE, 0, F(MASK));
    OneSel(F(Leaf("e")));
    LeafShape("U", "e");
    assert PlainSel(name, F(Leaf("e")));
    BranchShape("U", FRIEND, name);
    Owners("f");
    BranchCuts(0, FRIEND);
  }

  lemma {:induction false} MaskedFits(name: Name -> Name)
    requires forall k :: name(k) == if k == TYPENAME then "e" else k
    ensures Typed(SCHEMA, QUERY, [F(MASKED)]) && Plain(name, [F(MASKED)]) && !IsMeta("n") && LeafCuts(ENGINE, 0, MASKED.sels)
  {
    var x, y := MASKED.sels[0], MASKED.sels[1];
    MaskShape(name);
    Kinds("U");
    Kinds("N");
    Types(QUERY, "n");
    FragShape("N", x, name);
    FragShape("N", y, name);
    assert MASKED.sels == [x] + [y];
    assert name("n") == "n" by { Letters(); }
    BranchShape(QUERY, MASKED, name);
  }

  lemma {:induction false} BareSplits(rules: set<Rule>, f: Field)
    requires f.sels == []
    ensures Splits(rules, SUP, 0, "U", [F(f)])
  {
    Letters();
    Kinds("U");
    OneSel(F(f));
    assert SplitsSel(rules, SUP, 0, "U", F(f));
  }

  lemma {:induction false} FriendSplits(rules: set<Rule>)
    ensures Splits(rules, SUP, 0, "U", [F(FRIEND)])
  {
    Owners("f");
    EmailSplits(rules);
    BranchSplits(rules, 0, "U", FRIEND);
    OneSel(F(FRIEND));
  }

  lemma {:induction false} CondSplits(rules: set<Rule>, sub: seq<Sel>)
    requires Splits(rules, SUP, 0, "U", sub)
    ensures SplitsSel(rules, SUP, 0, "N", Frag("U", [], sub))
  {
    Kinds("U");
    assert SUP.Defines(0, "U");
  }

  lemma {:induction false} PairSplits(rules: set<Rule>, x: Sel, y: Sel)
    requires SplitsSel(rules, SUP, 0, "N", x) && SplitsSel(rules, SUP, 0, "N", y)
    ensures Splits(rules, SUP, 0, "N", [x, y])
  {
    assert forall z :: z in [x, y] ==> z == x || z == y;
  }

  lemma {:induction false} MaskedSplits()
    ensures Splits(ALL - {ClientKeys}, SUP, 0, "N", MASKED.sels)
  {
    var rules := ALL - {ClientKeys};
    BareSplits(rules, MASK);
    FriendSplits(rules);
    CondSplits(rules, [F(MASK)]);
    CondSplits(rules, [F(FRIEND)]);
    PairSplits(rules, MASKED.sels[0], MASKED.sels[1]);
  }

  lemma OwnedByFirst()
    ensures RootOwner(ENGINE, "n") == Some(0)
  {
    Letters();
  }

  // the plan

  lemma {:induction false} LocalOnly(sg: nat, f: Field)
    requires ENGINE.Local(sg, "U", f)
    ensures Nodes(ENGINE, sg, "U", [F(f)]) == FieldNodes(ENGINE, sg, f)
    ensures Text(ENGINE, sg, "U", [F(f)]) == [F(TypenameField), F(Printed(ENGINE, sg, f))]
  {
    OneSel(F(f));
    assert Cuts(ENGINE, sg, "U", [F(f)]) == [] && Groups(ENGINE, "U", []) == [] && KeyText(InjectedKeys(ENGINE, "U", [], {})) == [];
    assert LocalNodes(ENGINE, sg, "U", [F(f)]) == FieldNodes(ENGINE, sg, f) + [];
    assert LocalText(ENGINE, sg, "U", [F(f)]) == [F(Printed(ENGINE, sg, f))] + [];
  }

  lemma {:induction false} FriendLocal()
    ensures Nodes(ENGINE, 0, "U", [F(FRIEND)]) == [Fetching([Key("f")], Leaf("e"))]
    ensures Text(ENGINE, 0, "U", [F(FRIEND)]) == [F(TypenameField), F(Printed(ENGINE, 0, FRIEND))]
  {
    Owners("f");
    HopNodes(FRIEND);
    LocalOnly(0, FRIEND);
  }

  /** Two selections on a type that is no entity, so none is cut there. */
  lemma {:induction false} UncutPair(e: Engine, sg: nat, p: Name, x: Sel, y: Sel)
    requires !e.IsEntity(p)
    ensures Nodes(e, sg, p, [x, y]) == SelNodes(e, sg, p, x) + SelNodes(e, sg, p, y)
    ensures Text(e, sg, p, [x, y]) == [F(TypenameField)] + SelText(e, sg, p, x) + SelText(e, sg, p, y)
  {
    CutsNeedEntity(e, sg, p, [x, y]);
    assert [x, y][1..] == [y] && [y][1..] == [];
    assert LocalNodes(e, sg, p, [y]) == SelNodes(e, sg, p, y) + [];
    assert LocalText(e, sg, p, [y]) == SelText(e, sg, p, y) + [];
    assert LocalNodes(e, sg, p, [x, y]) == SelNodes(e, sg, p, x) + LocalNodes(e, sg, p, [y]);
    assert LocalText(e, sg, p, [x, y]) == SelText(e, sg, p, x) + LocalText(e, sg, p, [y]);
    assert Groups(e, p, []) == [] && KeyText(InjectedKeys(e, p, [], {})) == [];
  }

  lemma NotEntity()
    ensures !ENGINE.IsEntity("N") && "N" != "U"
  {
    Letters();
  }

  lemma {:induction false} CondFetch(sub: seq<Sel>, n: FetchNode)
    requires Nodes(ENGINE, 0, "U", sub) == [n]
    ensures SelNodes(ENGINE, 0, "N", Frag("U", [], sub)) == [n.(path := [TypeCond("U")] + n.path)]
  {
    NotEntity();
    PrefixOne(TypeCond("U"), n);
  }

  /** The fetches of a field with two selections on no entity. */
  lemma {:induction false} TwoNodes(e: Engine, sg: nat, f: Field, x: Sel, y: Sel, a: FetchNode, b: FetchNode)
    requires f.sels == [x, y] && !e.IsEntity(f.ty) && SelNodes(e, sg, f.ty, x) == [a] && SelNodes(e, sg, f.ty, y) == [b]
    ensures FieldsNodes(e, sg, [f]) == [a.(path := [Key(f.Key())] + a.path), b.(path := [Key(f.Key())] + b.path)]
  {
    UncutPair(e, sg, f.ty, x, y);
    PrefixAppend(Key(f.Key()), [a], [b]);
    PrefixOne(Key(f.Key()), a);
    PrefixOne(Key(f.Key()), b);
    assert Nodes(e, sg, f.ty, f.sels) == [a] + [b];
    assert [f][1..] == [] && FieldsNodes(e, sg, [f]) == Prefix(Key(f.Key()), [a] + [b]) + [];
  }

  const ENDS := Fetching([Key("n"), TypeCond("U")], MASK)
  const PASSES := Fetching([Key("n"), TypeCond("U"), Key("f")], Leaf("e"))

  lemma {:induction false} MaskedNodes()
    ensures FieldsNodes(ENGINE, 0, [MASKED]) == [ENDS, PASSES]
  {
    OwnedBySecond(MASK);
    ForeignOnly(MASK);
    LeafFetch(MASK);
    FriendLocal();
    CondFetch([F(MASK)], Fetching([], MASK));
    CondFetch([F(FRIEND)], Fetching([Key("f")], Leaf("e")));
    MaskedPaths();
    NotEntity();
    TwoNodes(ENGINE, 0, MASKED, MASKED.sels[0], MASKED.sels[1], Fetching([TypeCond("U")], MASK), Fetching([TypeCond("U"), Key("f")], Leaf("e")));
  }

  lemma MaskedPaths()
    ensures [TypeCond("U")] + [] == [TypeCond("U")] && [TypeCond("U")] + [Key("f")] == [TypeCond("U"), Key("f")]
    ensures [Key("n")] + [TypeCond("U")] == ENDS.path && [Key("n")] + [TypeCond("U"), Key("f")] == PASSES.path
  {
  }

  // subgraph 0's reply

  /** The text of two conditions on `U`. */
  lemma {:induction false} CondsText(e: Engine, sg: nat, p: Name, cond: Name, a: seq<Sel>, b: seq<Sel>)
    requires !e.IsEntity(p)
    ensures Text(e, sg, p, [Frag(cond, [], a), Frag(cond, [], b)]) ==
            [F(TypenameField), Frag(cond, [], Text(e, sg, cond, a)), Frag(cond, [], Text(e, sg, cond, b))]
  {
    UncutPair(e, sg, p, Frag(cond, [], a), Frag(cond, [], b));
  }

  lemma {:induction false} MaskedText()
    ensures Printed(ENGINE, 0, MASKED).sels ==
            [F(TypenameField), Frag("U", [], KEYED), Frag("U", [], [F(TypenameField), F(Printed(ENGINE, 0, FRIEND))])]
  {
    OwnedBySecond(MASK);
    ForeignOnly(MASK);
    FriendLocal();
    NotEntity();
    CondsText(ENGINE, 0, "N", "U", [F(MASK)], [F(FRIEND)]);
  }

  const SHOWN: seq<Field> := [TypenameField, TypenameField, KeyField("i"), TypenameField, Printed(ENGINE, 0, FRIEND)]

  lemma {:induction false} CondsCollect(ps: Poss, t: Name, f: Field, cond: Name, a: seq<Sel>, b: seq<Sel>)
    requires Applies(ps, t, cond)
    ensures Collect(ps, t, [F(f), Frag(cond, [], a), Frag(cond, [], b)]) == [f] + Collect(ps, t, a) + Collect(ps, t, b)
  {
    FragCollect(ps, t, cond, [], b);
    CollectAround(ps, t, f, cond, a, [Frag(cond, [], b)]);
    assert [F(f), Frag(cond, [], a), Frag(cond, [], b)] == [F(f), Frag(cond, [], a)] + [Frag(cond, [], b)];
  }

  lemma {:induction false} MaskedCollect()
    ensures Collect(SCHEMA.ps, "U", Printed(ENGINE, 0, MASKED).sels) == SHOWN
  {
    var g := Printed(ENGINE, 0, FRIEND);
    MaskedText();
    InN();
    CollectTwo(SCHEMA.ps, "U", TypenameField, KeyField("i"));
    CollectTwo(SCHEMA.ps, "U", TypenameField, g);
    CondsCollect(SCHEMA.ps, "U", TypenameField, "U", KEYED, [F(TypenameField), F(g)]);
  }

  function Masked(): map<Name, Json> {
    EvalObj(SubCtx(RUN, 0), 1, SHOWN)
  }

  lemma {:induction false} OuterKeys()
    ensures TypenameField.Key() == TYPENAME && KeyField("i").Key() == "g2__i" && Printed(ENGINE, 0, FRIEND).Key() == "f"
    ensures TYPENAME != "g2__i" && TYPENAME != "f" && "g2__i" != "f"
  {
    AliasedKeys();
    Letters();
  }

  lemma NoneWith(fs: seq<Field>, k: Name)
    requires forall f :: f in fs ==> f.Key() != k
    ensures With(fs, k) == []
  {
    if With(fs, k) != [] {
      assert With(fs, k)[0] in With(fs, k);
    }
  }

  lemma {:induction false} ShownWith()
    ensures With(SHOWN, "f") == [Printed(ENGINE, 0, FRIEND)]
  {
    var g := Printed(ENGINE, 0, FRIEND);
    var rest := [TypenameField, TypenameField, KeyField("i"), TypenameField];
    OuterKeys();
    NoneWith(rest, "f");
    CollectOne(SCHEMA.ps, "U", g);
    WithAppend(rest, [g], "f");
    assert SHOWN == rest + [g];
  }

  lemma {:induction false} ShowsBeside(g: Field)
    requires g.Key() != TYPENAME && g.Key() != "g2__i"
    ensures Shows(EvalObj(SubCtx(RUN, 0), 1, [TypenameField, TypenameField, KeyField("i"), TypenameField, g]))
  {
    var fs := [TypenameField, TypenameField, KeyField("i"), TypenameField, g];
    OuterKeys();
    assert fs[0] in fs && fs[2] in fs;
    forall h | h in fs ensures h == TypenameField || h == KeyField("i") || h == g {
    }
    KeyedShows(fs);
  }

  lemma {:induction false} MaskedKeyed()
    ensures Shows(Masked())
  {
    OuterKeys();
    ShowsBeside(Printed(ENGINE, 0, FRIEND));
  }

  lemma {:induction false} MaskedFriend()
    ensures "f" in Masked() && Masked()["f"] == Complete(SubCtx(RUN, 0), RRef(1), KEYED)
  {
    var g := Printed(ENGINE, 0, FRIEND);
    OuterKeys();
    assert SHOWN[4] in SHOWN;
    ShownWith();
    EvalBranch(SubCtx(RUN, 0), 1, SHOWN, g);
    FriendResolved();
    HopNodes(FRIEND);
  }

  lemma {:induction false} OuterShows()
    ensures Shows(Masked()) && "f" in Masked() && Masked()["f"] == Obj(Friend())
  {
    MaskedKeyed();
    MaskedFriend();
    InnerShows();
  }

  // subgraph 0 accepts the text

  lemma {:induction false} TypenameValid(p: Name)
    ensures WellFormedSel(SUP, 0, p, F(TypenameField))
  {
    assert IsMeta(TYPENAME);
  }

  lemma {:induction false} KeyedValid()
    ensures WellFormed(SUP, 0, "U", KEYED)
  {
    Letters();
    Fields("U", "i");
    Types("U", "i");
    Kinds("ID");
    TypenameValid("U");
    PairValid("U", F(TypenameField), F(KeyField("i")));
  }

  lemma {:induction false} BranchValid(p: Name, f: Field)
    requires SUP.Declares(0, p, f.name) && !IsMeta(f.name) && HasField(p, f.name) && f.sels != []
    requires SCHEMA.Composite(SCHEMA.fieldTy[(p, f.name)]) && WellFormed(SUP, 0, SCHEMA.fieldTy[(p, f.name)], f.sels)
    ensures WellFormedSel(SUP, 0, p, F(f))
  {
    Types(p, f.name);
  }

  lemma PairValid(p: Name, x: Sel, y: Sel)
    requires WellFormedSel(SUP, 0, p, x) && WellFormedSel(SUP, 0, p, y)
    ensures WellFormed(SUP, 0, p, [x, y])
  {
    assert forall z :: z in [x, y] ==> z == x || z == y;
  }

  lemma {:induction false} FriendValid()
    ensures WellFormed(SUP, 0, "U", [F(TypenameField), F(Printed(ENGINE, 0, FRIEND))])
  {
    var g := Printed(ENGINE, 0, FRIEND);
    HopNodes(FRIEND);
    KeyedValid();
    FriendTypes();
    BranchValid("U", g);
    TypenameValid("U");
    PairValid("U", F(TypenameField), F(g));
  }

  lemma {:induction false} FriendTypes()
    ensures SUP.Declares(0, "U", "f") && !IsMeta("f") && HasField("U", "f") && SCHEMA.fieldTy[("U", "f")] == "U" && SCHEMA.Composite("U")
    ensures SUP.Declares(0, QUERY, "n") && !IsMeta("n") && HasField(QUERY, "n") && SCHEMA.fieldTy[(QUERY, "n")] == "N" && SCHEMA.Composite("N")
  {
    Letters();
    Fields("U", "f");
    Fields(QUERY, "n");
    Types("U", "f");
    Types(QUERY, "n");
    Kinds("U");
    Kinds("N");
  }

  lemma {:induction false} MaskedValid()
    ensures WellFormedSel(SUP, 0, QUERY, F(Printed(ENGINE, 0, MASKED)))
  {
    var g := Printed(ENGINE, 0, MASKED);
    MaskedText();
    KeyedValid();
    FriendValid();
    TypenameValid("N");
    CondValid(KEYED);
    CondValid([F(TypenameField), F(Printed(ENGINE, 0, FRIEND))]);
    assert forall x :: x in g.sels ==> x == g.sels[0] || x == g.sels[1] || x == g.sels[2];
    FriendTypes();
    BranchValid(QUERY, g);
  }

  lemma {:induction false} CondValid(sub: seq<Sel>)
    requires WellFormed(SUP, 0, "U", sub)
    ensures WellFormedSel(SUP, 0, "N", Frag("U", [], sub))
  {
    assert SUP.Defines(0, "U");
  }

  lemma {:induction false} PlainPair(name: Name -> Name, x: Sel, y: Sel)
    requires PlainSel(name, x) && PlainSel(name, y)
    ensures Plain(name, [x, y])
  {
    assert forall z :: z in [x, y] ==> z == x || z == y;
  }

  lemma {:induction false} CondPlain(name: Name -> Name, sub: seq<Sel>)
    requires Plain(name, sub)
    ensures PlainSel(name, Frag("U", [], sub))
  {
  }

  lemma {:induction false} FriendPlain(name: Name -> Name)
    requires forall k :: name(k) == if k == "g2__i" then "i" else k
    ensures Plain(name, KEYED) && PlainSel(name, F(Printed(ENGINE, 0, FRIEND))) && PlainSel(name, F(TypenameField))
  {
    OuterKeys();
    HopNodes(FRIEND);
    PlainPair(name, F(TypenameField), F(KeyField("i")));
  }

  lemma {:induction false} PlainThree(name: Name -> Name, x: Sel, y: Sel, z: Sel)
    requires PlainSel(name, x) && PlainSel(name, y) && PlainSel(name, z)
    ensures Plain(name, [x, y, z])
  {
    assert forall w :: w in [x, y, z] ==> w == x || w == y || w == z;
  }

  lemma {:induction false} MaskedPlain(name: Name -> Name)
    requires forall k :: name(k) == if k == "g2__i" then "i" else k
    ensures PlainSel(name, F(Printed(ENGINE, 0, MASKED)))
  {
    var h := Printed(ENGINE, 0, FRIEND);
    FriendPlain(name);
    PlainPair(name, F(TypenameField), F(h));
    CondPlain(name, KEYED);
    CondPlain(name, [F(TypenameField), F(h)]);
    PlainThree(name, F(TypenameField), Frag("U", [], KEYED), Frag("U", [], [F(TypenameField), F(h)]));
    MaskedText();
    assert "n" != "g2__i" by { Letters(); }
  }

  /** A plain field merges with itself and uses no variables. */
  lemma {:induction false} PlainAlone(name: Name -> Name, f: Field)
    requires PlainSel(name, F(f))
    ensures SameKeyMergeable(SCHEMA.ps, [f]) && FieldsVars([f]) == {}
  {
    assert Plain(name, f.sels + f.sels);
    PlainMerge(name, SCHEMA.ps, f.sels + f.sels);
    assert Mergeable(SCHEMA.ps, f, f);
    OneSel(F(f));
    PlainVars(name, [F(f)]);
    assert [f][1..] == [] && SelsVars([F(f)]) == FieldVars(f) + {};
  }

  lemma {:induction false} MaskedAccepted()
    ensures var text := [Printed(ENGINE, 0, MASKED)];
            WellFormedFields(SUP, 0, QUERY, text) && SameKeyMergeable(SCHEMA.ps, text) && FieldsVars(text) == {}
  {
    var name: Name -> Name := k => if k == "g2__i" then "i" else k;
    MaskedValid();
    MaskedPlain(name);
    PlainAlone(name, Printed(ENGINE, 0, MASKED));
  }

  lemma {:induction false} MaskedEval()
    ensures EvalObj(SubCtx(RUN, 0), 0, [Printed(ENGINE, 0, MASKED)]) == map["n" := Obj(Masked())]
  {
    var g := Printed(ENGINE, 0, MASKED);
    EvalOne(SubCtx(RUN, 0), 0, g);
    OwnedByFirst();
    RootAnswer(g, 0);
    FriendResolved();
    MaskedCollect();
  }

  lemma {:induction false} RootServes(ft: Fetch, f: Field)
    requires Served(ft, SUP, STORE, 0)
    requires WellFormedSel(SUP, 0, QUERY, F(Printed(ENGINE, 0, f))) && SameKeyMergeable(SCHEMA.ps, [Printed(ENGINE, 0, f)])
    requires FieldsVars([Printed(ENGINE, 0, f)]) == {}
    ensures ft(RootRequest(OP, 0, PrintedAll(ENGINE, 0, [f]))) == Answer(Some(EvalObj(SubCtx(RUN, 0), 0, [Printed(ENGINE, 0, f)])), 0)
  {
    assert [f][1..] == [] && PrintedAll(ENGINE, 0, [f]) == [Printed(ENGINE, 0, f)];
    OpFacts();
    RootServed(RUN, 0, OP, 0, [Printed(ENGINE, 0, f)]);
  }

  lemma {:induction false} MaskedReply(ft: Fetch)
    requires Served(ft, SUP, STORE, 0)
    ensures ft(RootRequest(OP, 0, PrintedAll(ENGINE, 0, [MASKED]))) == Answer(Some(map["n" := Obj(Masked())]), 0)
  {
    MaskedAccepted();
    assert Printed(ENGINE, 0, MASKED) in [Printed(ENGINE, 0, MASKED)];
    RootServes(ft, MASKED);
    MaskedEval();
  }

  // subgraph 1's replies

  lemma {:induction false} LeafOk(f: Field)
    requires f.name == "e" && f.sels == [] && f.args == [] && f.dirs == []
    ensures CutOk(SUP, {}, Fetching([], f).cut)
  {
    Letters();
    Fields("U", "e");
    Types("U", "e");
    Kinds("ID");
    assert WellFormedSel(SUP, 1, "U", F(f));
    OneField(f);
    assert ENGINE.KeysOf("U", 1) == ["i"];
  }

  lemma {:induction false} OneField(f: Field)
    requires f.sels == [] && f.args == [] && f.dirs == []
    ensures SameKeyMergeable(SCHEMA.ps, [f]) && FieldsVars([f]) == {}
  {
    var name: Name -> Name := k => f.name;
    assert Plain(name, []);
    PlainAlone(name, f);
  }

  lemma {:induction false} LeafReply(ft: Fetch, f: Field)
    requires Served(ft, SUP, STORE, 0) && f.name == "e" && f.sels == [] && f.args == [] && f.dirs == []
    ensures FetchCut(ft, OP, REPS_VAR, [REP], Fetching([], f).cut).values == [Obj(map[f.Key() := Str("x")])]
  {
    var cut := Fetching([], f).cut;
    LeafOk(f);
    OpFacts();
    CutServed(RUN, 0, OP, REPS_VAR, cut, [REP]);
    Found();
    EmailResolved(f);
    EvalOne(SubCtx(RUN, 1), 1, f);
    OneRaw(RUN, cut, REP);
    FetchOne(ft, OP, REPS_VAR, REP, cut, Obj(map[f.Key() := Str("x")]));
  }

  lemma {:induction false} EmailResolved(f: Field)
    requires f.name == "e"
    ensures Resolve(SubCtx(RUN, 1), 1, f) == RLeaf(Str("x"))
  {
    Letters();
    Fields("U", "e");
    Owners("e");
    assert CanResolve(SUP, 1, "U", "e");
  }

  /** What the client's query and faithful subgraphs make of it: the first
      fetch replaces `__typename`, and the walk of the second finds nothing. */
  lemma {:induction false} TypenameReplaced(ft: Fetch)
    requires Served(ft, SUP, STORE, 0)
    ensures Setting(ALL - {ClientKeys}, RUN, 0, ft, OP, REPS_VAR, [F(MASKED)])
    ensures var reply := ft(RootRequest(OP, 0, PrintedAll(ENGINE, 0, [MASKED])));
            && reply.Answer? && reply.data.Some? && reply.errors == 0
            && !Converged(ResolveNodes(ft, OP, REPS_VAR, [Obj(reply.data.value)], FieldsNodes(ENGINE, 0, [MASKED])).problems)
  {
    var name: Name -> Name := k => if k == TYPENAME then "e" else k;
    MaskedFits(name);
    MaskedSplits();
    OwnedByFirst();
    OneRoot(ALL - {ClientKeys}, name, ft, MASKED, 0);
    MaskedReply(ft);
    MaskedNodes();
    MaskedRun(ft);
  }

  lemma {:induction false} MaskedRun(ft: Fetch)
    requires Served(ft, SUP, STORE, 0)
    ensures !Converged(ResolveNodes(ft, OP, REPS_VAR, [Obj(map["n" := Obj(Masked())])], [ENDS, PASSES]).problems)
  {
    OuterShows();
    InnerShows();
    LeafReply(ft, MASK);
    LeafReply(ft, Leaf("e"));
    KeyedRep(Masked(), ENDS.cut);
    KeyedRep(Friend(), PASSES.cut);
    MaskedWalk(Masked(), Friend());
    EarlierEnds(ft, OP, REPS_VAR, "n", Masked(), ENDS, PASSES, REP, REP, Friend(), map[TYPENAME := Str("x")]);
  }

  lemma {:induction false} MaskedWalk(m: map<Name, Json>, inner: map<Name, Json>)
    requires TypeNameOf(m) == Some("U") && "f" in m && m["f"] == Obj(inner)
    ensures Walk(Obj(m), PASSES.path[1..]) == [inner]
    ensures Walk(Obj(m + map[TYPENAME := Str("x")]), PASSES.path[1..]) == []
  {
    assert PASSES.path[1..] == [TypeCond("U"), Key("f")] && [TypeCond("U"), Key("f")][1..] == [Key("f")] && [Key("f")][1..] == [];
    assert "x"[0] == 'x' && "U"[0] == 'U';
    assert Walk(Obj(inner), []) == [inner];
  }

  // ----- { n { ... on U { h { e } } h { e } } }, where h of U is subgraph 1's

  const HOP := Branch("h", "U", [F(Leaf("e"))])

  const CROSSED := Branch("n", "N", [Frag("U", [], [F(HOP)]), F(HOP)])

  lemma {:induction false} HopShape()
    ensures Typed(SCHEMA, "U", [F(HOP)]) && Typed(SCHEMA, "N", [F(HOP)]) && Clean([F(HOP)]) && Plain(SAME, [F(HOP)])
  {
    Types("U", "e");
    Types("U", "h");
    Types("N", "h");
    Kinds("U");
    LeafShape("U", "e");
    BranchShape("U", HOP, SAME);
    BranchShape("N", HOP, SAME);
  }

  lemma {:induction false} CrossedFits()
    ensures Typed(SCHEMA, QUERY, [F(CROSSED)]) && Clean([F(CROSSED)]) && Plain(SAME, [F(CROSSED)]) && !IsMeta("n")
  {
    var x, y := CROSSED.sels[0], CROSSED.sels[1];
    HopShape();
    Kinds("U");
    Kinds("N");
    Types(QUERY, "n");
    FragShape("N", x, SAME);
    assert CROSSED.sels == [x] + [y];
    BranchShape(QUERY, CROSSED, SAME);
  }

  lemma {:induction false} HopSplits(rules: set<Rule>)
    requires ThroughAbstract !in rules
    ensures Splits(rules, SUP, 0, "U", [F(HOP)]) && SplitsSel(rules, SUP, 0, "N", F(HOP))
  {
    EmailSplits(rules);
    SecondSplits(rules);
    OwnedBySecond(HOP);
    OneSel(F(HOP));
    Letters();
    Kinds("N");
    assert ENGINE.Local(0, "N", HOP);
    assert SplitsSel(rules, SUP, 0, "U", F(HOP));
  }

  lemma {:induction false} SecondSplits(rules: set<Rule>)
    ensures Splits(rules, SUP, 1, "U", [F(Leaf("e"))])
  {
    OneSel(F(Leaf("e")));
    LeafSplits(rules, 1, "U", "e");
  }

  lemma {:induction false} CrossedSplits()
    ensures Splits(ALL - {ThroughAbstract}, SUP, 0, "N", CROSSED.sels)
  {
    var rules := ALL - {ThroughAbstract};
    HopSplits(rules);
    CondSplits(rules, [F(HOP)]);
    PairSplits(rules, CROSSED.sels[0], CROSSED.sels[1]);
  }

  // `h` is cut once

  lemma {:induction false} CrossedSubs()
    ensures Collect(SCHEMA.ps, "U", Subs([CROSSED])) == [HOP, HOP]
  {
    var x, y := CROSSED.sels[0], CROSSED.sels[1];
    assert [CROSSED][1..] == [] && Subs([CROSSED]) == CROSSED.sels + Subs([]) && CROSSED.sels + [] == CROSSED.sels;
    InN();
    CollectOne(SCHEMA.ps, "U", HOP);
    FragCollect(SCHEMA.ps, "U", "U", [], [F(HOP)]);
    CollectAppend(SCHEMA.ps, "U", [x], [y]);
    assert CROSSED.sels == [x] + [y];
  }

  lemma {:induction false} HopGroups()
    ensures OwnGroups(ENGINE, SCHEMA.ps, 0, "U", "U", [F(HOP)]) == [Group(1, [HOP])]
  {
    OwnedBySecond(HOP);
    OneSel(F(HOP));
    OneCutKeys(HOP);
    assert Cuts(ENGINE, 0, "U", [F(HOP)]) == [HOP] + [];
    assert OwnLocal(ENGINE, SCHEMA.ps, 0, "U", [F(HOP)]) == [];
  }

  /** The groups of a condition on `U` and a field of `N`. */
  lemma {:induction false} PairGroups(sub: seq<Sel>, f: Field)
    ensures OwnGroups(ENGINE, SCHEMA.ps, 0, "U", "N", [Frag("U", [], sub), F(f)]) == OwnGroups(ENGINE, SCHEMA.ps, 0, "U", "U", sub)
  {
    var x, y := Frag("U", [], sub), F(f);
    InN();
    Letters();
    CutsNeedEntity(ENGINE, 0, "N", [x, y]);
    assert [x, y][1..] == [y] && [y][1..] == [];
    assert OwnLocal(ENGINE, SCHEMA.ps, 0, "U", [y]) == [];
    assert OwnLocal(ENGINE, SCHEMA.ps, 0, "U", [x, y]) == OwnGroups(ENGINE, SCHEMA.ps, 0, "U", "U", sub) + [];
    assert Groups(ENGINE, "N", []) == [];
  }

  lemma {:induction false} CrossedGroups()
    ensures AllGroups(ENGINE, SCHEMA.ps, 0, "U", [CROSSED]) == [Group(1, [HOP])]
  {
    HopGroups();
    PairGroups([F(HOP)], HOP);
    assert [CROSSED][1..] == [] && AllGroups(ENGINE, SCHEMA.ps, 0, "U", [CROSSED]) == [Group(1, [HOP])] + [];
  }

  lemma {:induction false} CrossedOnce()
    ensures SingleCutFields(SUP, 0, [CROSSED])
  {
    forall k ensures SingleCut(SUP, 0, With([CROSSED], k)) {
      CollectOne(SCHEMA.ps, "U", CROSSED);
      CrossedCut();
    }
  }

  lemma {:induction false} CrossedCut()
    ensures SingleCut(SUP, 0, [CROSSED])
  {
    forall t | PossibleFor(SUP, 0, [CROSSED], t)
      ensures CutOnce(AllGroups(ENGINE, SCHEMA.ps, 0, t, [CROSSED]))
      ensures forall k :: SingleCut(SUP, 0, LocalsWith(SUP, 0, t, Subs([CROSSED]), k))
      ensures forall g :: g in AllGroups(ENGINE, SCHEMA.ps, 0, t, [CROSSED]) ==> SingleCutFields(SUP, g.target, g.fields)
    {
      Kinds("N");
      assert CROSSED in [CROSSED] && t == "U";
      CrossedGroups();
      OwnedBySecond(HOP);
      NoLocalHop();
      HopOnce();
    }
  }

  lemma {:induction false} NoLocalHop()
    ensures forall k :: LocalsWith(SUP, 0, "U", Subs([CROSSED]), k) == []
  {
    CrossedSubs();
    OwnedBySecond(HOP);
    forall k ensures LocalsWith(SUP, 0, "U", Subs([CROSSED]), k) == [] {
      NoneLocal(With([HOP, HOP], k));
    }
  }

  lemma {:induction false} HopOnce()
    ensures SingleCutFields(SUP, 1, [HOP])
  {
    Types("U", "e");
    LeafShape("U", "e");
    forall k ensures SingleCut(SUP, 1, With([HOP], k)) {
      LeafCutsOnce(SUP, 1, With([HOP], k));
    }
  }

  // the plan

  const BRINGS := Fetching([Key("n"), TypeCond("U")], Printed(ENGINE, 1, HOP))
  const CROSSES := Fetching([Key("n"), Key("h")], Leaf("e"))

  lemma {:induction false} SecondText()
    ensures Printed(ENGINE, 1, HOP).sels == [F(TypenameField), F(Leaf("e"))] && Nodes(ENGINE, 1, "U", [F(Leaf("e"))]) == []
  {
    Owners("e");
    LocalOnly(1, Leaf("e"));
  }

  lemma {:induction false} HopFetch()
    ensures CutNode(ENGINE, "U", Group(1, [HOP])) == Fetching([], Printed(ENGINE, 1, HOP))
  {
    var g := Printed(ENGINE, 1, HOP);
    SecondText();
    assert [HOP][1..] == [] && PrintedAll(ENGINE, 1, [HOP]) == [g];
    assert FieldsNodes(ENGINE, 1, [HOP]) == [] + [];
    assert ENGINE.KeysOf("U", 1) == ["i"];
    HopVars();
  }

  lemma {:induction false} HopVars()
    ensures FieldsVars([Printed(ENGINE, 1, HOP)]) == {}
  {
    SecondText();
    PlainPair(SAME, F(TypenameField), F(Leaf("e")));
    assert PlainSel(SAME, F(Printed(ENGINE, 1, HOP)));
    PlainAlone(SAME, Printed(ENGINE, 1, HOP));
  }

  lemma {:induction false} HopUnderCond()
    ensures SelNodes(ENGINE, 0, "N", CROSSED.sels[0]) == [Fetching([TypeCond("U")], Printed(ENGINE, 1, HOP))]
  {
    OwnedBySecond(HOP);
    ForeignOnly(HOP);
    HopFetch();
    CondFetch([F(HOP)], Fetching([], Printed(ENGINE, 1, HOP)));
    CrossedPaths();
  }

  lemma {:induction false} HopOnInterface()
    ensures SelNodes(ENGINE, 0, "N", CROSSED.sels[1]) == [Fetching([Key("h")], Leaf("e"))]
  {
    NotEntity();
    HopNodes(HOP);
  }

  lemma {:induction false} CrossedNodes()
    ensures FieldsNodes(ENGINE, 0, [CROSSED]) == [BRINGS, CROSSES]
  {
    HopUnderCond();
    HopOnInterface();
    CrossedPaths();
    NotEntity();
    TwoNodes(ENGINE, 0, CROSSED, CROSSED.sels[0], CROSSED.sels[1], Fetching([TypeCond("U")], Printed(ENGINE, 1, HOP)), Fetching([Key("h")], Leaf("e")));
  }

  lemma CrossedPaths()
    ensures [TypeCond("U")] + [] == [TypeCond("U")]
    ensures [Key("n")] + [TypeCond("U")] == BRINGS.path && [Key("n")] + [Key("h")] == CROSSES.path
  {
  }

  // replies in the shape of their requests: subgraph 0 has a value for `h`

  const HELD: map<Name, Json> := map[TYPENAME := Str("U"), "g2__i" := Str("x")]

  const HOLDER: map<Name, Json> := HELD["h" := Obj(HELD)]

  function ExternalReplies(req: Request): Reply {
    if req == RootRequest(OP, 0, PrintedAll(ENGINE, 0, [CROSSED])) then Answer(Some(map["n" := Obj(HOLDER)]), 0)
    else if req == EntityRequest(OP, REPS_VAR, BRINGS.cut, [REP]) then Answer(Some(map["_entities" := Arr([Obj(map["h" := Null])])]), 0)
    else if req == EntityRequest(OP, REPS_VAR, CROSSES.cut, [REP]) then Answer(Some(map["_entities" := Arr([Null])]), 0)
    else Failed
  }

  /** The text of a condition on `U` and a field of `N`. */
  lemma {:induction false} PairText(e: Engine, sg: nat, p: Name, cond: Name, sub: seq<Sel>, f: Field)
    requires !e.IsEntity(p)
    ensures Text(e, sg, p, [Frag(cond, [], sub), F(f)]) ==
            [F(TypenameField), Frag(cond, [], Text(e, sg, cond, sub))] + [F(Printed(e, sg, f))]
  {
    UncutPair(e, sg, p, Frag(cond, [], sub), F(f));
  }

  lemma {:induction false} CrossedText()
    ensures Printed(ENGINE, 0, CROSSED).sels == [F(TypenameField), Frag("U", [], KEYED)] + [F(Printed(ENGINE, 0, HOP))]
  {
    OwnedBySecond(HOP);
    ForeignOnly(HOP);
    NotEntity();
    PairText(ENGINE, 0, "N", "U", [F(HOP)], HOP);
  }

  lemma {:induction false} CrossedCollect()
    ensures Collect(SCHEMA.ps, "U", Printed(ENGINE, 0, CROSSED).sels) == [TypenameField, TypenameField, KeyField("i"), Printed(ENGINE, 0, HOP)]
  {
    CrossedText();
    InN();
    CollectTwo(SCHEMA.ps, "U", TypenameField, KeyField("i"));
    CollectOne(SCHEMA.ps, "U", Printed(ENGINE, 0, HOP));
    CollectAround(SCHEMA.ps, "U", TypenameField, "U", KEYED, [F(Printed(ENGINE, 0, HOP))]);
  }

  /** `HELD` where the key and the type name are selected. */
  lemma {:induction false} HeldShaped(fs: seq<Field>, k: Name)
    requires k in HELD && {TYPENAME, "g2__i"} <= Keys(fs)
    ensures ShapedMember(SUP, 0, "U", fs, k, HELD[k])
  {
  }

  lemma {:induction false} HopShaped()
    ensures Shaped(SUP, 0, "U", KEYED, Obj(HELD))
  {
    AliasedKeys();
    Kinds("U");
    CollectTwo(SCHEMA.ps, "U", TypenameField, KeyField("i"));
    var fs := [TypenameField, KeyField("i")];
    assert fs[0] in fs && fs[1] in fs;
    assert fs[0].Key() in Keys(fs) && fs[1].Key() in Keys(fs);
    forall k | k in HELD ensures ShapedMember(SUP, 0, "U", fs, k, HELD[k]) {
      HeldShaped(fs, k);
    }
    HeldTyped();
  }

  lemma HeldTyped()
    ensures TypeNameOf(HELD) == Some("U") && TypeNameOf(HOLDER) == Some("U") && SUP.Defines(0, "U")
    ensures HOLDER.Keys == {TYPENAME, "g2__i", "h"} && "h" !in HELD && HOLDER["h"] == Obj(HELD)
  {
    Letters();
  }

  lemma {:induction false} HolderMembers()
    ensures ShapedMembers(SUP, 0, "U", [TypenameField, TypenameField, KeyField("i"), Printed(ENGINE, 0, HOP)], HOLDER)
  {
    var g := Printed(ENGINE, 0, HOP);
    var rest := [TypenameField, TypenameField, KeyField("i")];
    var fs := rest + [g];
    AliasedKeys();
    HeldTyped();
    assert fs == [TypenameField, TypenameField, KeyField("i"), g];
    assert fs[0] in fs && fs[2] in fs && fs[3] in fs;
    assert fs[0].Key() in Keys(fs) && fs[2].Key() in Keys(fs) && g.Key() in Keys(fs);
    forall k | k in HOLDER ensures ShapedMember(SUP, 0, "U", fs, k, HOLDER[k]) {
      if k == "h" {
        HopMember(rest, g);
      } else {
        HeldShaped(fs, k);
      }
    }
  }

  lemma {:induction false} HopMember(rest: seq<Field>, g: Field)
    requires g == Printed(ENGINE, 0, HOP) && rest == [TypenameField, TypenameField, KeyField("i")]
    ensures ShapedMember(SUP, 0, "U", rest + [g], "h", Obj(HELD))
  {
    AliasedKeys();
    assert "h" != TYPENAME && "h" != "g2__i" by { Letters(); }
    NoneWith(rest, "h");
    CollectOne(SCHEMA.ps, "U", g);
    WithAppend(rest, [g], "h");
    assert With(rest + [g], "h") == [g] && g in rest + [g];
    assert [g][1..] == [] && Subs([g]) == g.sels + Subs([]) && g.sels + [] == g.sels;
    HopNodes(HOP);
    HopShaped();
    Types("U", "h");
  }

  lemma {:induction false} HolderShaped()
    ensures Shaped(SUP, 0, "N", Printed(ENGINE, 0, CROSSED).sels, Obj(HOLDER))
  {
    Kinds("N");
    HeldTyped();
    CrossedCollect();
    HolderMembers();
  }

  lemma {:induction false} OneShaped(s: Sup, sg: nat, t: Name, f: Field, j: Json)
    requires (t, f.name) in s.schema.fieldTy && Shaped(s, sg, s.schema.fieldTy[(t, f.name)], f.sels, j)
    ensures ShapedMembers(s, sg, t, [f], map[f.Key() := j])
  {
    CollectOne(s.schema.ps, t, f);
    assert [f][1..] == [] && Subs([f]) == f.sels + Subs([]) && f.sels + [] == f.sels && f in [f];
    assert f.Key() in Keys([f]);
    assert ShapedMember(s, sg, t, [f], f.Key(), j);
  }

  lemma {:induction false} RootShaped()
    ensures ShapedMembers(SUP, 0, QUERY, PrintedAll(ENGINE, 0, [CROSSED]), map["n" := Obj(HOLDER)])
  {
    var g := Printed(ENGINE, 0, CROSSED);
    assert [CROSSED][1..] == [] && PrintedAll(ENGINE, 0, [CROSSED]) == [g];
    Types(QUERY, "n");
    HolderShaped();
    OneShaped(SUP, 0, QUERY, g, Obj(HOLDER));
  }

  lemma {:induction false} NullShaped(t: Name, f: Field)
    requires f.Key() == "h"
    ensures ShapedMembers(SUP, 1, t, [f], map["h" := Null])
  {
    assert f in [f] && "h" in Keys([f]);
    assert ShapedMember(SUP, 1, t, [f], "h", Null);
  }

  lemma {:induction false} RepliesConform()
    ensures Conforming(SUP, ExternalReplies)
  {
    forall req ensures ShapedReply(SUP, req, ExternalReplies(req)) {
      if req == RootRequest(OP, 0, PrintedAll(ENGINE, 0, [CROSSED])) {
        RootShaped();
      } else if req == EntityRequest(OP, REPS_VAR, BRINGS.cut, [REP]) {
        EntityShaped(req, Obj(map["h" := Null]));
      } else if req == EntityRequest(OP, REPS_VAR, CROSSES.cut, [REP]) {
        EntityShaped(req, Null);
      }
    }
  }

  lemma {:induction false} EntityShaped(req: Request, e: Json)
    requires req.reps == Some(("U", REPS_VAR)) && req.subgraph == 1
    requires e == Null || (e == Obj(map["h" := Null]) && req.text == [Printed(ENGINE, 1, HOP)])
    ensures ShapedReply(SUP, req, Answer(Some(map["_entities" := Arr([e])]), 0))
  {
    if e != Null {
      NullShaped("U", Printed(ENGINE, 1, HOP));
    }
    assert ShapedEntity(SUP, req, e);
  }

  /** A local field that only the interface keeps local: all other rules
      hold, the replies conform, and the walk of the second fetch finds
      nothing after the first one's merge. */
  lemma {:induction false} MemberReplaced()
    ensures Hosted(ALL - {ThroughAbstract}, RUN, 0, OP, [F(CROSSED)]) && Conforming(SUP, ExternalReplies)
    ensures var reply := ExternalReplies(RootRequest(OP, 0, PrintedAll(ENGINE, 0, [CROSSED])));
            && reply.Answer? && reply.data.Some?
            && !Converged(ResolveNodes(ExternalReplies, OP, REPS_VAR, [Obj(reply.data.value)], FieldsNodes(ENGINE, 0, [CROSSED])).problems)
  {
    CrossedFits();
    CrossedSplits();
    OwnedByFirst();
    CrossedOnce();
    OneHosted(ALL - {ThroughAbstract}, SAME, CROSSED, 0);
    RepliesConform();
    CrossedNodes();
    CrossedRun();
  }

  lemma {:induction false} CrossedRun()
    ensures !Converged(ResolveNodes(ExternalReplies, OP, REPS_VAR, [Obj(map["n" := Obj(HOLDER)])], [BRINGS, CROSSES]).problems)
  {
    HeldTyped();
    HeldShows();
    KeyedRep(HOLDER, BRINGS.cut);
    KeyedRep(HELD, CROSSES.cut);
    EntityReplies();
    CrossedWalk();
    EarlierEnds(ExternalReplies, OP, REPS_VAR, "n", HOLDER, BRINGS, CROSSES, REP, REP, HELD, map["h" := Null]);
  }

  lemma HeldShows()
    ensures Shows(HELD) && Shows(HOLDER)
  {
    Letters();
  }

  lemma {:induction false} EntityReplies()
    ensures FetchCut(ExternalReplies, OP, REPS_VAR, [REP], BRINGS.cut).values == [Obj(map["h" := Null])]
    ensures FetchCut(ExternalReplies, OP, REPS_VAR, [REP], CROSSES.cut).values == [Null]
  {
    assert BRINGS.cut.text != CROSSES.cut.text by { Letters(); }
    FetchOne(ExternalReplies, OP, REPS_VAR, REP, BRINGS.cut, Obj(map["h" := Null]));
    FetchOne(ExternalReplies, OP, REPS_VAR, REP, CROSSES.cut, Null);
  }

  lemma {:induction false} CrossedWalk()
    ensures Walk(Obj(HOLDER), CROSSES.path[1..]) == [HELD] && Walk(Obj(HOLDER + map["h" := Null]), CROSSES.path[1..]) == []
  {
    HeldTyped();
    assert CROSSES.path[1..] == [Key("h")] && [Key("h")][1..] == [];
    assert Walk(Obj(HELD), []) == [HELD];
  }
}
