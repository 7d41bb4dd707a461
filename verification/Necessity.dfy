/** Why the end-to-end theorem asks for each of its rules: for every one, a
    query that keeps all the others, on sound tables, a typed store and
    faithful subgraphs, and is answered wrongly. */
module Necessity {
  import opened Basics
  import opened GraphQl
  import opened Plan
  import opened PlanFacts
  import opened Exec
  import opened Federation
  import opened Resolver
  import opened Subqueries
  import opened Variables
  import opened Refinement
  import opened EndToEnd
  import opened Witness
  import C = Compose

  // ----- plain queries: no arguments, no directives

  /** Every field's name follows from its response key; no arguments. */
  ghost predicate Plain(name: Name -> Name, sels: seq<Sel>)
    decreases DepthOf(sels), 1
  {
    forall x :: x in sels ==> (DepthMember(sels, x); PlainSel(name, x))
  }

  ghost predicate PlainSel(name: Name -> Name, x: Sel)
    decreases Depth(x), 0
  {
    match x
    case F(f) =>
      assert Depth(x) == DepthF(f);
      f.name == name(f.Key()) && f.args == [] && f.dirs == [] && Plain(name, f.sels)
    case Frag(_, dirs, sub) => dirs == [] && Plain(name, sub)
  }

  lemma {:induction false} PlainVars(name: Name -> Name, sels: seq<Sel>)
    requires Plain(name, sels)
    ensures SelsVars(sels) == {}
    decreases DepthOf(sels), |sels|
  {
    if sels != [] {
      var x := sels[0];
      assert x in sels && PlainSel(name, x);
      PlainVars(name, sels[1..]);
      assert Depth(x) <= DepthOf(sels) && (x.F? ==> Depth(x) == 1 + DepthOf(x.f.sels));
      match x
      case F(f) =>
        PlainVars(name, f.sels);
        assert FieldVars(f) == ArgsVars([]) + DirsVars([]) + SelsVars(f.sels);
      case Frag(_, _, sub) => PlainVars(name, sub);
    }
  }

  lemma {:induction false} PlainCollect(name: Name -> Name, ps: Poss, t: Name, sels: seq<Sel>, f: Field)
    requires Plain(name, sels) && f in Collect(ps, t, sels)
    ensures PlainSel(name, F(f))
    decreases DepthOf(sels), |sels|
  {
    var x := sels[0];
    assert x in sels && PlainSel(name, x);
    if f in Collect(ps, t, sels[1..]) {
      PlainCollect(name, ps, t, sels[1..], f);
    } else if x.Frag? {
      assert Depth(x) == 1 + DepthOf(x.fsels);
      PlainCollect(name, ps, t, x.fsels, f);
    }
  }

  lemma {:induction false} PlainMerge(name: Name -> Name, ps: Poss, sels: seq<Sel>)
    requires Plain(name, sels)
    ensures MergeOk(ps, sels)
    decreases DepthOf(sels)
  {
    forall t, f, g | f in Collect(ps, t, sels) && g in Collect(ps, t, sels) && f.Key() == g.Key()
      ensures Mergeable(ps, f, g)
    {
      PlainCollect(name, ps, t, sels, f);
      PlainCollect(name, ps, t, sels, g);
      FieldsDepthMember(Collect(ps, t, sels), f);
      FieldsDepthMember(Collect(ps, t, sels), g);
      DepthAppend(f.sels, g.sels);
      assert Plain(name, f.sels + g.sels);
      PlainMerge(name, ps, f.sels + g.sels);
    }
  }

  lemma {:induction false} PlainMerges(name: Name -> Name, ps: Poss, sels: seq<Sel>)
    requires Plain(name, sels)
    ensures MergesEverywhere(ps, sels)
    decreases DepthOf(sels)
  {
    PlainMerge(name, ps, sels);
    forall x | x in sels ensures MergesSel(ps, x) {
      DepthMember(sels, x);
      assert PlainSel(name, x);
      match x
      case F(f) => PlainMerges(name, ps, f.sels);
      case Frag(_, _, sub) => PlainMerges(name, ps, sub);
    }
  }

  // ----- queries that cut leaves only

  /** Only leaf fields can be foreign to `sg`. */
  ghost predicate LeafCuts(e: Engine, sg: nat, sels: seq<Sel>)
    decreases DepthOf(sels), 1
  {
    forall x :: x in sels ==> (DepthMember(sels, x); LeafCutsSel(e, sg, x))
  }

  ghost predicate LeafCutsSel(e: Engine, sg: nat, x: Sel)
    decreases Depth(x), 0
  {
    match x
    case F(f) =>
      assert Depth(x) == DepthF(f);
      (f.sels == [] || forall t :: e.Local(sg, t, f)) && LeafCuts(e, sg, f.sels)
    case Frag(_, _, sub) => LeafCuts(e, sg, sub)
  }

  ghost predicate Leaves(gs: seq<Group>) {
    forall g :: g in gs ==> forall f :: f in g.fields ==> f.sels == []
  }

  lemma {:induction false} GroupLeaves(e: Engine, sg: nat, p: Name, sels: seq<Sel>)
    requires LeafCuts(e, sg, sels)
    ensures Leaves(Groups(e, p, Cuts(e, sg, p, sels)))
  {
    var cuts := Cuts(e, sg, p, sels);
    forall g, f | g in Groups(e, p, cuts) && f in g.fields ensures f.sels == [] {
      GroupsPairs(e, p, cuts);
      PairsMember(Groups(e, p, cuts), g.target, f);
      assert (g.target, f) in (set h | h in cuts :: (e.Target(p, h), h));
      CutsMember(e, sg, p, sels, f);
      assert LeafCutsSel(e, sg, F(f));
    }
  }

  lemma {:induction false} OwnLeaves(e: Engine, ps: Poss, sg: nat, t: Name, p: Name, sels: seq<Sel>)
    requires LeafCuts(e, sg, sels)
    ensures Leaves(OwnGroups(e, ps, sg, t, p, sels))
    decreases DepthOf(sels), 2
  {
    OwnLocalLeaves(e, ps, sg, t, sels);
    GroupLeaves(e, sg, p, sels);
  }

  lemma {:induction false} OwnLocalLeaves(e: Engine, ps: Poss, sg: nat, t: Name, sels: seq<Sel>)
    requires LeafCuts(e, sg, sels)
    ensures Leaves(OwnLocal(e, ps, sg, t, sels))
    decreases DepthOf(sels), 1, |sels|
  {
    if sels != [] {
      assert sels[0] in sels && LeafCutsSel(e, sg, sels[0]);
      OwnLocalLeaves(e, ps, sg, t, sels[1..]);
      if sels[0].Frag? {
        assert Depth(sels[0]) == 1 + DepthOf(sels[0].fsels);
        OwnLeaves(e, ps, sg, t, sels[0].cond, sels[0].fsels);
      }
    }
  }

  lemma {:induction false} AllLeaves(e: Engine, ps: Poss, sg: nat, t: Name, fs: seq<Field>)
    requires forall f :: f in fs ==> LeafCuts(e, sg, f.sels)
    ensures Leaves(AllGroups(e, ps, sg, t, fs))
  {
    if fs != [] {
      assert fs[0] in fs;
      OwnLeaves(e, ps, sg, t, fs[0].ty, fs[0].sels);
      AllLeaves(e, ps, sg, t, fs[1..]);
    }
  }

  lemma {:induction false} LeafCutsCollect(e: Engine, ps: Poss, sg: nat, t: Name, sels: seq<Sel>, f: Field)
    requires LeafCuts(e, sg, sels) && f in Collect(ps, t, sels)
    ensures LeafCuts(e, sg, f.sels)
    decreases DepthOf(sels), |sels|
  {
    var x := sels[0];
    assert x in sels && LeafCutsSel(e, sg, x);
    if f in Collect(ps, t, sels[1..]) {
      LeafCutsCollect(e, ps, sg, t, sels[1..], f);
    } else if x.Frag? {
      assert Depth(x) == 1 + DepthOf(x.fsels);
      LeafCutsCollect(e, ps, sg, t, x.fsels, f);
    }
  }

  lemma {:induction false} LeafCutsOnce(s: Sup, sg: nat, fs: seq<Field>)
    requires forall f :: f in fs ==> LeafCuts(s.e, sg, f.sels)
    ensures SingleCut(s, sg, fs)
    decreases FieldsDepth(fs)
  {
    if fs != [] {
      forall t | PossibleFor(s, sg, fs, t)
        ensures CutOnce(AllGroups(s.e, s.schema.ps, sg, t, fs))
        ensures forall k :: SingleCut(s, sg, LocalsWith(s, sg, t, Subs(fs), k))
        ensures forall g :: g in AllGroups(s.e, s.schema.ps, sg, t, fs) ==> SingleCutFields(s, g.target, g.fields)
      {
        AllLeaves(s.e, s.schema.ps, sg, t, fs);
        forall k ensures SingleCut(s, sg, LocalsWith(s, sg, t, Subs(fs), k)) {
          LocalsDepth(s, sg, t, fs, k);
          forall f | f in LocalsWith(s, sg, t, Subs(fs), k) ensures LeafCuts(s.e, sg, f.sels) {
            CollectSubs(s.schema.ps, t, fs, f);
            var f0 :| f0 in fs && f in Collect(s.schema.ps, t, f0.sels);
            LeafCutsCollect(s.e, s.schema.ps, sg, t, f0.sels, f);
          }
          LeafCutsOnce(s, sg, LocalsWith(s, sg, t, Subs(fs), k));
        }
        forall g | g in AllGroups(s.e, s.schema.ps, sg, t, fs) ensures SingleCutFields(s, g.target, g.fields) {
          GroupsDepthMember(AllGroups(s.e, s.schema.ps, sg, t, fs), g);
          forall k ensures SingleCut(s, g.target, With(g.fields, k)) {
            forall f | f in With(g.fields, k) ensures LeafCuts(s.e, g.target, f.sels) {
              assert f.sels == [];
            }
            LeafCutsOnce(s, g.target, With(g.fields, k));
          }
        }
      }
    }
  }

  lemma NoneLocal(fs: seq<Field>)
    requires forall f :: f in fs ==> !ENGINE.Local(0, "U", f)
    ensures LocalsAt(ENGINE, 0, "U", fs) == []
  {
  }

  // ----- queries of one root field

  /** The setting of a plain query of one root field. */
  lemma {:induction false} OneHosted(rules: set<Rule>, name: Name -> Name, f: Field, owner: nat)
    requires Plain(name, [F(f)]) && Typed(SCHEMA, QUERY, [F(f)]) && !IsMeta(f.name)
    requires ClientKeys in rules ==> Clean([F(f)])
    requires RootOwner(ENGINE, f.name) == Some(owner) && Splits(rules, SUP, owner, f.ty, f.sels)
    requires OneCut in rules ==> SingleCutFields(SUP, owner, [f])
    ensures Hosted(rules, RUN, 0, OP, [F(f)])
  {
    RunReady();
    assert DefNames(OP.defs) == {} && Bind(OP.defs, OP.raw) == map[];
    PlainVars(name, [F(f)]);
    PlainMerges(name, SCHEMA.ps, [F(f)]);
    CollectOne(SCHEMA.ps, QUERY, f);
    assert F(f) in [F(f)] && TypedSel(SCHEMA, QUERY, F(f)) && MergesSel(SCHEMA.ps, F(f));
    assert RootSelection(rules, SUP, f);
    forall k ensures RootSupported(rules, SUP, With([f], k)) {
      assert With([f], k) == if f.Key() == k then [f] else [];
    }
  }

  lemma {:induction false} OneRoot(rules: set<Rule>, name: Name -> Name, ft: Fetch, f: Field, owner: nat)
    requires Served(ft, SUP, STORE, 0) && Plain(name, [F(f)]) && Typed(SCHEMA, QUERY, [F(f)]) && !IsMeta(f.name)
    requires ClientKeys in rules ==> Clean([F(f)])
    requires RootOwner(ENGINE, f.name) == Some(owner) && Splits(rules, SUP, owner, f.ty, f.sels)
    requires OneCut in rules ==> LeafCuts(ENGINE, owner, f.sels)
    ensures Setting(rules, RUN, 0, ft, OP, REPS_VAR, [F(f)])
  {
    if OneCut in rules {
      forall k ensures SingleCut(SUP, owner, With([f], k)) {
        LeafCutsOnce(SUP, owner, With([f], k));
      }
    }
    OneHosted(rules, name, f, owner);
    assert DefNames(OP.defs) == {};
  }

  function Stitched(r: RootValue, f: Field): Json {
    match r
    case FieldError => Null
    case Value(j) =>
      if (QUERY, f.name) in SCHEMA.fieldTy then Project(SCHEMA, j, SCHEMA.fieldTy[(QUERY, f.name)], f.sels) else Null
  }

  /** What the client gets for a query of one root field. */
  lemma {:induction false} ExecuteOne(ft: Fetch, f: Field)
    requires f.name != TYPENAME && RootOwner(ENGINE, f.name).Some?
    ensures Execute(ft, SUP, OP, REPS_VAR, [F(f)]) ==
            map[f.Key() := Stitched(RunRoot(ft, ENGINE, OP, REPS_VAR, f.Key(), [f]), f)]
  {
    CollectOne(SCHEMA.ps, QUERY, f);
    assert [f][1..] == [] && Subs([f]) == f.sels + Subs([]) && f.sels + [] == f.sels;
    assert Keys([f]) == {f.Key()};
  }

  /** What the store answers for it. */
  lemma {:induction false} CompleteOne(c: Ctx, o: Oid, f: Field)
    ensures Complete(c, RRef(o), [F(f)]) == Obj(map[f.Key() := Complete(c, Resolve(c, o, f), f.sels)])
  {
    CollectOne(c.ps, c.w.typeOf(o), f);
    EvalOne(c, o, f);
  }

  // ----- refused sub-queries

  lemma {:induction false} NoneFound(ft: Fetch, op: Operation, rv: Name, values: seq<Json>, ns: seq<FetchNode>)
    requires forall n :: n in ns ==> WalkAll(values, n.path) == []
    ensures ResolveNodes(ft, op, rv, values, ns).values == values
  {
    if ns != [] {
      var i := |ns| - 1;
      assert ns[i] in ns;
      NoneFound(ft, op, rv, values, ns[..i]);
      assert FetchAll(ft, op, rv, values, ns)[..i] == FetchAll(ft, op, rv, values, ns[..i]);
    }
  }

  /** A root field whose sub-query the subgraph refuses is null. */
  lemma {:induction false} RefusedIsNull(ft: Fetch, e: Engine, op: Operation, rv: Name, k: Name, fs: seq<Field>, owner: nat, errors: nat)
    requires fs != [] && RootOwner(e, fs[0].name) == Some(owner) && errors > 0
    requires ft(RootRequest(op, owner, PrintedAll(e, owner, fs))) == Answer(None, errors)
    ensures RunRoot(ft, e, op, rv, k, fs) == FieldError
  {
    var values := [Obj(map[])];
    FieldsPaths(e, owner, fs);
    forall n | n in FieldsNodes(e, owner, fs) ensures WalkAll(values, n.path) == [] {
      assert values[1..] == [] && Walk(values[0], n.path) == [];
    }
    NoneFound(ft, op, rv, values, FieldsNodes(e, owner, fs));
  }

  /** A refused root field that has a value is answered wrongly. */
  lemma {:induction false} Refused(ft: Fetch, f: Field, owner: nat)
    requires Served(ft, SUP, STORE, 0) && f.name in {"u", "n", "v"} && RootOwner(ENGINE, f.name) == Some(owner)
    requires !Accepts(SUP, RootRequest(OP, owner, [Printed(ENGINE, owner, f)]))
    ensures Execute(ft, SUP, OP, REPS_VAR, [F(f)]) == map[f.Key() := Null]
    ensures Obj(Execute(ft, SUP, OP, REPS_VAR, [F(f)])) != Complete(CTX, RRef(0), [F(f)])
  {
    RefusedReply(ft, f, owner);
    RefusedIsNull(ft, ENGINE, OP, REPS_VAR, f.Key(), [f], owner, 1);
    RootResolved(f);
    ExecuteOne(ft, f);
    WrongValue(ft, f, Null);
  }

  /** A value other than the store's makes the whole response differ. */
  lemma {:induction false} WrongValue(ft: Fetch, f: Field, j: Json)
    requires Execute(ft, SUP, OP, REPS_VAR, [F(f)]) == map[f.Key() := j]
    requires j != Complete(CTX, Resolve(CTX, 0, f), f.sels)
    ensures Obj(Execute(ft, SUP, OP, REPS_VAR, [F(f)])) != Complete(CTX, RRef(0), [F(f)])
  {
    CompleteOne(CTX, 0, f);
    assert map[f.Key() := j][f.Key()] == j;
  }

  lemma {:induction false} RefusedReply(ft: Fetch, f: Field, owner: nat)
    requires Served(ft, SUP, STORE, 0) && !Accepts(SUP, RootRequest(OP, owner, [Printed(ENGINE, owner, f)]))
    ensures ft(RootRequest(OP, owner, PrintedAll(ENGINE, owner, [f]))) == Answer(None, 1)
  {
    assert [f][1..] == [] && PrintedAll(ENGINE, owner, [f]) == [Printed(ENGINE, owner, f)];
  }

  lemma {:induction false} RootResolved(f: Field)
    requires f.name in {"u", "n", "v"}
    ensures f.name != TYPENAME && Resolve(CTX, 0, f) == RRef(1)
  {
    Letters();
  }

  // ----- the counterexamples

  function Leaf(name: Name): Field {
    Field(None, name, [], [], "ID", [])
  }

  function Branch(name: Name, ty: Name, sels: seq<Sel>): Field {
    Field(None, name, [], [], ty, sels)
  }

  const SAME: Name -> Name := k => k

  lemma OneSel(x: Sel)
    ensures [x][1..] == [] && x in [x] && forall y :: y in [x] ==> y == x
  {
  }

  lemma {:induction false} LeafShape(t: Name, name: Name)
    requires HasField(t, name) && SCHEMA.fieldTy[(t, name)] == "ID"
    ensures Typed(SCHEMA, t, [F(Leaf(name))]) && Clean([F(Leaf(name))]) && Plain(SAME, [F(Leaf(name))])
    ensures forall e, sg :: LeafCuts(e, sg, [F(Leaf(name))])
  {
    Letters();
    Kinds("ID");
    OneSel(F(Leaf(name)));
    assert TypedSel(SCHEMA, t, F(Leaf(name))) && CleanSel(F(Leaf(name))) && PlainSel(SAME, F(Leaf(name)));
    forall e, sg ensures LeafCuts(e, sg, [F(Leaf(name))]) {
      assert LeafCutsSel(e, sg, F(Leaf(name)));
    }
  }

  lemma {:induction false} BranchShape(t: Name, f: Field, name: Name -> Name)
    requires HasField(t, f.name) && f.ty == SCHEMA.fieldTy[(t, f.name)] && SCHEMA.Composite(f.ty)
    requires f == Branch(f.name, f.ty, f.sels) && f.sels != [] && Typed(SCHEMA, f.ty, f.sels)
    requires Plain(name, f.sels) && name(f.name) == f.name
    ensures Typed(SCHEMA, t, [F(f)]) && Plain(name, [F(f)]) && !IsMeta(f.name)
    ensures Clean(f.sels) ==> Clean([F(f)])
  {
    Letters();
    OneSel(F(f));
    assert TypedSel(SCHEMA, t, F(f)) && PlainSel(name, F(f));
    assert Clean(f.sels) ==> CleanSel(F(f));
  }

  lemma {:induction false} FragShape(t: Name, x: Sel, name: Name -> Name)
    requires x.Frag? && x.fdirs == [] && SCHEMA.Composite(x.cond)
    requires Typed(SCHEMA, x.cond, x.fsels) && Plain(name, x.fsels)
    ensures Typed(SCHEMA, t, [x]) && Plain(name, [x]) && (Clean(x.fsels) ==> Clean([x]))
    ensures forall e, sg :: LeafCuts(e, sg, x.fsels) ==> LeafCuts(e, sg, [x])
  {
    OneSel(x);
    assert TypedSel(SCHEMA, t, x) && PlainSel(name, x);
    assert Clean(x.fsels) ==> CleanSel(x);
    forall e, sg | LeafCuts(e, sg, x.fsels) ensures LeafCuts(e, sg, [x]) {
      assert LeafCutsSel(e, sg, x);
    }
  }

  // { v { ... on N { e } } }, where subgraph 1 does not know N

  const UNKNOWN := Branch("v", "U", [Frag("N", [], [F(Leaf("e"))])])

  lemma {:induction false} UnknownFits()
    ensures Typed(SCHEMA, QUERY, [F(UNKNOWN)]) && Clean([F(UNKNOWN)]) && Plain(SAME, [F(UNKNOWN)]) && !IsMeta("v")
    ensures LeafCuts(ENGINE, 1, UNKNOWN.sels)
  {
    Types("N", "e");
    Types(QUERY, "v");
    Kinds("U");
    Kinds("N");
    LeafShape("N", "e");
    FragShape("U", UNKNOWN.sels[0], SAME);
    BranchShape(QUERY, UNKNOWN, SAME);
  }

  lemma {:induction false} UnknownLocal()
    ensures ENGINE.Local(1, "N", Leaf("e")) && ENGINE.Local(1, "U", Leaf("e")) && !ENGINE.IsEntity("N")
  {
    Letters();
    Owners("e");
  }

  lemma {:induction false} UnknownNodes()
    ensures Nodes(ENGINE, 1, "N", [F(Leaf("e"))]) == []
  {
    UnknownLocal();
    OneSel(F(Leaf("e")));
    CutsNeedEntity(ENGINE, 1, "N", [F(Leaf("e"))]);
    assert SelNodes(ENGINE, 1, "N", F(Leaf("e"))) == [];
    assert LocalNodes(ENGINE, 1, "N", [F(Leaf("e"))]) == [] + [];
  }

  lemma {:induction false} UnknownLeaf(rules: set<Rule>)
    ensures SplitsSel(rules, SUP, 1, "N", F(Leaf("e"))) && Nodes(ENGINE, 1, "N", [F(Leaf("e"))]) == []
  {
    Letters();
    Kinds("N");
    UnknownLocal();
    UnknownNodes();
  }

  lemma {:induction false} UnknownSplits()
    ensures RootOwner(ENGINE, "v") == Some(1) && Splits(ALL - {KnownConditions}, SUP, 1, "U", UNKNOWN.sels)
  {
    var rules := ALL - {KnownConditions};
    var x := UNKNOWN.sels[0];
    UnknownLeaf(rules);
    OneSel(F(Leaf("e")));
    OneSel(x);
    assert SplitsSel(rules, SUP, 1, "U", x);
  }

  /** A condition type the subgraph does not define: it refuses the text. */
  lemma {:induction false} UnknownCondition(ft: Fetch)
    requires Served(ft, SUP, STORE, 0)
    ensures Setting(ALL - {KnownConditions}, RUN, 0, ft, OP, REPS_VAR, [F(UNKNOWN)])
    ensures Obj(Execute(ft, SUP, OP, REPS_VAR, [F(UNKNOWN)])) != Complete(CTX, RRef(0), [F(UNKNOWN)])
  {
    UnknownFits();
    UnknownSplits();
    OneRoot(ALL - {KnownConditions}, SAME, ft, UNKNOWN, 1);
    UnknownRefused();
    Refused(ft, UNKNOWN, 1);
  }

  lemma {:induction false} UnknownRefused()
    ensures !Accepts(SUP, RootRequest(OP, 1, [Printed(ENGINE, 1, UNKNOWN)]))
  {
    var f := Printed(ENGINE, 1, UNKNOWN);
    var x := UNKNOWN.sels[0];
    var y := Frag("N", [], Text(ENGINE, 1, "N", x.fsels));
    assert UNKNOWN.sels[1..] == [] && LocalText(ENGINE, 1, "U", UNKNOWN.sels) == [y] + [];
    assert y in f.sels;
    Letters();
    Types(QUERY, "v");
    assert !WellFormedSel(SUP, 1, "U", y);
    assert f in [f] && !WellFormedSel(SUP, 1, QUERY, F(f));
  }

  lemma {:induction false} BranchCuts(sg: nat, f: Field)
    requires ENGINE.Local(sg, "U", f) && LeafCuts(ENGINE, sg, f.sels)
    ensures LeafCuts(ENGINE, sg, [F(f)])
  {
    forall t ensures ENGINE.Local(sg, t, f) {
      assert t in ENGINE.keys <==> t == "U";
    }
    OneSel(F(f));
    assert LeafCutsSel(ENGINE, sg, F(f));
  }

  // { u { q { v { i } } } }, where subgraph 0 has no v

  const INNER := Branch("v", "U", [F(Leaf("i"))])

  const REENTRY := Branch("u", "U", [F(Branch("q", "Query", [F(INNER)]))])

  lemma {:induction false} ReentryFits()
    ensures Typed(SCHEMA, QUERY, [F(REENTRY)]) && Clean([F(REENTRY)]) && Plain(SAME, [F(REENTRY)]) && !IsMeta("u")
  {
    var q := REENTRY.sels[0].f;
    Types(QUERY, "u");
    Types(QUERY, "v");
    Types("U", "i");
    Types("U", "q");
    Kinds("U");
    Kinds(QUERY);
    LeafShape("U", "i");
    BranchShape(QUERY, INNER, SAME);
    BranchShape("U", q, SAME);
    BranchShape(QUERY, REENTRY, SAME);
  }

  lemma {:induction false} ReentryCuts()
    ensures LeafCuts(ENGINE, 0, REENTRY.sels)
  {
    var q := REENTRY.sels[0].f;
    Types("U", "i");
    LeafShape("U", "i");
    Letters();
    Fields("U", "v");
    Owners("q");
    BranchCuts(0, INNER);
    BranchCuts(0, q);
  }

  lemma {:induction false} InnerSplits(rules: set<Rule>)
    requires OwnRoots !in rules
    ensures Splits(rules, SUP, 0, QUERY, [F(INNER)])
  {
    OneSel(F(Leaf("i")));
    LeafSplits(rules, 0, "U", "i");
    Letters();
    Kinds(QUERY);
    OneSel(F(INNER));
    assert ENGINE.Local(0, QUERY, INNER) && SplitsSel(rules, SUP, 0, QUERY, F(INNER));
  }

  lemma {:induction false} ReentrySplits()
    ensures RootOwner(ENGINE, "u") == Some(0) && Splits(ALL - {OwnRoots}, SUP, 0, "U", REENTRY.sels)
  {
    var rules := ALL - {OwnRoots};
    var q := REENTRY.sels[0].f;
    OwnedRoot();
    InnerSplits(rules);
    ReentryLocal();
    OneSel(F(q));
    BranchSplits(rules, 0, "U", q);
  }

  lemma OwnedRoot()
    ensures RootOwner(ENGINE, "u") == Some(0)
  {
    Letters();
  }

  /** A local field stays in the text printed for its parent. */
  lemma {:induction false} PrintedInside(f: Field, g: Field)
    requires f.sels == [F(g)] && ENGINE.Local(0, f.ty, g)
    ensures F(Printed(ENGINE, 0, g)) in Printed(ENGINE, 0, f).sels
  {
    OneSel(F(g));
    assert LocalText(ENGINE, 0, f.ty, f.sels) == [F(Printed(ENGINE, 0, g))] + [];
  }

  /** An invalid selection makes every field around it invalid. */
  lemma {:induction false} InvalidInside(p: Name, f: Field, x: Sel)
    requires x in f.sels && !IsMeta(f.name) && HasField(p, f.name)
    requires !WellFormedSel(SUP, 0, SCHEMA.fieldTy[(p, f.name)], x)
    ensures !WellFormedSel(SUP, 0, p, F(f))
  {
    Fields(p, f.name);
    Types(p, f.name);
  }

  lemma {:induction false} RootInvalid(f: Field)
    requires !WellFormedSel(SUP, 0, QUERY, F(f))
    ensures !Accepts(SUP, RootRequest(OP, 0, [f]))
  {
    assert f in [f];
  }

  lemma {:induction false} ReentryRefused()
    ensures !Accepts(SUP, RootRequest(OP, 0, [Printed(ENGINE, 0, REENTRY)]))
  {
    var q := REENTRY.sels[0].f;
    var f, g, h := Printed(ENGINE, 0, REENTRY), Printed(ENGINE, 0, q), Printed(ENGINE, 0, INNER);
    ReentryLocal();
    PrintedInside(REENTRY, q);
    PrintedInside(q, INNER);
    ReentryTypes();
    InvalidInside("U", g, F(h));
    InvalidInside(QUERY, f, F(g));
    RootInvalid(f);
  }

  lemma {:induction false} ReentryTypes()
    ensures HasField(QUERY, "u") && SCHEMA.fieldTy[(QUERY, "u")] == "U" && HasField("U", "q") && SCHEMA.fieldTy[("U", "q")] == QUERY
  {
    Types(QUERY, "u");
    Types("U", "q");
  }

  lemma {:induction false} ReentryLocal()
    ensures var q := REENTRY.sels[0].f; ENGINE.Local(0, "U", q) && ENGINE.Local(0, QUERY, INNER)
    ensures !IsMeta("u") && !IsMeta("q") && !WellFormedSel(SUP, 0, QUERY, F(Printed(ENGINE, 0, INNER)))
  {
    Letters();
    Owners("q");
    Fields(QUERY, "v");
  }

  /** Root types are never split: a root field of another subgraph selected
      below the root is sent to a subgraph that does not declare it. */
  lemma {:induction false} RootBelowRoot(ft: Fetch)
    requires Served(ft, SUP, STORE, 0)
    ensures Setting(ALL - {OwnRoots}, RUN, 0, ft, OP, REPS_VAR, [F(REENTRY)])
    ensures Obj(Execute(ft, SUP, OP, REPS_VAR, [F(REENTRY)])) != Complete(CTX, RRef(0), [F(REENTRY)])
  {
    ReentryFits();
    ReentryCuts();
    ReentrySplits();
    OneRoot(ALL - {OwnRoots}, SAME, ft, REENTRY, 0);
    ReentryRefused();
    Refused(ft, REENTRY, 0);
  }

  // { u { g2__i: __typename e } } and { u { __typename: i } }

  const STOLEN := Field(Some("g2__i"), TYPENAME, [], [], "", [])

  const ALIASED := Branch("u", "U", [F(STOLEN), F(Leaf("e"))])

  const DISGUISED := Field(Some(TYPENAME), "i", [], [], "ID", [])

  const RENAMED := Branch("u", "U", [F(DISGUISED)])

  lemma {:induction false} AliasedFits(name: Name -> Name)
    requires forall k :: name(k) == if k == "g2__i" then TYPENAME else k
    ensures Typed(SCHEMA, QUERY, [F(ALIASED)]) && Plain(name, [F(ALIASED)]) && !IsMeta("u")
    ensures LeafCuts(ENGINE, 0, ALIASED.sels)
  {
    Letters();
    Types(QUERY, "u");
    Types("U", "e");
    Kinds("ID");
    Kinds("U");
    forall x | x in ALIASED.sels
      ensures TypedSel(SCHEMA, "U", x) && PlainSel(name, x) && LeafCutsSel(ENGINE, 0, x)
    {
      assert x == F(STOLEN) || x == F(Leaf("e"));
    }
    BranchShape(QUERY, ALIASED, name);
  }

  lemma {:induction false} AliasedSplits()
    ensures RootOwner(ENGINE, "u") == Some(0) && Splits(ALL - {ClientKeys}, SUP, 0, "U", ALIASED.sels)
  {
    Letters();
    Kinds("U");
    forall x | x in ALIASED.sels ensures SplitsSel(ALL - {ClientKeys}, SUP, 0, "U", x) {
      assert x == F(STOLEN) || x == F(Leaf("e"));
    }
  }

  lemma {:induction false} AliasedText()
    ensures F(STOLEN) in Text(ENGINE, 0, "U", ALIASED.sels) && F(KeyField("i")) in Text(ENGINE, 0, "U", ALIASED.sels)
  {
    var e := Leaf("e");
    Letters();
    Owners("e");
    assert ALIASED.sels[1..] == [F(e)];
    OneSel(F(e));
    assert ENGINE.Local(0, "U", STOLEN) && !ENGINE.Local(0, "U", e);
    assert ENGINE.PickTarget("U", [1]) == Some(1);
    assert Cuts(ENGINE, 0, "U", [F(e)]) == [e] + [] && Cuts(ENGINE, 0, "U", ALIASED.sels) == [e];
    assert LocalText(ENGINE, 0, "U", ALIASED.sels) == [F(STOLEN)] + LocalText(ENGINE, 0, "U", [F(e)]);
    OneCutKeys(e);
    assert ["i"][1..] == [] && KeyText(["i"]) == [F(KeyField("i"))] + [];
  }

  lemma {:induction false} OneCutKeys(e: Field)
    requires ENGINE.Target("U", e) == 1
    ensures Groups(ENGINE, "U", [e]) == [Group(1, [e])]
    ensures InjectedKeys(ENGINE, "U", Groups(ENGINE, "U", [e]), {}) == ["i"]
  {
    assert [e][..0] == [] && Groups(ENGINE, "U", []) == [];
    var g := Group(1, [e]);
    assert [g][1..] == [] && ["i"][1..] == [];
    assert ENGINE.KeysOf("U", 1) == ["i"];
    assert NewKeys(["i"], {}) == ["i"] + NewKeys([], {"i"});
    assert InjectedKeys(ENGINE, "U", [g], {}) == NewKeys(["i"], {}) + [];
  }

  /** Two fields of one selection set answer under one key and differ. */
  lemma {:induction false} ClashRefused(f: Field, a: Field, b: Field)
    requires f.sels != [] && F(a) in Printed(ENGINE, 0, f).sels && F(b) in Printed(ENGINE, 0, f).sels
    requires a.Key() == b.Key() && a.name != b.name
    ensures !Accepts(SUP, RootRequest(OP, 0, [Printed(ENGINE, 0, f)]))
  {
    var g := Printed(ENGINE, 0, f);
    DirectCollected(SCHEMA.ps, "", g.sels, a);
    DirectCollected(SCHEMA.ps, "", g.sels, b);
    CollectAppend(SCHEMA.ps, "", g.sels, g.sels);
    assert !Mergeable(SCHEMA.ps, a, b);
    assert !MergeOk(SCHEMA.ps, g.sels + g.sels);
    assert g in [g] && !Mergeable(SCHEMA.ps, g, g);
  }

  /** A client alias equal to an injected key's alias: the sub-query selects
      two fields under one key and is refused (section 5.3.2). */
  lemma {:induction false} AliasClash(ft: Fetch)
    requires Served(ft, SUP, STORE, 0)
    ensures Setting(ALL - {ClientKeys}, RUN, 0, ft, OP, REPS_VAR, [F(ALIASED)])
    ensures Obj(Execute(ft, SUP, OP, REPS_VAR, [F(ALIASED)])) != Complete(CTX, RRef(0), [F(ALIASED)])
  {
    var name: Name -> Name := k => if k == "g2__i" then TYPENAME else k;
    AliasedFits(name);
    AliasedSplits();
    OneRoot(ALL - {ClientKeys}, name, ft, ALIASED, 0);
    AliasedText();
    AliasedKeys();
    ClashRefused(ALIASED, STOLEN, KeyField("i"));
    Refused(ft, ALIASED, 0);
  }

  lemma {:induction false} AliasedKeys()
    ensures KeyField("i").Key() == "g2__i" == STOLEN.Key() && "i" != TYPENAME
  {
    Letters();
    assert "g2__" + "i" == "g2__i";
  }

  lemma {:induction false} RenamedFits(name: Name -> Name)
    requires forall k :: name(k) == if k == TYPENAME then "i" else k
    ensures Typed(SCHEMA, QUERY, [F(RENAMED)]) && Plain(name, [F(RENAMED)]) && !IsMeta("u")
    ensures LeafCuts(ENGINE, 0, RENAMED.sels)
  {
    Letters();
    Types(QUERY, "u");
    Types("U", "i");
    Kinds("ID");
    Kinds("U");
    OneSel(F(DISGUISED));
    assert TypedSel(SCHEMA, "U", F(DISGUISED)) && PlainSel(name, F(DISGUISED)) && LeafCutsSel(ENGINE, 0, F(DISGUISED));
    BranchShape(QUERY, RENAMED, name);
  }

  lemma {:induction false} RenamedSplits()
    ensures RootOwner(ENGINE, "u") == Some(0) && Splits(ALL - {ClientKeys}, SUP, 0, "U", RENAMED.sels)
    ensures F(TypenameField) in Text(ENGINE, 0, "U", RENAMED.sels) && F(DISGUISED) in Text(ENGINE, 0, "U", RENAMED.sels)
  {
    Letters();
    Kinds("U");
    Owners("i");
    OneSel(F(DISGUISED));
    assert ENGINE.Local(0, "U", DISGUISED);
    assert SplitsSel(ALL - {ClientKeys}, SUP, 0, "U", F(DISGUISED));
    assert LocalText(ENGINE, 0, "U", RENAMED.sels) == [F(DISGUISED)] + [];
  }

  /** The same for the added `__typename`. */
  lemma {:induction false} TypenameClash(ft: Fetch)
    requires Served(ft, SUP, STORE, 0)
    ensures Setting(ALL - {ClientKeys}, RUN, 0, ft, OP, REPS_VAR, [F(RENAMED)])
    ensures Obj(Execute(ft, SUP, OP, REPS_VAR, [F(RENAMED)])) != Complete(CTX, RRef(0), [F(RENAMED)])
  {
    var name: Name -> Name := k => if k == TYPENAME then "i" else k;
    RenamedFits(name);
    RenamedSplits();
    OneRoot(ALL - {ClientKeys}, name, ft, RENAMED, 0);
    AliasedKeys();
    ClashRefused(RENAMED, TypenameField, DISGUISED);
    Refused(ft, RENAMED, 0);
  }

  // ----- answered sub-queries

  /** What the owner of a root field replies. */
  lemma {:induction false} RootReply(ft: Fetch, f: Field, owner: nat)
    requires Served(ft, SUP, STORE, 0)
    ensures var r := ft(RootRequest(OP, owner, PrintedAll(ENGINE, owner, [f])));
            var c := SubCtx(RUN, owner);
            || r == Answer(None, 1)
            || r == Answer(Some(map[f.Key() := Complete(c, Resolve(c, 0, f), Printed(ENGINE, owner, f).sels)]), 0)
  {
    var g := Printed(ENGINE, owner, f);
    var req := RootRequest(OP, owner, [g]);
    assert [f][1..] == [] && PrintedAll(ENGINE, owner, [f]) == [g];
    assert Bind(req.defs, req.vars) == map[];
    EvalOne(SubCtx(RUN, owner), 0, g);
  }

  lemma {:induction false} NothingToDo(ft: Fetch, e: Engine, op: Operation, rv: Name, k: Name, fs: seq<Field>, owner: nat, j: Json)
    requires fs != [] && RootOwner(e, fs[0].name) == Some(owner)
    requires ft(RootRequest(op, owner, PrintedAll(e, owner, fs))) == Answer(Some(map[k := j]), 0)
    requires forall n :: n in FieldsNodes(e, owner, fs) ==> Walk(Obj(map[k := j]), n.path) == []
    ensures RunRoot(ft, e, op, rv, k, fs) == Value(j)
  {
    var values := [Obj(map[k := j])];
    forall n | n in FieldsNodes(e, owner, fs) ensures WalkAll(values, n.path) == [] {
      assert values[1..] == [];
    }
    NoneFound(ft, op, rv, values, FieldsNodes(e, owner, fs));
    ValueRun(ft, e, op, rv, k, fs, owner, map[k := j], j);
  }

  /** With nothing to resolve, the client gets what the owner replied. */
  lemma {:induction false} Unresolved(ft: Fetch, f: Field, owner: nat, j: Json)
    requires Served(ft, SUP, STORE, 0) && f.name in {"u", "n", "v"} && RootOwner(ENGINE, f.name) == Some(owner)
    requires j == Complete(SubCtx(RUN, owner), Resolve(SubCtx(RUN, owner), 0, f), Printed(ENGINE, owner, f).sels)
    requires forall n :: n in FieldsNodes(ENGINE, owner, [f]) ==> Walk(Obj(map[f.Key() := j]), n.path) == []
    ensures RunRoot(ft, ENGINE, OP, REPS_VAR, f.Key(), [f]) in [FieldError, Value(j)]
  {
    RootReply(ft, f, owner);
    if ft(RootRequest(OP, owner, PrintedAll(ENGINE, owner, [f]))) == Answer(None, 1) {
      RefusedIsNull(ft, ENGINE, OP, REPS_VAR, f.Key(), [f], owner, 1);
    } else {
      NothingToDo(ft, ENGINE, OP, REPS_VAR, f.Key(), [f], owner, j);
    }
  }

  lemma {:induction false} RootAnswer(f: Field, owner: nat)
    requires f.name in {"u", "n", "v"} && RootOwner(ENGINE, f.name) == Some(owner)
    ensures f.name != TYPENAME && Resolve(SubCtx(RUN, owner), 0, f) == RRef(1)
  {
    Letters();
    assert ENGINE.owners[("Query", f.name)] == if f.name == "v" then [1] else [0];
    Fields("Query", f.name);
    assert CanResolve(SUP, owner, "Query", f.name);
  }

  /** The response differs when what the client gets does. */
  lemma {:induction false} Misanswered(ft: Fetch, f: Field, j: Json)
    requires f.name in {"u", "n", "v"} && RootOwner(ENGINE, f.name).Some?
    requires RunRoot(ft, ENGINE, OP, REPS_VAR, f.Key(), [f]) in [FieldError, Value(j)]
    requires HasField(QUERY, f.name) && Project(SCHEMA, j, SCHEMA.fieldTy[(QUERY, f.name)], f.sels) != Complete(CTX, RRef(1), f.sels)
    ensures Obj(Execute(ft, SUP, OP, REPS_VAR, [F(f)])) != Complete(CTX, RRef(0), [F(f)])
  {
    NotRight(RunRoot(ft, ENGINE, OP, REPS_VAR, f.Key(), [f]), f, j);
    RootResolved(f);
    ExecuteOne(ft, f);
    WrongValue(ft, f, Stitched(RunRoot(ft, ENGINE, OP, REPS_VAR, f.Key(), [f]), f));
  }

  lemma {:induction false} NotRight(v: RootValue, f: Field, j: Json)
    requires v in [FieldError, Value(j)] && HasField(QUERY, f.name)
    requires (QUERY, f.name) in SCHEMA.fieldTy ==> Project(SCHEMA, j, SCHEMA.fieldTy[(QUERY, f.name)], f.sels) != Complete(CTX, RRef(1), f.sels)
    ensures (QUERY, f.name) in SCHEMA.fieldTy && Stitched(v, f) != Complete(CTX, RRef(1), f.sels)
  {
    Fields(QUERY, f.name);
  }

  /** A leaf the fetched object lacks or has null for is null. */
  lemma {:induction false} ProjectsNull(m: map<Name, Json>, ty: Name)
    requires "e" in m ==> m["e"] == Null
    ensures Project(SCHEMA, Obj(m), ty, [F(Leaf("e"))]) != Obj(map["e" := Str("x")])
  {
    var e := Leaf("e");
    if SCHEMA.Composite(ty) && (SCHEMA.IsObject(ty) || (TYPENAME in m && m[TYPENAME].Str?)) {
      var t := if SCHEMA.IsObject(ty) then ty else m[TYPENAME].s;
      CollectOne(SCHEMA.ps, t, e);
      Letters();
      assert e in [e] && "e" in Keys([e]);
      assert ProjectKey(SCHEMA, m, t, [e], "e") == Null;
      assert ProjectObj(SCHEMA, m, t, [e])["e"] == Null;
    }
  }

  lemma {:induction false} StoreEmail()
    ensures Complete(CTX, RRef(1), [F(Leaf("e"))]) == Obj(map["e" := Str("x")])
  {
    Letters();
    CompleteOne(CTX, 1, Leaf("e"));
  }

  lemma {:induction false} WithTwo(f: Field, g: Field)
    requires f.Key() != g.Key()
    ensures With([f, g], g.Key()) == [g] && With([f, g], f.Key()) == [f] && Keys([f, g]) == {f.Key(), g.Key()}
  {
    assert [f, g][1..] == [g] && [g][1..] == [];
  }

  // { n { e } }, where subgraph 0 declares e of U as external

  const FACADE := Branch("n", "N", [F(Leaf("e"))])

  lemma {:induction false} FacadeFits()
    ensures Typed(SCHEMA, QUERY, [F(FACADE)]) && Clean([F(FACADE)]) && Plain(SAME, [F(FACADE)]) && !IsMeta("n")
    ensures LeafCuts(ENGINE, 0, FACADE.sels)
  {
    Types("N", "e");
    Types(QUERY, "n");
    Kinds("N");
    LeafShape("N", "e");
    BranchShape(QUERY, FACADE, SAME);
  }

  lemma {:induction false} FacadeSplits()
    ensures RootOwner(ENGINE, "n") == Some(0) && Splits(ALL - {ThroughAbstract}, SUP, 0, "N", FACADE.sels)
  {
    var e := Leaf("e");
    Letters();
    Kinds("N");
    OneSel(F(e));
    assert SplitsSel(ALL - {ThroughAbstract}, SUP, 0, "N", F(e));
  }

  lemma {:induction false} FacadePlan()
    ensures FieldsNodes(ENGINE, 0, [FACADE]) == []
    ensures Printed(ENGINE, 0, FACADE).sels == [F(TypenameField), F(Leaf("e"))]
  {
    var e := Leaf("e");
    OneSel(F(e));
    assert ENGINE.Local(0, "N", e) && Printed(ENGINE, 0, e) == e by { Letters(); }
    CutsNeedEntity(ENGINE, 0, "N", FACADE.sels);
    assert Nodes(ENGINE, 0, "N", FACADE.sels) == [] && [FACADE][1..] == [];
    assert LocalText(ENGINE, 0, "N", FACADE.sels) == [F(e)] + [];
  }

  lemma {:induction false} FacadeReply()
    ensures var c := SubCtx(RUN, 0);
            var j := Complete(c, Resolve(c, 0, FACADE), [F(TypenameField), F(Leaf("e"))]);
            j.Obj? && "e" in j.fields && j.fields["e"] == Null
  {
    var c, e := SubCtx(RUN, 0), Leaf("e");
    Letters();
    RootAnswer(FACADE, 0);
    assert [F(TypenameField), F(e)][1..] == [F(e)];
    CollectOne(SCHEMA.ps, "U", e);
    assert Collect(SCHEMA.ps, "U", [F(TypenameField), F(e)]) == [TypenameField, e];
    WithTwo(TypenameField, e);
    ExternalIsNull();
    assert EvalObj(c, 1, [TypenameField, e])["e"] == Complete(c, Resolve(c, 1, e), Subs([e]));
  }

  lemma {:induction false} ExternalIsNull()
    ensures Resolve(SubCtx(RUN, 0), 1, Leaf("e")) == RNull
  {
    Letters();
    Owners("e");
    assert !CanResolve(SUP, 0, "U", "e");
  }

  /** A field owned elsewhere, selected through an interface: the planner
      keeps it local, and the asked subgraph has only null for it. */
  lemma {:induction false} ExternalThroughInterface(ft: Fetch)
    requires Served(ft, SUP, STORE, 0)
    ensures Setting(ALL - {ThroughAbstract}, RUN, 0, ft, OP, REPS_VAR, [F(FACADE)])
    ensures Obj(Execute(ft, SUP, OP, REPS_VAR, [F(FACADE)])) != Complete(CTX, RRef(0), [F(FACADE)])
  {
    FacadeFits();
    FacadeSplits();
    FacadePlan();
    OneRoot(ALL - {ThroughAbstract}, SAME, ft, FACADE, 0);
    Unresolved(ft, FACADE, 0, FacadeJson());
    FacadeValue();
    Misanswered(ft, FACADE, FacadeJson());
  }

  function FacadeJson(): Json {
    Complete(SubCtx(RUN, 0), Resolve(SubCtx(RUN, 0), 0, FACADE), Printed(ENGINE, 0, FACADE).sels)
  }

  lemma {:induction false} FacadeIs()
    ensures FacadeJson().Obj? && "e" in FacadeJson().fields && FacadeJson().fields["e"] == Null
  {
    FacadePlan();
    FacadeReply();
  }

  lemma {:induction false} FacadeValue()
    ensures HasField(QUERY, "n") && Project(SCHEMA, FacadeJson(), SCHEMA.fieldTy[(QUERY, "n")], FACADE.sels) != Complete(CTX, RRef(1), FACADE.sels)
  {
    FacadeIs();
    Types(QUERY, "n");
    ProjectsNull(FacadeJson().fields, "N");
    StoreEmail();
  }

  // { u { ... on N { f { e } } } }: every `U` is an `N`, none is named so

  const FRIEND := Branch("f", "U", [F(Leaf("e"))])

  const GUARDED := Branch("u", "U", [Frag("N", [], [F(FRIEND)])])

  lemma {:induction false} GuardedFits()
    ensures Typed(SCHEMA, QUERY, [F(GUARDED)]) && Clean([F(GUARDED)]) && Plain(SAME, [F(GUARDED)]) && !IsMeta("u")
    ensures LeafCuts(ENGINE, 0, GUARDED.sels)
  {
    Types("U", "e");
    Types("N", "f");
    Types(QUERY, "u");
    Kinds("N");
    Kinds("U");
    LeafShape("U", "e");
    BranchShape("N", FRIEND, SAME);
    FragShape("U", GUARDED.sels[0], SAME);
    BranchShape(QUERY, GUARDED, SAME);
    Owners("f");
    BranchCuts(0, FRIEND);
  }

  lemma {:induction false} EmailForeign()
    ensures !ENGINE.Local(0, "U", Leaf("e")) && ENGINE.Target("U", Leaf("e")) == 1
  {
    Letters();
    Owners("e");
    assert ENGINE.PickTarget("U", [1]) == Some(1);
  }

  lemma {:induction false} EmailText()
    ensures Text(ENGINE, 0, "U", FRIEND.sels) == [F(TypenameField), F(KeyField("i"))]
  {
    var e := Leaf("e");
    OneSel(F(e));
    EmailForeign();
    assert Cuts(ENGINE, 0, "U", FRIEND.sels) == [e] + [] && LocalText(ENGINE, 0, "U", FRIEND.sels) == [] + [];
    OneCutKeys(e);
    assert ["i"][1..] == [] && KeyText(["i"]) == [F(KeyField("i"))] + [];
  }

  lemma {:induction false} EmailSplits(rules: set<Rule>)
    ensures Splits(rules, SUP, 0, "U", FRIEND.sels)
  {
    OneSel(F(Leaf("e")));
    LeafSplits(rules, 0, "U", "e");
  }

  /** A leaf on an object type below the root splits. */
  lemma {:induction false} LeafSplits(rules: set<Rule>, sg: nat, t: Name, name: Name)
    requires t in ["U", "P"]
    ensures SplitsSel(rules, SUP, sg, t, F(Leaf(name)))
  {
    Letters();
    Kinds(t);
  }

  /** So does a field `sg` owns on an object type or on `N`. */
  lemma {:induction false} BranchSplits(rules: set<Rule>, sg: nat, t: Name, f: Field)
    requires t in ["U", "N"] && ENGINE.Local(sg, "U", f) && Splits(rules, SUP, sg, f.ty, f.sels)
    ensures SplitsSel(rules, SUP, sg, t, F(f))
  {
    Letters();
    Kinds(t);
    assert ENGINE.Local(sg, t, f);
  }

  lemma {:induction false} GuardedSplits()
    ensures RootOwner(ENGINE, "u") == Some(0) && Splits(ALL - {Decidable}, SUP, 0, "U", GUARDED.sels)
  {
    var rules := ALL - {Decidable};
    Owners("f");
    EmailSplits(rules);
    OneSel(F(FRIEND));
    OneSel(GUARDED.sels[0]);
    BranchSplits(rules, 0, "N", FRIEND);
    assert SplitsSel(rules, SUP, 0, "U", GUARDED.sels[0]);
  }

  /** The fetch for `e` hangs below the condition. */
  lemma {:induction false} GuardedPaths(n: FetchNode)
    requires n in FieldsNodes(ENGINE, 0, [GUARDED])
    ensures |n.path| >= 2 && n.path[0] == Key("u") && n.path[1] == TypeCond("N")
  {
    var x := GUARDED.sels[0];
    OneSel(x);
    assert [GUARDED][1..] == [];
    assert Cuts(ENGINE, 0, "U", GUARDED.sels) == [] && Groups(ENGINE, "U", []) == [];
    assert LocalNodes(ENGINE, 0, "U", GUARDED.sels) == SelNodes(ENGINE, 0, "U", x) + [];
    assert "N"[0] == 'N' && "U"[0] == 'U';
    PrefixHeads(TypeCond("N"), Nodes(ENGINE, 0, "N", x.fsels));
    PrefixHeads(Key("u"), Nodes(ENGINE, 0, "U", GUARDED.sels));
    assert Nodes(ENGINE, 0, "U", GUARDED.sels) == Prefix(TypeCond("N"), Nodes(ENGINE, 0, "N", x.fsels)) + [];
    assert FieldsNodes(ENGINE, 0, [GUARDED]) == Prefix(Key("u"), Nodes(ENGINE, 0, "U", GUARDED.sels)) + [];
    assert n.path[1..][0] == TypeCond("N");
  }

  /** What a fragment between two fields collects. */
  lemma {:induction false} CollectAround(ps: Poss, t: Name, a: Field, cond: Name, inner: seq<Sel>, after: seq<Sel>)
    requires Applies(ps, t, cond)
    ensures Collect(ps, t, [F(a), Frag(cond, [], inner)] + after) == [a] + Collect(ps, t, inner) + Collect(ps, t, after)
  {
    var y := Frag(cond, [], inner);
    var all := [F(a), y] + after;
    assert all[1..] == [y] + after && ([y] + after)[1..] == after;
    assert Collect(ps, t, [y] + after) == Collect(ps, t, inner) + Collect(ps, t, after);
  }

  lemma {:induction false} CollectTwo(ps: Poss, t: Name, a: Field, b: Field)
    ensures Collect(ps, t, [F(a), F(b)]) == [a, b]
  {
    assert [F(a), F(b)][1..] == [F(b)];
    CollectOne(ps, t, b);
  }

  lemma {:induction false} GuardedPrinted()
    ensures Printed(ENGINE, 0, GUARDED).sels ==
            [F(TypenameField), Frag("N", [], [F(TypenameField), F(Printed(ENGINE, 0, FRIEND))])]
  {
    var x := GUARDED.sels[0];
    var g := Printed(ENGINE, 0, FRIEND);
    var y := Frag("N", [], [F(TypenameField), F(g)]);
    OneSel(x);
    OneSel(F(FRIEND));
    assert ENGINE.Local(0, "N", FRIEND) by { Letters(); }
    CutsNeedEntity(ENGINE, 0, "N", x.fsels);
    assert LocalText(ENGINE, 0, "N", x.fsels) == [F(g)] + [];
    assert Text(ENGINE, 0, "N", x.fsels) == [F(TypenameField), F(g)];
    assert LocalText(ENGINE, 0, "U", GUARDED.sels) == [y] + [];
    assert Cuts(ENGINE, 0, "U", GUARDED.sels) == [];
    assert Text(ENGINE, 0, "U", GUARDED.sels) == [F(TypenameField), y];
  }

  lemma {:induction false} InN()
    ensures Applies(SCHEMA.ps, "U", "N") && Applies(SCHEMA.ps, "U", "U")
  {
    Kinds("N");
    Kinds("U");
  }

  /** What subgraph 0 is asked about object 1. */
  lemma {:induction false} GuardedText()
    ensures Collect(SCHEMA.ps, "U", Printed(ENGINE, 0, GUARDED).sels) == [TypenameField, TypenameField, Printed(ENGINE, 0, FRIEND)]
    ensures Collect(SCHEMA.ps, "U", GUARDED.sels) == [FRIEND]
  {
    var g := Printed(ENGINE, 0, FRIEND);
    GuardedPrinted();
    InN();
    CollectTwo(SCHEMA.ps, "U", TypenameField, g);
    CollectAround(SCHEMA.ps, "U", TypenameField, "N", [F(TypenameField), F(g)], []);
    assert [F(TypenameField), Frag("N", [], [F(TypenameField), F(g)])] + [] == Printed(ENGINE, 0, GUARDED).sels;
    OneSel(GUARDED.sels[0]);
    CollectOne(SCHEMA.ps, "U", FRIEND);
    assert Collect(SCHEMA.ps, "U", GUARDED.sels) == [FRIEND] + [];
  }

  function GuardedJson(): Json {
    Complete(SubCtx(RUN, 0), Resolve(SubCtx(RUN, 0), 0, GUARDED), Printed(ENGINE, 0, GUARDED).sels)
  }

  /** The friend's object arrives with the key but without `e`. */
  lemma {:induction false} FriendReply()
    ensures var j := Complete(SubCtx(RUN, 0), RRef(1), Printed(ENGINE, 0, FRIEND).sels);
            j.Obj? && "e" !in j.fields
  {
    var text := [F(TypenameField), F(KeyField("i"))];
    EmailText();
    assert text[1..] == [F(KeyField("i"))];
    CollectOne(SCHEMA.ps, "U", KeyField("i"));
    assert Collect(SCHEMA.ps, "U", text) == [TypenameField, KeyField("i")];
    FriendKeys();
    EvalKeys(SubCtx(RUN, 0), 1, [TypenameField, KeyField("i")]);
    FriendResolved();
  }

  lemma {:induction false} FriendKeys()
    ensures "e" !in Keys([TypenameField, KeyField("i")])
  {
    AliasedKeys();
    Letters();
    WithTwo(TypenameField, KeyField("i"));
  }

  lemma {:induction false} EvalKeys(c: Ctx, o: Oid, fs: seq<Field>)
    ensures EvalObj(c, o, fs).Keys == Keys(fs)
  {
  }

  /** The members of an object under two plain fields, one asked twice. */
  lemma {:induction false} EvalTypename(c: Ctx, o: Oid, g: Field)
    requires g.Key() != TYPENAME
    ensures var m := EvalObj(c, o, [TypenameField, TypenameField, g]);
            && TYPENAME in m && m[TYPENAME] == Str(c.w.typeOf(o))
            && g.Key() in m && m[g.Key()] == Complete(c, Resolve(c, o, g), g.sels)
  {
    var fs := [TypenameField, TypenameField, g];
    assert fs[1..] == [TypenameField, g];
    WithTwo(TypenameField, g);
    assert With(fs, TYPENAME) == [TypenameField, TypenameField] && With(fs, g.Key()) == [g];
    assert fs[0] in fs && fs[2] in fs;
    assert [g][1..] == [] && Subs([g]) == g.sels + Subs([]) && g.sels + [] == g.sels;
  }

  lemma {:induction false} GuardedReply()
    ensures var j := GuardedJson();
            && j.Obj?
            && TypeNameOf(j.fields) == Some("U")
            && "f" in j.fields
            && j.fields["f"] == Complete(SubCtx(RUN, 0), RRef(1), Printed(ENGINE, 0, FRIEND).sels)
  {
    RootAnswer(GUARDED, 0);
    GuardedText();
    FriendResolved();
    EvalTypename(SubCtx(RUN, 0), 1, Printed(ENGINE, 0, FRIEND));
  }

  lemma {:induction false} FriendResolved()
    ensures Resolve(SubCtx(RUN, 0), 1, Printed(ENGINE, 0, FRIEND)) == RRef(1) && Resolve(CTX, 1, FRIEND) == RRef(1)
    ensures SubCtx(RUN, 0).w.typeOf(1) == "U" == CTX.w.typeOf(1) && "f" != TYPENAME
  {
    Letters();
    Fields("U", "f");
    Owners("f");
    assert CanResolve(SUP, 0, "U", "f");
  }

  lemma {:induction false} GuardedStore()
    ensures Complete(CTX, RRef(1), GUARDED.sels) == Obj(map["f" := Obj(map["e" := Str("x")])])
  {
    GuardedText();
    FriendResolved();
    StoreEmail();
    EvalOne(CTX, 1, FRIEND);
  }

  lemma {:induction false} GuardedValue()
    ensures HasField(QUERY, "u")
    ensures Project(SCHEMA, GuardedJson(), SCHEMA.fieldTy[(QUERY, "u")], GUARDED.sels) != Complete(CTX, RRef(1), GUARDED.sels)
  {
    Types(QUERY, "u");
    GuardedReply();
    FriendReply();
    var m := GuardedJson().fields;
    ProjectsNull(m["f"].fields, "U");
    GuardedProject(m);
    GuardedStore();
    assert map["f" := Project(SCHEMA, m["f"], "U", FRIEND.sels)]["f"] != Obj(map["e" := Str("x")]);
  }

  lemma {:induction false} GuardedProject(m: map<Name, Json>)
    requires "f" in m
    ensures Project(SCHEMA, Obj(m), "U", GUARDED.sels) == Obj(map["f" := Project(SCHEMA, m["f"], "U", FRIEND.sels)])
  {
    FriendResolved();
    Kinds("U");
    Types("U", "f");
    GuardedText();
    ProjectOne(SCHEMA, m, "U", GUARDED.sels, FRIEND);
  }

  /** A fetch below an abstract condition: the walk compares the condition
      with `__typename`, finds nothing, and the entity is never fetched. */
  lemma {:induction false} AbstractCondition(ft: Fetch)
    requires Served(ft, SUP, STORE, 0)
    ensures Setting(ALL - {Decidable}, RUN, 0, ft, OP, REPS_VAR, [F(GUARDED)])
    ensures Obj(Execute(ft, SUP, OP, REPS_VAR, [F(GUARDED)])) != Complete(CTX, RRef(0), [F(GUARDED)])
  {
    GuardedFits();
    GuardedSplits();
    OneRoot(ALL - {Decidable}, SAME, ft, GUARDED, 0);
    forall n | n in FieldsNodes(ENGINE, 0, [GUARDED]) ensures Walk(Obj(map["u" := GuardedJson()]), n.path) == [] {
      GuardedPaths(n);
      GuardedReply();
      GuardedWalk(GuardedJson().fields, n.path);
    }
    Unresolved(ft, GUARDED, 0, GuardedJson());
    GuardedValue();
    Misanswered(ft, GUARDED, GuardedJson());
  }

  lemma {:induction false} GuardedWalk(m: map<Name, Json>, path: seq<Seg>)
    requires TypeNameOf(m) == Some("U") && |path| >= 2 && path[0] == Key("u") && path[1] == TypeCond("N")
    ensures Walk(Obj(map["u" := Obj(m)]), path) == []
  {
    assert "N"[0] == 'N' && "U"[0] == 'U' && path[1..][0] == path[1];
  }

  // { u { p { a } ... on U { p { b } } } }: one response key, two fetches

  const PA := Branch("p", "P", [F(Leaf("a"))])
  const PB := Branch("p", "P", [F(Leaf("b"))])

  const TORN := Branch("u", "U", [F(PA), Frag("U", [], [F(PB)])])

  lemma {:induction false} TornFits()
    ensures Typed(SCHEMA, QUERY, [F(TORN)]) && Clean([F(TORN)]) && Plain(SAME, [F(TORN)]) && !IsMeta("u")
  {
    Types("P", "a");
    Types("P", "b");
    Types("U", "p");
    Types(QUERY, "u");
    Kinds("P");
    Kinds("U");
    LeafShape("P", "a");
    LeafShape("P", "b");
    BranchShape("U", PA, SAME);
    BranchShape("U", PB, SAME);
    FragShape("U", TORN.sels[1], SAME);
    assert TORN.sels == [F(PA)] + [TORN.sels[1]];
    BranchShape(QUERY, TORN, SAME);
  }

  /** `p` is subgraph 1's, and so is everything below it. */
  lemma {:induction false} PartSplits(rules: set<Rule>, name: Name)
    ensures var f := Branch("p", "P", [F(Leaf(name))]);
            && !ENGINE.Local(0, "U", f) && ENGINE.Target("U", f) == 1
            && SplitsSel(rules, SUP, 0, "U", F(f))
            && Splits(rules, SUP, 1, "P", f.sels)
  {
    Letters();
    Kinds("U");
    Owners("p");
    assert ENGINE.PickTarget("U", [1]) == Some(1);
    OneSel(F(Leaf(name)));
    LeafSplits(rules, 1, "P", name);
  }

  lemma {:induction false} TornSplits()
    ensures RootOwner(ENGINE, "u") == Some(0) && Splits(ALL - {OneCut}, SUP, 0, "U", TORN.sels)
  {
    var rules := ALL - {OneCut};
    PartSplits(rules, "a");
    PartSplits(rules, "b");
    OneSel(F(PB));
    assert SplitsSel(rules, SUP, 0, "U", TORN.sels[1]);
    assert forall x :: x in TORN.sels ==> x == F(PA) || x == TORN.sels[1];
  }

  function PartNode(f: Field): FetchNode {
    FetchNode([Key("u")], Cut("U", 1, ["i"], [Printed(ENGINE, 1, f)], {}, []))
  }

  lemma {:induction false} PartCut(name: Name)
    ensures var f := Branch("p", "P", [F(Leaf(name))]);
            && Cuts(ENGINE, 0, "U", [F(f)]) == [f]
            && LocalText(ENGINE, 0, "U", [F(f)]) == []
            && LocalNodes(ENGINE, 0, "U", [F(f)]) == []
            && Groups(ENGINE, "U", [f]) == [Group(1, [f])]
            && KeyText(InjectedKeys(ENGINE, "U", Groups(ENGINE, "U", [f]), {})) == [F(KeyField("i"))]
  {
    var f := Branch("p", "P", [F(Leaf(name))]);
    PartSplits({}, name);
    OneSel(F(f));
    OneCutKeys(f);
    assert Cuts(ENGINE, 0, "U", [F(f)]) == [f] + [];
    assert ["i"][1..] == [] && KeyText(["i"]) == [F(KeyField("i"))] + [];
  }

  lemma {:induction false} PartText(name: Name)
    ensures var f := Branch("p", "P", [F(Leaf(name))]);
            && Printed(ENGINE, 1, f).sels == [F(TypenameField), F(Leaf(name))]
            && FieldsNodes(ENGINE, 1, [f]) == []
            && FieldsVars([Printed(ENGINE, 1, f)]) == {}
  {
    var f := Branch("p", "P", [F(Leaf(name))]);
    var x := Leaf(name);
    Letters();
    OneSel(F(x));
    assert ENGINE.Local(1, "P", x) && Printed(ENGINE, 1, x) == x;
    CutsNeedEntity(ENGINE, 1, "P", f.sels);
    assert LocalText(ENGINE, 1, "P", f.sels) == [F(x)] + [];
    assert Cuts(ENGINE, 1, "P", f.sels) == [] && Groups(ENGINE, "P", []) == [] && InjectedKeys(ENGINE, "P", [], {}) == [];
    assert FieldNodes(ENGINE, 1, x) == [] && SelNodes(ENGINE, 1, "P", F(x)) == [];
    assert LocalNodes(ENGINE, 1, "P", f.sels) == SelNodes(ENGINE, 1, "P", F(x)) + LocalNodes(ENGINE, 1, "P", f.sels[1..]);
    assert Nodes(ENGINE, 1, "P", f.sels) == [] && [f][1..] == [];
    assert Text(ENGINE, 1, "P", f.sels) == [F(TypenameField)] + [F(x)] + [];
    PartVars(name);
  }

  lemma {:induction false} PartVars(name: Name)
    ensures FieldsVars([Branch("p", "P", [F(TypenameField), F(Leaf(name))])]) == {}
  {
    var g := Branch("p", "P", [F(TypenameField), F(Leaf(name))]);
    assert g.sels[1..] == [F(Leaf(name))] && [g][1..] == [];
    OneSel(F(Leaf(name)));
    assert FieldVars(TypenameField) == {} && FieldVars(Leaf(name)) == {};
    assert SelsVars(g.sels) == SelVars(F(TypenameField)) + SelsVars([F(Leaf(name))]);
  }

  lemma {:induction false} PartFetch(name: Name)
    ensures var f := Branch("p", "P", [F(Leaf(name))]);
            Prefix(Key("u"), [CutNode(ENGINE, "U", Group(1, [f]))]) == [PartNode(f)]
  {
    var f := Branch("p", "P", [F(Leaf(name))]);
    var n := CutNode(ENGINE, "U", Group(1, [f]));
    PartText(name);
    assert [f][1..] == [] && PrintedAll(ENGINE, 1, [f]) == [Printed(ENGINE, 1, f)];
    assert ENGINE.KeysOf("U", 1) == ["i"];
    assert [n][1..] == [] && [Key("u")] + [] == [Key("u")];
  }

  lemma {:induction false} PrefixAppend(seg: Seg, a: seq<FetchNode>, b: seq<FetchNode>)
    ensures Prefix(seg, a + b) == Prefix(seg, a) + Prefix(seg, b)
  {
    if a == [] {
      assert a + b == b;
    } else {
      assert (a + b)[1..] == a[1..] + b;
      PrefixAppend(seg, a[1..], b);
    }
  }

  lemma {:induction false} TornInner()
    ensures LocalNodes(ENGINE, 0, "U", [TORN.sels[1]]) == [CutNode(ENGINE, "U", Group(1, [PB]))]
  {
    var b := CutNode(ENGINE, "U", Group(1, [PB]));
    OneSel(TORN.sels[1]);
    PartCut("b");
    assert [Group(1, [PB])][1..] == [];
    assert CutNodes(ENGINE, "U", [Group(1, [PB])]) == [b] + [];
    assert Nodes(ENGINE, 0, "U", [F(PB)]) == [] + [b];
  }

  lemma {:induction false} TornCuts()
    ensures Groups(ENGINE, "U", Cuts(ENGINE, 0, "U", TORN.sels)) == [Group(1, [PA])]
    ensures LocalNodes(ENGINE, 0, "U", TORN.sels) == LocalNodes(ENGINE, 0, "U", [TORN.sels[1]])
  {
    var x := TORN.sels[1];
    assert TORN.sels[1..] == [x];
    PartSplits({}, "a");
    PartCut("a");
    OneSel(x);
    assert Cuts(ENGINE, 0, "U", TORN.sels) == [PA] + Cuts(ENGINE, 0, "U", [x]);
    assert LocalNodes(ENGINE, 0, "U", TORN.sels) == [] + LocalNodes(ENGINE, 0, "U", [x]);
  }

  lemma {:induction false} TornOuter()
    ensures Nodes(ENGINE, 0, "U", TORN.sels) == [CutNode(ENGINE, "U", Group(1, [PB]))] + [CutNode(ENGINE, "U", Group(1, [PA]))]
  {
    TornCuts();
    TornInner();
    CutNodesAt(ENGINE, "U", [Group(1, [PA])]);
    assert CutNodes(ENGINE, "U", [Group(1, [PA])]) == [CutNode(ENGINE, "U", Group(1, [PA]))];
  }

  lemma {:induction false} TornNodes()
    ensures FieldsNodes(ENGINE, 0, [TORN]) == [PartNode(PB), PartNode(PA)]
  {
    var a, b := CutNode(ENGINE, "U", Group(1, [PA])), CutNode(ENGINE, "U", Group(1, [PB]));
    TornOuter();
    PrefixAppend(Key("u"), [b], [a]);
    PartFetch("a");
    PartFetch("b");
    assert [TORN][1..] == [] && FieldsNodes(ENGINE, 0, [TORN]) == Prefix(Key("u"), [b] + [a]) + [];
  }

  lemma {:induction false} TornPrinted()
    ensures Printed(ENGINE, 0, TORN).sels ==
            [F(TypenameField), Frag("U", [], [F(TypenameField), F(KeyField("i"))])] + [F(KeyField("i"))]
  {
    var x := TORN.sels[1];
    var inner := [F(TypenameField), F(KeyField("i"))];
    var y := Frag("U", [], inner);
    assert TORN.sels[1..] == [x];
    OneSel(x);
    PartSplits({}, "a");
    PartCut("a");
    PartCut("b");
    assert Text(ENGINE, 0, "U", [F(PB)]) == inner;
    assert LocalText(ENGINE, 0, "U", [x]) == [y] + [];
    assert LocalText(ENGINE, 0, "U", TORN.sels) == [] + LocalText(ENGINE, 0, "U", [x]);
    assert Cuts(ENGINE, 0, "U", TORN.sels) == [PA] + Cuts(ENGINE, 0, "U", [x]);
  }

  lemma {:induction false} TornText()
    ensures Collect(SCHEMA.ps, "U", Printed(ENGINE, 0, TORN).sels) == [TypenameField, TypenameField, KeyField("i"), KeyField("i")]
    ensures Collect(SCHEMA.ps, "U", TORN.sels) == [PA, PB]
  {
    var k := KeyField("i");
    TornPrinted();
    InN();
    CollectTwo(SCHEMA.ps, "U", TypenameField, k);
    CollectOne(SCHEMA.ps, "U", k);
    CollectOne(SCHEMA.ps, "U", PB);
    CollectAround(SCHEMA.ps, "U", TypenameField, "U", [F(TypenameField), F(k)], [F(k)]);
    CollectAround(SCHEMA.ps, "U", PA, "U", [F(PB)], []);
    assert TORN.sels + [] == TORN.sels;
  }

  /** Two fetches at one object: each merges on top of the one before. */
  lemma {:induction false} TwoFetches(ft: Fetch, op: Operation, rv: Name, k: Name, m: map<Name, Json>, a: FetchNode, b: FetchNode,
                                      ma: map<Name, Json>, mb: map<Name, Json>)
    requires a.path == [Key(k)] == b.path && RepOf(m, a.cut).Some? && RepOf(m, b.cut).Some?
    requires FetchCut(ft, op, rv, [RepOf(m, a.cut).value], a.cut).values == [Obj(ma)]
    requires FetchCut(ft, op, rv, [RepOf(m, b.cut).value], b.cut).values == [Obj(mb)]
    ensures ResolveNodes(ft, op, rv, [Obj(map[k := Obj(m)])], [a, b]).values == [Obj(map[k := Obj(m + ma + mb)])]
  {
    var values := [Obj(map[k := Obj(m)])];
    assert [a, b][..1] == [a] && [a][..0] == [];
    OneWalk(k, m, a.cut);
    OneWalk(k, m, b.cut);
    var outs := FetchAll(ft, op, rv, values, [a, b]);
    assert FetchAll(ft, op, rv, values, [a]) == [] + [FetchCut(ft, op, rv, [RepOf(m, a.cut).value], a.cut)];
    assert outs == FetchAll(ft, op, rv, values, [a]) + [FetchCut(ft, op, rv, [RepOf(m, b.cut).value], b.cut)];
    OneMerge(k, m, ma);
    assert Align([RepOf(m, a.cut)], [Obj(ma)]) == [Some(ma)] by { assert [RepOf(m, a.cut)][1..] == []; }
    assert Align([RepOf(m, b.cut)], [Obj(mb)]) == [Some(mb)] by { assert [RepOf(m, b.cut)][1..] == []; }
    assert outs[..1] == [outs[0]] && [outs[0]][..0] == [];
    assert MergeNodes(values, [a], [outs[0]]).values == [Obj(map[k := Obj(m + ma)])];
    OneWalk(k, m + ma, b.cut);
    OneMerge(k, m + ma, mb);
  }

  lemma {:induction false} OneWalk(k: Name, m: map<Name, Json>, cut: Cut)
    ensures var values := [Obj(map[k := Obj(m)])];
            && WalkAll(values, [Key(k)]) == [m]
            && RepsOf(WalkAll(values, [Key(k)]), cut) == [RepOf(m, cut)]
            && (RepOf(m, cut).Some? ==> Present([RepOf(m, cut)]) == [RepOf(m, cut).value])
  {
    var values := [Obj(map[k := Obj(m)])];
    assert values[1..] == [] && [Key(k)][1..] == [] && [RepOf(m, cut)][1..] == [];
    assert Walk(values[0], [Key(k)]) == Walk(Obj(m), []) == [m];
    assert WalkAll(values, [Key(k)]) == [m] + [];
  }

  lemma {:induction false} OneMerge(k: Name, m: map<Name, Json>, more: map<Name, Json>)
    ensures var values := [Obj(map[k := Obj(m)])];
            && |WalkAll(values, [Key(k)])| == 1
            && MergeList(values, [Key(k)], [Some(more)]) == [Obj(map[k := Obj(m + more)])]
  {
    var values := [Obj(map[k := Obj(m)])];
    OneWalk(k, m, Cut("", 0, [], [], {}, []));
    assert values[1..] == [] && [Key(k)][1..] == [] && [Some(more)][..1] == [Some(more)];
    assert map[k := Obj(m)][k := Obj(m + more)] == map[k := Obj(m + more)];
    assert MergeList(values, [Key(k)], [Some(more)]) == [Merge(values[0], [Key(k)], [Some(more)])] + [];
  }

  // what the two subgraphs reply

  function TornObject(): map<Name, Json> {
    EvalObj(SubCtx(RUN, 0), 1, [TypenameField, TypenameField, KeyField("i"), KeyField("i")])
  }

  lemma {:induction false} TornMembers()
    ensures var m := TornObject();
            && TypeNameOf(m) == Some("U")
            && "g2__i" in m && m["g2__i"] == Str("x")
  {
    var c := SubCtx(RUN, 0);
    var k := KeyField("i");
    var fs := [TypenameField, TypenameField, k, k];
    AliasedKeys();
    Letters();
    KeyResolved();
    Doubled(TypenameField, k);
    assert fs[0] in fs && fs[2] in fs;
    assert EvalObj(c, 1, fs)[TYPENAME] == Complete(c, Resolve(c, 1, TypenameField), Subs([TypenameField, TypenameField]));
    assert EvalObj(c, 1, fs)["g2__i"] == Complete(c, Resolve(c, 1, k), Subs([k, k]));
  }

  lemma {:induction false} Doubled(f: Field, g: Field)
    requires f.Key() != g.Key()
    ensures With([f, f, g, g], f.Key()) == [f, f] && With([f, f, g, g], g.Key()) == [g, g]
  {
    assert [f, f, g, g][1..] == [f, g, g] && [f, g, g][1..] == [g, g] && [g, g][1..] == [g] && [g][1..] == [];
    assert With([g], g.Key()) == [g] && With([g], f.Key()) == [];
    assert With([g, g], g.Key()) == [g] + [g] && With([g, g], f.Key()) == [];
    assert With([f, g, g], g.Key()) == [g, g] && With([f, g, g], f.Key()) == [f] + [];
    assert With([f, f, g, g], f.Key()) == [f] + [f];
  }

  lemma {:induction false} KeyResolved()
    ensures Resolve(SubCtx(RUN, 0), 1, KeyField("i")) == RLeaf(Str("x")) && SubCtx(RUN, 0).w.typeOf(1) == "U"
  {
    Letters();
    Fields("U", "i");
    Owners("i");
    assert CanResolve(SUP, 0, "U", "i");
  }

  lemma {:induction false} KeyedRep(m: map<Name, Json>, cut: Cut)
    requires TypeNameOf(m) == Some("U") && "g2__i" in m && m["g2__i"] == Str("x")
    requires cut.typeName == "U" && cut.keyFields == ["i"]
    ensures RepOf(m, cut) == Some(REP)
  {
    AliasedKeys();
    assert ["i"][..0] == [] && KeyAlias("i") == "g2__i";
    assert KeyMembers(m, []) == Some(map[]);
    assert KeyMembers(m, ["i"]) == Some(map["i" := Str("x")]);
    assert map[TYPENAME := Str("U")] + map["i" := Str("x")] == map[TYPENAME := Str("U"), "i" := Str("x")];
  }

  lemma {:induction false} Found()
    ensures Find(STORE, "U", ["i"], REP) == Some(1)
  {
    Letters();
    assert Identifies(STORE, "U", ["i"], REP, 1);
  }

  lemma {:induction false} PartAsked(name: Name)
    requires name in ["a", "b"]
    ensures var f := Branch("p", "P", [F(Leaf(name))]);
            AskedField(SUP, 1, "U", f) && FieldVars(f) == {} && SameKeyMergeable(SCHEMA.ps, [f])
  {
    var f := Branch("p", "P", [F(Leaf(name))]);
    Types("P", name);
    Types("U", "p");
    Fields("U", "p");
    Kinds("P");
    LeafShape("P", name);
    BranchShape("U", f, SAME);
    PlainVars(SAME, [F(f)]);
    PlainMerges(SAME, SCHEMA.ps, [F(f)]);
    PlainMerges(SAME, SCHEMA.ps, f.sels);
    PartSplits(ALL, name);
    OneSel(F(f));
    CollectOne(SCHEMA.ps, "U", f);
    Letters();
    assert SelsVars([F(f)]) == SelVars(F(f)) + SelsVars([]);
    assert TypedSel(SCHEMA, "U", F(f));
    assert f in Collect(SCHEMA.ps, "U", [F(f)]) && Mergeable(SCHEMA.ps, f, f);
  }

  lemma {:induction false} PartOk(name: Name)
    requires name in ["a", "b"]
    ensures CutOk(SUP, {}, PartNode(Branch("p", "P", [F(Leaf(name))])).cut)
  {
    var f := Branch("p", "P", [F(Leaf(name))]);
    PartAsked(name);
    PartText(name);
    RunReady();
    KeysLeaves(RUN);
    FieldsValid(SUP, 1, "U", [f], {});
    assert [f][1..] == [] && PrintedAll(ENGINE, 1, [f]) == [Printed(ENGINE, 1, f)];
    assert ENGINE.KeysOf("U", 1) == ["i"];
    Letters();
  }

  function PartJson(name: Name): Json {
    Complete(SubCtx(RUN, 1), RRef(2), [F(TypenameField), F(Leaf(name))])
  }

  const REP: map<Name, Json> := map[TYPENAME := Str("U"), "i" := Str("x")]

  lemma {:induction false} PartEntity(name: Name)
    ensures RawEntity(RUN, PartNode(Branch("p", "P", [F(Leaf(name))])).cut, REP) == Obj(map["p" := PartJson(name)])
  {
    var f := Branch("p", "P", [F(Leaf(name))]);
    Found();
    PartText(name);
    PartResolved();
    EvalOne(SubCtx(RUN, 1), 1, Printed(ENGINE, 1, f));
  }

  lemma {:induction false} FetchOne(ft: Fetch, op: Operation, rv: Name, rep: map<Name, Json>, cut: Cut, e: Json)
    requires ft(EntityRequest(op, rv, cut, [rep])) == Answer(Some(map["_entities" := Arr([e])]), 0) && cut.children == []
    ensures FetchCut(ft, op, rv, [rep], cut).values == [e]
  {
  }

  lemma OneRaw(x: Run, cut: Cut, rep: map<Name, Json>)
    ensures RawEntities(x, cut, [rep]) == [RawEntity(x, cut, rep)]
  {
  }

  /** Subgraph 1 answers either fetch with its own part of `p`. */
  lemma {:induction false} PartReply(ft: Fetch, name: Name)
    requires Served(ft, SUP, STORE, 0) && name in ["a", "b"]
    ensures var cut := PartNode(Branch("p", "P", [F(Leaf(name))])).cut;
            FetchCut(ft, OP, REPS_VAR, [REP], cut).values == [Obj(map["p" := PartJson(name)])]
  {
    var cut := PartNode(Branch("p", "P", [F(Leaf(name))])).cut;
    PartOk(name);
    OpFacts();
    CutServed(RUN, 0, OP, REPS_VAR, cut, [REP]);
    PartEntity(name);
    OneRaw(RUN, cut, REP);
    FetchOne(ft, OP, REPS_VAR, REP, cut, Obj(map["p" := PartJson(name)]));
  }

  lemma {:induction false} OpFacts()
    ensures DefNames(OP.defs) == {} && Bind(OP.defs, OP.raw) == map[] && DistinctNames(OP.defs)
  {
  }

  lemma {:induction false} PartResolved()
    ensures forall f: Field :: f.name == "p" && f.args == [] ==> Resolve(SubCtx(RUN, 1), 1, f) == RRef(2) && Resolve(CTX, 1, f) == RRef(2)
  {
    Letters();
    Fields("U", "p");
    Owners("p");
    assert CanResolve(SUP, 1, "U", "p");
  }

  /** After both merges, `p` is what the second fetch brought. */
  lemma {:induction false} TornRun(ft: Fetch)
    requires Served(ft, SUP, STORE, 0)
    ensures RunRoot(ft, ENGINE, OP, REPS_VAR, "u", [TORN]) in
            [FieldError, Value(Obj(TornObject() + map["p" := PartJson("b")] + map["p" := PartJson("a")]))]
  {
    RootReply(ft, TORN, 0);
    TornSplits();
    if ft(RootRequest(OP, 0, PrintedAll(ENGINE, 0, [TORN]))) == Answer(None, 1) {
      RefusedIsNull(ft, ENGINE, OP, REPS_VAR, "u", [TORN], 0, 1);
    } else {
      TornData();
      TornResolved(ft);
      ValueRun(ft, ENGINE, OP, REPS_VAR, "u", [TORN], 0, map["u" := Obj(TornObject())],
               Obj(TornObject() + map["p" := PartJson("b")] + map["p" := PartJson("a")]));
    }
  }

  lemma {:induction false} TornResolved(ft: Fetch)
    requires Served(ft, SUP, STORE, 0)
    ensures ResolveNodes(ft, OP, REPS_VAR, [Obj(map["u" := Obj(TornObject())])], FieldsNodes(ENGINE, 0, [TORN])).values ==
            [Obj(map["u" := Obj(TornObject() + map["p" := PartJson("b")] + map["p" := PartJson("a")])])]
  {
    TornMembers();
    KeyedRep(TornObject(), PartNode(PA).cut);
    KeyedRep(TornObject(), PartNode(PB).cut);
    PartReply(ft, "a");
    PartReply(ft, "b");
    TwoFetches(ft, OP, REPS_VAR, "u", TornObject(), PartNode(PB), PartNode(PA), map["p" := PartJson("b")], map["p" := PartJson("a")]);
    TornNodes();
  }

  lemma {:induction false} ValueRun(ft: Fetch, e: Engine, op: Operation, rv: Name, k: Name, fs: seq<Field>, owner: nat,
                                    data: map<Name, Json>, j: Json)
    requires fs != [] && RootOwner(e, fs[0].name) == Some(owner)
    requires ft(RootRequest(op, owner, PrintedAll(e, owner, fs))) == Answer(Some(data), 0)
    requires ResolveNodes(ft, op, rv, [Obj(data)], FieldsNodes(e, owner, fs)).values == [Obj(map[k := j])]
    ensures RunRoot(ft, e, op, rv, k, fs) == Value(j)
  {
  }

  lemma {:induction false} TornData()
    ensures Complete(SubCtx(RUN, 0), Resolve(SubCtx(RUN, 0), 0, TORN), Printed(ENGINE, 0, TORN).sels) == Obj(TornObject())
  {
    TornSplits();
    RootAnswer(TORN, 0);
    TornText();
    KeyResolved();
  }

  /** The part of `p` for `a` does not hold `b`. */
  lemma {:induction false} PartMembers()
    ensures PartJson("a").Obj? && "b" !in PartJson("a").fields
  {
    var a := Leaf("a");
    Letters();
    assert [F(TypenameField), F(a)][1..] == [F(a)];
    CollectOne(SCHEMA.ps, "P", a);
    assert Collect(SCHEMA.ps, "P", [F(TypenameField), F(a)]) == [TypenameField, a];
    WithTwo(TypenameField, a);
    assert SubCtx(RUN, 1).w.typeOf(2) == "P";
    assert PartJson("a") == Obj(EvalObj(SubCtx(RUN, 1), 2, [TypenameField, a]));
  }

  lemma {:induction false} PairSubs()
    ensures With([PA, PB], "p") == [PA, PB] && Keys([PA, PB]) == {"p"} && Subs([PA, PB]) == [F(Leaf("a")), F(Leaf("b"))]
    ensures forall t :: Collect(SCHEMA.ps, t, [F(Leaf("a")), F(Leaf("b"))]) == [Leaf("a"), Leaf("b")]
  {
    assert [PA, PB][1..] == [PB] && [PB][1..] == [];
    assert PA in [PA, PB];
    assert With([PB], "p") == [PB] + [] && Subs([PB]) == PB.sels + [];
    assert Subs([PA, PB]) == PA.sels + Subs([PB]);
    forall t ensures Collect(SCHEMA.ps, t, [F(Leaf("a")), F(Leaf("b"))]) == [Leaf("a"), Leaf("b")] {
      assert [F(Leaf("a")), F(Leaf("b"))][1..] == [F(Leaf("b"))];
      CollectOne(SCHEMA.ps, t, Leaf("b"));
    }
  }

  lemma {:induction false} TornStore()
    ensures var j := Complete(CTX, RRef(1), TORN.sels);
            && j.Obj? && "p" in j.fields
            && j.fields["p"].Obj? && "b" in j.fields["p"].fields && j.fields["p"].fields["b"] == Str("x")
  {
    TornText();
    PairSubs();
    PartResolved();
    StorePart();
    assert CTX.w.typeOf(1) == "U";
    assert EvalObj(CTX, 1, [PA, PB])["p"] == Complete(CTX, RRef(2), [F(Leaf("a")), F(Leaf("b"))]);
  }

  lemma {:induction false} StorePart()
    ensures var j := Complete(CTX, RRef(2), [F(Leaf("a")), F(Leaf("b"))]);
            j.Obj? && "b" in j.fields && j.fields["b"] == Str("x")
  {
    LeafResolved();
    PairSubs();
    WithTwo(Leaf("a"), Leaf("b"));
    EvalSecond(CTX, 2, Leaf("a"), Leaf("b"));
  }

  lemma {:induction false} LeafResolved()
    ensures Resolve(CTX, 2, Leaf("b")) == RLeaf(Str("x")) && "a" != "b"
  {
    Letters();
  }

  lemma {:induction false} EvalSecond(c: Ctx, o: Oid, f: Field, g: Field)
    requires f.Key() != g.Key()
    ensures var m := EvalObj(c, o, [f, g]);
            g.Key() in m && m[g.Key()] == Complete(c, Resolve(c, o, g), Subs([g]))
  {
    WithTwo(f, g);
  }

  /** Stitching one response key that two fields share. */
  lemma {:induction false} StitchShared(s: Schema, m: map<Name, Json>, ty: Name, sels: seq<Sel>, a: Field, b: Field)
    requires s.IsObject(ty) && Collect(s.ps, ty, sels) == [a, b] && a.Key() == b.Key() && a.name != TYPENAME
    requires a.Key() in m && (ty, a.name) in s.fieldTy
    ensures var j := Project(s, Obj(m), ty, sels);
            j.Obj? && a.Key() in j.fields && j.fields[a.Key()] == Project(s, m[a.Key()], s.fieldTy[(ty, a.name)], Subs([a, b]))
  {
    assert a in [a, b] && [a, b][1..] == [b] && [b][1..] == [];
    assert With([b], a.Key()) == [b] + [] && With([a, b], a.Key()) == [a] + [b];
    ProjectMember(s, m, ty, sels, a.Key());
  }

  lemma {:induction false} TornTypes()
    ensures SCHEMA.IsObject("U") && ("U", "p") in SCHEMA.fieldTy && SCHEMA.fieldTy[("U", "p")] == "P" && "p" != TYPENAME
  {
    Letters();
    Kinds("U");
    Types("U", "p");
  }

  lemma {:induction false} TornStitch(m: map<Name, Json>)
    requires "p" in m && m["p"].Obj? && "b" !in m["p"].fields
    ensures var j := Project(SCHEMA, Obj(m), "U", TORN.sels);
            && j.Obj? && "p" in j.fields
            && (j.fields["p"].Obj? && "b" in j.fields["p"].fields ==> j.fields["p"].fields["b"] == Null)
  {
    TornTypes();
    TornText();
    PairSubs();
    PartStitch(m["p"].fields);
    StitchShared(SCHEMA, m, "U", TORN.sels, PA, PB);
  }

  lemma {:induction false} PartStitch(m: map<Name, Json>)
    requires "b" !in m
    ensures var j := Project(SCHEMA, Obj(m), "P", [F(Leaf("a")), F(Leaf("b"))]);
            j.Obj? && "b" in j.fields && j.fields["b"] == Null
  {
    Kinds("P");
    PairSubs();
    Letters();
    WithTwo(Leaf("a"), Leaf("b"));
    ProjectMember(SCHEMA, m, "P", [F(Leaf("a")), F(Leaf("b"))], "b");
  }

  /** Stitched from a `p` without `b`, the value is not the store's. */
  lemma {:induction false} TornLoses(m: map<Name, Json>)
    requires "p" in m && m["p"].Obj? && "b" !in m["p"].fields
    ensures Project(SCHEMA, Obj(m), "U", TORN.sels) != Complete(CTX, RRef(1), TORN.sels)
  {
    TornStitch(m);
    TornStore();
  }

  lemma {:induction false} TornValue()
    ensures HasField(QUERY, "u")
    ensures var j := Obj(TornObject() + map["p" := PartJson("b")] + map["p" := PartJson("a")]);
            Project(SCHEMA, j, SCHEMA.fieldTy[(QUERY, "u")], TORN.sels) != Complete(CTX, RRef(1), TORN.sels)
  {
    PartMembers();
    TornLoses(TornObject() + map["p" := PartJson("b")] + map["p" := PartJson("a")]);
    Types(QUERY, "u");
  }

  /** One response key with selections cut in two fetches: the merge
      replaces the member, and the first fetch's part is lost. */
  lemma {:induction false} LaterCutWins(ft: Fetch)
    requires Served(ft, SUP, STORE, 0)
    ensures Setting(ALL - {OneCut}, RUN, 0, ft, OP, REPS_VAR, [F(TORN)])
    ensures Obj(Execute(ft, SUP, OP, REPS_VAR, [F(TORN)])) != Complete(CTX, RRef(0), [F(TORN)])
  {
    TornFits();
    TornSplits();
    OneRoot(ALL - {OneCut}, SAME, ft, TORN, 0);
    TornRun(ft);
    TornValue();
    Misanswered(ft, TORN, Obj(TornObject() + map["p" := PartJson("b")] + map["p" := PartJson("a")]));
  }

  /** Composition accepts a key field of object type, though representations
      can only carry leaf values: leaf keys are an assumption, not a check. */
  lemma {:induction false} ObjectKeyAccepted(profile: C.FieldDef)
    requires C.Flat(profile.name)
    ensures var d := C.TypeDef(C.ObjectKind, Some(C.KeyDirective(Some(profile.name), true)), false, [], [], [profile], "");
            C.KeyAccepted(d) && C.KeyOf(d) == Some([profile.name])
  {
    var d := C.TypeDef(C.ObjectKind, Some(C.KeyDirective(Some(profile.name), true)), false, [], [], [profile], "");
    assert d.fields[0].name == profile.name;
    C.FlatKey(d, [profile.name]);
    assert C.Listed([profile.name]) == profile.name;
  }
}
