/** Every sub-query a plan sends is valid for the subgraph that receives it:
    its fields are declared there, its fields merge, and it declares exactly
    the variables it uses. */
module Subqueries {
  import opened Basics
  import opened GraphQl
  import opened Plan
  import opened PlanFacts
  import opened Exec
  import opened Federation

  // ----- validity against one subgraph

  /** `sels` is valid on type `p` of subgraph `sg`. */
  ghost predicate WellFormed(s: Sup, sg: nat, p: Name, sels: seq<Sel>)
    decreases DepthOf(sels), 1
  {
    forall x :: x in sels ==> (DepthMember(sels, x); WellFormedSel(s, sg, p, x))
  }

  ghost predicate WellFormedSel(s: Sup, sg: nat, p: Name, x: Sel)
    decreases Depth(x), 0
  {
    match x
    case F(f) =>
      assert Depth(x) == DepthF(f);
      if IsMeta(f.name) then f.name == TYPENAME && f.sels == []
      else
        && s.Declares(sg, p, f.name)
        && (f.sels == [] <==> !s.schema.Composite(s.decl[sg][(p, f.name)]))
        && WellFormed(s, sg, s.decl[sg][(p, f.name)], f.sels)
    case Frag(cond, _, sub) => s.Defines(sg, cond) && WellFormed(s, sg, cond, sub)
  }

  ghost predicate WellFormedFields(s: Sup, sg: nat, t: Name, fs: seq<Field>) {
    forall f :: f in fs ==> WellFormedSel(s, sg, t, F(f))
  }

  /** A fetch and all fetches below it are valid where they are sent, and
      use no variables but the client's `vs`. */
  ghost predicate CutOk(s: Sup, vs: set<Name>, cut: Cut)
    decreases cut, 0
  {
    && WellFormedFields(s, cut.subgraph, cut.typeName, cut.text)
    && SameKeyMergeable(s.schema.ps, cut.text)
    && cut.vars == FieldsVars(cut.text)
    && cut.vars <= vs
    && cut.keyFields == s.e.KeysOf(cut.typeName, cut.subgraph)
    && s.e.HasKey(cut.typeName, cut.subgraph)
    && NodesOk(s, vs, cut.children)
  }

  ghost predicate NodesOk(s: Sup, vs: set<Name>, ns: seq<FetchNode>)
    decreases ns, 1
  {
    forall n :: n in ns ==> CutOk(s, vs, n.cut)
  }

  lemma {:induction false} PrefixOk(s: Sup, vs: set<Name>, seg: Seg, ns: seq<FetchNode>)
    requires NodesOk(s, vs, ns)
    ensures NodesOk(s, vs, Prefix(seg, ns))
  {
    if ns != [] {
      assert ns[0] in ns;
      PrefixOk(s, vs, seg, ns[1..]);
    }
  }

  // ----- what is asked of the client's selection

  /** Each selection set of the document merges on its own. */
  ghost predicate MergesEverywhere(ps: Poss, sels: seq<Sel>)
    decreases DepthOf(sels), 1
  {
    MergeOk(ps, sels) && forall x :: x in sels ==> (DepthMember(sels, x); MergesSel(ps, x))
  }

  ghost predicate MergesSel(ps: Poss, x: Sel)
    decreases Depth(x), 0
  {
    match x
    case F(f) => assert Depth(x) == DepthF(f); MergesEverywhere(ps, f.sels)
    case Frag(_, _, sub) => MergesEverywhere(ps, sub)
  }

  /** Key fields are plain leaf fields of their type. */
  ghost predicate KeysAreLeaves(s: Sup) {
    forall t, sg: nat, k :: k in s.e.KeysOf(t, sg) ==> LeafKey(s, t, k)
  }

  ghost predicate LeafKey(s: Sup, t: Name, k: Name) {
    !IsMeta(k) && (t, k) in s.schema.fieldTy && !s.schema.Composite(s.schema.fieldTy[(t, k)])
  }

  /** A valid client selection on `p` in the shapes the planner supports. */
  ghost predicate Askable(s: Sup, sg: nat, p: Name, sels: seq<Sel>) {
    && Typed(s.schema, p, sels)
    && SplitOk(s, sg, p, sels)
    && Clean(sels)
    && MergesEverywhere(s.schema.ps, sels)
  }

  ghost predicate AskableSel(s: Sup, sg: nat, p: Name, x: Sel) {
    && TypedSel(s.schema, p, x)
    && SplitSel(s, sg, p, x)
    && CleanSel(x)
    && MergesSel(s.schema.ps, x)
  }

  // ----- printed selections use no new variables

  lemma {:induction false} TextVars(e: Engine, sg: nat, p: Name, sels: seq<Sel>)
    ensures SelsVars(Text(e, sg, p, sels)) <= SelsVars(sels)
    decreases DepthOf(sels), 3
  {
    var ks := InjectedKeys(e, p, Groups(e, p, Cuts(e, sg, p, sels)), {});
    LocalTextVars(e, sg, p, sels);
    KeyTextVars(ks);
    SelsVarsAppend([F(TypenameField)] + LocalText(e, sg, p, sels), KeyText(ks));
    SelsVarsAppend([F(TypenameField)], LocalText(e, sg, p, sels));
    assert [F(TypenameField)][1..] == [];
    assert FieldVars(TypenameField) == {};
  }

  lemma {:induction false} LocalTextVars(e: Engine, sg: nat, p: Name, sels: seq<Sel>)
    ensures SelsVars(LocalText(e, sg, p, sels)) <= SelsVars(sels)
    decreases DepthOf(sels), 2, |sels|
  {
    if sels != [] {
      LocalTextVars(e, sg, p, sels[1..]);
      SelTextVars(e, sg, p, sels[0]);
      SelsVarsAppend(SelText(e, sg, p, sels[0]), LocalText(e, sg, p, sels[1..]));
    }
  }

  lemma {:induction false} SelTextVars(e: Engine, sg: nat, p: Name, x: Sel)
    ensures SelsVars(SelText(e, sg, p, x)) <= SelVars(x)
    decreases Depth(x), 1
  {
    match x
    case F(f) =>
      PrintedVars(e, sg, f);
      assert [F(Printed(e, sg, f))][1..] == [];
    case Frag(cond, dirs, sub) =>
      TextVars(e, sg, cond, sub);
      assert [Frag(cond, dirs, Text(e, sg, cond, sub))][1..] == [];
  }

  lemma {:induction false} PrintedVars(e: Engine, sg: nat, f: Field)
    ensures FieldVars(Printed(e, sg, f)) <= FieldVars(f)
    decreases DepthF(f), 0
  {
    if f.sels != [] {
      TextVars(e, sg, f.ty, f.sels);
    }
  }

  lemma {:induction false} PrintedAllVars(e: Engine, sg: nat, fs: seq<Field>, vs: set<Name>)
    requires forall f :: f in fs ==> FieldVars(f) <= vs
    ensures FieldsVars(PrintedAll(e, sg, fs)) <= vs
  {
    if fs != [] {
      assert fs[0] in fs;
      PrintedVars(e, sg, fs[0]);
      PrintedAllVars(e, sg, fs[1..], vs);
    }
  }

  lemma {:induction false} MemberVars(sels: seq<Sel>, x: Sel)
    requires x in sels
    ensures SelVars(x) <= SelsVars(sels)
  {
    if sels[0] != x {
      MemberVars(sels[1..], x);
    }
  }

  // ----- printed selections merge

  /** Printing for one subgraph keeps mergeability: the added fields agree
      with each other and never meet a client response key. */
  lemma {:induction false} PrintedMergeable(e: Engine, ps: Poss, sg: nat, f: Field, g: Field)
    requires Mergeable(ps, f, g) && Clean(f.sels) && Clean(g.sels)
    ensures Mergeable(ps, Printed(e, sg, f), Printed(e, sg, g))
    decreases Max(DepthF(f), DepthF(g)), 1
  {
    var f', g' := Printed(e, sg, f), Printed(e, sg, g);
    forall t, a, b | a in Collect(ps, t, f'.sels + g'.sels) && b in Collect(ps, t, f'.sels + g'.sels) && a.Key() == b.Key()
      ensures Mergeable(ps, a, b)
    {
      TextPair(e, ps, sg, f, g, t, a, b);
    }
  }

  lemma {:induction false} TextPair(e: Engine, ps: Poss, sg: nat, f: Field, g: Field, t: Name, a: Field, b: Field)
    requires Mergeable(ps, f, g) && Clean(f.sels) && Clean(g.sels)
    requires a in Collect(ps, t, Printed(e, sg, f).sels + Printed(e, sg, g).sels)
    requires b in Collect(ps, t, Printed(e, sg, f).sels + Printed(e, sg, g).sels)
    requires a.Key() == b.Key()
    ensures Mergeable(ps, a, b)
    decreases Max(DepthF(f), DepthF(g)), 0
  {
    PrintedFrom(e, ps, sg, f, g, t, a);
    PrintedFrom(e, ps, sg, f, g, t, b);
    if Added(a) || Added(b) {
      AddedPair(ps, a, b);
    } else {
      var a0 :| a0 in Collect(ps, t, f.sels + g.sels) && Clean(a0.sels) && a == Printed(e, sg, a0);
      var b0 :| b0 in Collect(ps, t, f.sels + g.sels) && Clean(b0.sels) && b == Printed(e, sg, b0);
      assert Mergeable(ps, a0, b0);
      FieldsDepthMember(Collect(ps, t, f.sels + g.sels), a0);
      FieldsDepthMember(Collect(ps, t, f.sels + g.sels), b0);
      DepthAppend(f.sels, g.sels);
      PrintedMergeable(e, ps, sg, a0, b0);
    }
  }

  /** A field of a printed selection set is added by the planner or the
      printed form of a clean client field. */
  lemma {:induction false} PrintedFrom(e: Engine, ps: Poss, sg: nat, f: Field, g: Field, t: Name, a: Field)
    requires Clean(f.sels) && Clean(g.sels)
    requires a in Collect(ps, t, Printed(e, sg, f).sels + Printed(e, sg, g).sels)
    ensures Added(a) || CleanKey(a)
    ensures Added(a) || exists a0 :: a0 in Collect(ps, t, f.sels + g.sels) && Clean(a0.sels) && a == Printed(e, sg, a0)
  {
    CollectAppend(ps, t, Printed(e, sg, f).sels, Printed(e, sg, g).sels);
    CollectAppend(ps, t, f.sels, g.sels);
    if !Added(a) {
      var h := if a in Collect(ps, t, Printed(e, sg, f).sels) then f else g;
      TextField(e, ps, sg, h.ty, t, h.sels, a);
      var a0 :| a0 in Collect(ps, t, h.sels) && a == Printed(e, sg, a0);
      CleanCollect(ps, t, h.sels, a0);
    }
  }

  lemma {:induction false} AddedPair(ps: Poss, a: Field, b: Field)
    requires a.Key() == b.Key() && (Added(a) || Added(b))
    requires Added(a) || CleanKey(a)
    requires Added(b) || CleanKey(b)
    ensures Mergeable(ps, a, b)
  {
    assert KeyAlias(a.name)[4..] == a.name && KeyAlias(b.name)[4..] == b.name;
    assert IsKeyAlias(KeyAlias(a.name)) && IsKeyAlias(KeyAlias(b.name));
    assert KeyAlias(a.name)[0] == 'g' && KeyAlias(b.name)[0] == 'g' && TYPENAME[0] == '_';
    assert a.sels == [] && b.sels == [];
    assert MergeOk(ps, []);
  }

  lemma {:induction false} PrintedAllMergeable(e: Engine, ps: Poss, sg: nat, fs: seq<Field>)
    requires SameKeyMergeable(ps, fs) && forall f :: f in fs ==> Clean(f.sels)
    ensures SameKeyMergeable(ps, PrintedAll(e, sg, fs))
  {
    forall a, b | a in PrintedAll(e, sg, fs) && b in PrintedAll(e, sg, fs) && a.Key() == b.Key() ensures Mergeable(ps, a, b) {
      PrintedMember(e, sg, fs, a);
      PrintedMember(e, sg, fs, b);
      var f :| f in fs && a == Printed(e, sg, f);
      var g :| g in fs && b == Printed(e, sg, g);
      PrintedMergeable(e, ps, sg, f, g);
    }
  }

  lemma {:induction false} PrintedMember(e: Engine, sg: nat, fs: seq<Field>, a: Field)
    requires a in PrintedAll(e, sg, fs)
    ensures exists f :: f in fs && a == Printed(e, sg, f)
  {
    if a == Printed(e, sg, fs[0]) {
      assert fs[0] in fs;
    } else {
      PrintedMember(e, sg, fs[1..], a);
    }
  }

  // ----- every planned sub-query is valid where it is sent

  /** Subgraph `sg` is asked about type `p`, which it defines. */
  ghost predicate Asks(s: Sup, sg: nat, p: Name) {
    Sound(s) && KeysAreLeaves(s) && s.Defines(sg, p)
  }

  lemma {:induction false} LocalDeclared(s: Sup, sg: nat, p: Name, f: Field)
    requires Sound(s) && s.Defines(sg, p) && DeclaredAtRoots(s, sg, p, f)
    requires (p, f.name) in s.schema.fieldTy && !IsMeta(f.name) && s.e.Local(sg, p, f)
    ensures s.Declares(sg, p, f.name)
  {
  }

  lemma {:induction false} CutsMember(e: Engine, sg: nat, p: Name, sels: seq<Sel>, f: Field)
    requires f in Cuts(e, sg, p, sels)
    ensures F(f) in sels && !e.Local(sg, p, f)
  {
    if sels[0] != F(f) || e.Local(sg, p, f) {
      CutsMember(e, sg, p, sels[1..], f);
    }
  }

  /** A foreign field goes to a subgraph that declares it, and the asking
      subgraph declares the key fields that takes. */
  lemma {:induction false} CutDeclared(s: Sup, sg: nat, p: Name, sels: seq<Sel>, g: Group, f: Field)
    requires Asks(s, sg, p) && Typed(s.schema, p, sels)
    requires g in Groups(s.e, p, Cuts(s.e, sg, p, sels)) && f in g.fields
    ensures F(f) in sels && !IsMeta(f.name) && !s.e.Local(sg, p, f) && g.target == s.e.Target(p, f)
    ensures s.Declares(g.target, p, f.name) && s.e.HasKey(p, g.target)
    ensures forall k :: k in s.e.KeysOf(p, g.target) ==> s.Declares(sg, p, k)
  {
    var cuts := Cuts(s.e, sg, p, sels);
    GroupsPairs(s.e, p, cuts);
    PairsMember(Groups(s.e, p, cuts), g.target, f);
    assert (g.target, f) in (set h | h in cuts :: (s.e.Target(p, h), h));
    CutsMember(s.e, sg, p, sels, f);
    assert TypedSel(s.schema, p, F(f));
    TargetSupplies(s, sg, p, f);
  }

  lemma {:induction false} PrintedValid(s: Sup, sg: nat, p: Name, f: Field)
    requires Sound(s) && KeysAreLeaves(s) && (IsMeta(f.name) || s.Declares(sg, p, f.name))
    requires TypedSel(s.schema, p, F(f)) && SplitOk(s, sg, f.ty, f.sels)
    requires Clean(f.sels) && MergesEverywhere(s.schema.ps, f.sels)
    ensures WellFormedSel(s, sg, p, F(Printed(s.e, sg, f)))
    decreases DepthF(f), 0
  {
    if f.sels != [] {
      TextValid(s, sg, f.ty, f.sels);
    }
  }

  lemma {:induction false} TextValid(s: Sup, sg: nat, p: Name, sels: seq<Sel>)
    requires Asks(s, sg, p) && Askable(s, sg, p, sels)
    ensures WellFormed(s, sg, p, Text(s.e, sg, p, sels))
    decreases DepthOf(sels), 3
  {
    var gs := Groups(s.e, p, Cuts(s.e, sg, p, sels));
    LocalTextValid(s, sg, p, sels);
    GroupsNonempty(s.e, p, Cuts(s.e, sg, p, sels));
    forall g, k | g in gs && k in s.e.KeysOf(p, g.target) ensures s.Declares(sg, p, k) {
      CutDeclared(s, sg, p, sels, g, g.fields[0]);
    }
    KeyTextValid(s, sg, p, gs, {});
    assert IsMeta(TYPENAME);
  }

  lemma {:induction false} KeyTextValid(s: Sup, sg: nat, p: Name, gs: seq<Group>, seen: set<Name>)
    requires Sound(s) && KeysAreLeaves(s)
    requires forall g, k :: g in gs && k in s.e.KeysOf(p, g.target) ==> s.Declares(sg, p, k)
    ensures WellFormed(s, sg, p, KeyText(InjectedKeys(s.e, p, gs, seen)))
  {
    var ks := InjectedKeys(s.e, p, gs, seen);
    forall x | x in KeyText(ks) ensures WellFormedSel(s, sg, p, x) {
      KeyTextMember(ks, x);
      var k :| k in ks && x == F(KeyField(k));
      InjectedMember(s.e, p, gs, seen, k);
      var g :| g in gs && k in s.e.KeysOf(p, g.target);
      assert LeafKey(s, p, k);
    }
  }

  lemma {:induction false} KeyTextMember(ks: seq<Name>, x: Sel)
    requires x in KeyText(ks)
    ensures exists k :: k in ks && x == F(KeyField(k))
  {
    if x == F(KeyField(ks[0])) {
      assert ks[0] in ks;
    } else {
      KeyTextMember(ks[1..], x);
    }
  }

  lemma {:induction false} NewKeysMember(ks: seq<Name>, seen: set<Name>, k: Name)
    requires k in NewKeys(ks, seen)
    ensures k in ks
  {
    if ks[0] in seen {
      NewKeysMember(ks[1..], seen, k);
    } else if k != ks[0] {
      NewKeysMember(ks[1..], seen + {ks[0]}, k);
    }
  }

  lemma {:induction false} InjectedMember(e: Engine, p: Name, gs: seq<Group>, seen: set<Name>, k: Name)
    requires k in InjectedKeys(e, p, gs, seen)
    ensures exists g :: g in gs && k in e.KeysOf(p, g.target)
  {
    var ks := e.KeysOf(p, gs[0].target);
    if k in NewKeys(ks, seen) {
      NewKeysMember(ks, seen, k);
      assert gs[0] in gs;
    } else {
      InjectedMember(e, p, gs[1..], seen + (set x | x in ks), k);
    }
  }

  lemma {:induction false} LocalTextValid(s: Sup, sg: nat, p: Name, sels: seq<Sel>)
    requires Asks(s, sg, p) && forall x :: x in sels ==> AskableSel(s, sg, p, x)
    ensures WellFormed(s, sg, p, LocalText(s.e, sg, p, sels))
    decreases DepthOf(sels), 2, |sels|
  {
    if sels != [] {
      assert sels[0] in sels;
      LocalTextValid(s, sg, p, sels[1..]);
      SelTextValid(s, sg, p, sels[0]);
    }
  }

  lemma {:induction false} SelTextValid(s: Sup, sg: nat, p: Name, x: Sel)
    requires Asks(s, sg, p) && AskableSel(s, sg, p, x)
    ensures WellFormed(s, sg, p, SelText(s.e, sg, p, x))
    decreases Depth(x), 1
  {
    match x
    case F(f) =>
      if s.e.Local(sg, p, f) {
        if !IsMeta(f.name) {
          LocalDeclared(s, sg, p, f);
        }
        PrintedValid(s, sg, p, f);
      }
    case Frag(cond, dirs, sub) => TextValid(s, sg, cond, sub);
  }

  // ----- exactly which sub-queries are valid

  /** `sg` defines every fragment condition and declares every field it is
      asked for on a root type. */
  ghost predicate Servable(s: Sup, sg: nat, p: Name, sels: seq<Sel>)
    decreases DepthOf(sels), 1
  {
    forall x :: x in sels ==> (DepthMember(sels, x); ServableSel(s, sg, p, x))
  }

  ghost predicate ServableSel(s: Sup, sg: nat, p: Name, x: Sel)
    decreases Depth(x), 0
  {
    match x
    case F(f) =>
      assert Depth(x) == DepthF(f);
      IsMeta(f.name) || !s.e.Local(sg, p, f) || ((p in ROOTS ==> s.Declares(sg, p, f.name)) && Servable(s, sg, f.ty, f.sels))
    case Frag(cond, _, sub) => s.Defines(sg, cond) && Servable(s, sg, cond, sub)
  }

  lemma WellFormedAppend(s: Sup, sg: nat, p: Name, a: seq<Sel>, b: seq<Sel>)
    ensures WellFormed(s, sg, p, a + b) <==> WellFormed(s, sg, p, a) && WellFormed(s, sg, p, b)
  {
    assert forall x :: x in a + b <==> x in a || x in b;
  }

  lemma {:induction false} DeclaredBelow(s: Sup, sg: nat, p: Name, f: Name)
    requires Sound(s) && s.Defines(sg, p) && p !in ROOTS && (p, f) in s.schema.fieldTy && !IsMeta(f)
    requires p in s.e.keys && (p, f) in s.e.owners ==> sg in s.e.owners[(p, f)]
    ensures s.Declares(sg, p, f)
  {
  }

  /** The text for a valid selection is valid where it is sent exactly when
      the subgraph knows its conditions and its root fields. */
  lemma {:induction false} TextServable(s: Sup, sg: nat, p: Name, sels: seq<Sel>)
    requires Asks(s, sg, p) && Typed(s.schema, p, sels)
    ensures WellFormed(s, sg, p, Text(s.e, sg, p, sels)) <==> Servable(s, sg, p, sels)
    decreases DepthOf(sels), 3
  {
    var gs := Groups(s.e, p, Cuts(s.e, sg, p, sels));
    LocalTextServable(s, sg, p, sels);
    GroupsNonempty(s.e, p, Cuts(s.e, sg, p, sels));
    forall g, k | g in gs && k in s.e.KeysOf(p, g.target) ensures s.Declares(sg, p, k) {
      CutDeclared(s, sg, p, sels, g, g.fields[0]);
    }
    KeyTextValid(s, sg, p, gs, {});
    assert IsMeta(TYPENAME) && WellFormed(s, sg, p, [F(TypenameField)]);
    WellFormedAppend(s, sg, p, [F(TypenameField)], LocalText(s.e, sg, p, sels));
    WellFormedAppend(s, sg, p, [F(TypenameField)] + LocalText(s.e, sg, p, sels), KeyText(InjectedKeys(s.e, p, gs, {})));
  }

  lemma {:induction false} LocalTextServable(s: Sup, sg: nat, p: Name, sels: seq<Sel>)
    requires Asks(s, sg, p) && Typed(s.schema, p, sels)
    ensures WellFormed(s, sg, p, LocalText(s.e, sg, p, sels)) <==> Servable(s, sg, p, sels)
    decreases DepthOf(sels), 2, |sels|
  {
    if sels != [] {
      assert sels[0] in sels && TypedSel(s.schema, p, sels[0]);
      LocalTextServable(s, sg, p, sels[1..]);
      SelTextServable(s, sg, p, sels[0]);
      WellFormedAppend(s, sg, p, SelText(s.e, sg, p, sels[0]), LocalText(s.e, sg, p, sels[1..]));
      assert forall x :: x in sels <==> x == sels[0] || x in sels[1..];
    }
  }

  lemma {:induction false} PrintedServable(s: Sup, sg: nat, p: Name, f: Field)
    requires Asks(s, sg, p) && TypedSel(s.schema, p, F(f)) && s.e.Local(sg, p, f)
    ensures WellFormedSel(s, sg, p, F(Printed(s.e, sg, f))) <==> ServableSel(s, sg, p, F(f))
    decreases DepthF(f), 0
  {
    if !IsMeta(f.name) {
      if p !in ROOTS {
        DeclaredBelow(s, sg, p, f.name);
      }
      if s.Declares(sg, p, f.name) {
        assert s.decl[sg][(p, f.name)] == f.ty;
        if f.sels != [] {
          TextServable(s, sg, f.ty, f.sels);
        } else {
          assert WellFormed(s, sg, f.ty, []) && Servable(s, sg, f.ty, []);
        }
      } else {
        assert p in ROOTS;
      }
    }
  }

  lemma {:induction false} SelTextServable(s: Sup, sg: nat, p: Name, x: Sel)
    requires Asks(s, sg, p) && TypedSel(s.schema, p, x)
    ensures WellFormed(s, sg, p, SelText(s.e, sg, p, x)) <==> ServableSel(s, sg, p, x)
    decreases Depth(x), 1
  {
    match x
    case F(f) =>
      if s.e.Local(sg, p, f) {
        var y := F(Printed(s.e, sg, f));
        assert y in [y] && (WellFormed(s, sg, p, [y]) <==> WellFormedSel(s, sg, p, y));
        PrintedServable(s, sg, p, f);
      }
    case Frag(cond, dirs, sub) =>
      var y := Frag(cond, dirs, Text(s.e, sg, cond, sub));
      assert y in [y] && (WellFormed(s, sg, p, [y]) <==> WellFormedSel(s, sg, p, y));
      if s.Defines(sg, cond) {
        TextServable(s, sg, cond, sub);
      }
  }

  /** Every fetch below a sub-query is valid for its subgraph. */
  lemma {:induction false} NodesValid(s: Sup, sg: nat, p: Name, sels: seq<Sel>, vs: set<Name>)
    requires Asks(s, sg, p) && Askable(s, sg, p, sels) && SelsVars(sels) <= vs
    ensures NodesOk(s, vs, Nodes(s.e, sg, p, sels))
    decreases DepthOf(sels), 6
  {
    LocalNodesValid(s, sg, p, sels, vs);
    var gs := Groups(s.e, p, Cuts(s.e, sg, p, sels));
    CutNodesAt(s.e, p, gs);
    forall n | n in CutNodes(s.e, p, gs) ensures CutOk(s, vs, n.cut) {
      var i :| 0 <= i < |gs| && n == CutNode(s.e, p, gs[i]);
      GroupValid(s, sg, p, sels, vs, gs[i]);
    }
  }

  lemma {:induction false} GroupValid(s: Sup, sg: nat, p: Name, sels: seq<Sel>, vs: set<Name>, g: Group)
    requires Asks(s, sg, p) && Askable(s, sg, p, sels) && SelsVars(sels) <= vs
    requires g in Groups(s.e, p, Cuts(s.e, sg, p, sels))
    ensures CutOk(s, vs, CutNode(s.e, p, g).cut)
    decreases DepthOf(sels), 5
  {
    GroupsNonempty(s.e, p, Cuts(s.e, sg, p, sels));
    GroupsDepthMember(Groups(s.e, p, Cuts(s.e, sg, p, sels)), g);
    forall f | f in g.fields
      ensures F(f) in sels && AskableSel(s, sg, p, F(f)) && s.Declares(g.target, p, f.name) && !IsMeta(f.name)
      ensures SplitOk(s, g.target, f.ty, f.sels) && FieldVars(f) <= vs
    {
      CutDeclared(s, sg, p, sels, g, f);
      MemberVars(sels, F(f));
      assert SelVars(F(f)) == FieldVars(f);
    }
    CutDeclared(s, sg, p, sels, g, g.fields[0]);
    DirectMergeable(s.schema.ps, sels, g.fields);
    FieldsValid(s, g.target, p, g.fields, vs);
  }

  lemma {:induction false} DirectMergeable(ps: Poss, sels: seq<Sel>, fs: seq<Field>)
    requires MergeOk(ps, sels) && forall f :: f in fs ==> F(f) in sels
    ensures SameKeyMergeable(ps, fs)
  {
    forall f, g | f in fs && g in fs && f.Key() == g.Key() ensures Mergeable(ps, f, g) {
      DirectCollected(ps, "", sels, f);
      DirectCollected(ps, "", sels, g);
    }
  }

  lemma {:induction false} DirectCollected(ps: Poss, t: Name, sels: seq<Sel>, f: Field)
    requires F(f) in sels
    ensures f in Collect(ps, t, sels)
  {
    if sels[0] != F(f) {
      DirectCollected(ps, t, sels[1..], f);
    }
  }

  /** A sub-query for fields `fs` of `t`, and all fetches below it, are
      valid: the shape of both a root fetch and an entity fetch. */
  lemma {:induction false} FieldsValid(s: Sup, sg: nat, t: Name, fs: seq<Field>, vs: set<Name>)
    requires Sound(s) && KeysAreLeaves(s) && SameKeyMergeable(s.schema.ps, fs)
    requires forall f :: f in fs ==> AskedField(s, sg, t, f) && FieldVars(f) <= vs
    ensures WellFormedFields(s, sg, t, PrintedAll(s.e, sg, fs))
    ensures SameKeyMergeable(s.schema.ps, PrintedAll(s.e, sg, fs))
    ensures FieldsVars(PrintedAll(s.e, sg, fs)) <= vs
    ensures NodesOk(s, vs, FieldsNodes(s.e, sg, fs))
    decreases FieldsDepth(fs), 4
  {
    PrintedAllMergeable(s.e, s.schema.ps, sg, fs);
    PrintedAllVars(s.e, sg, fs, vs);
    forall h | h in PrintedAll(s.e, sg, fs) ensures WellFormedSel(s, sg, t, F(h)) {
      PrintedMember(s.e, sg, fs, h);
      var f :| f in fs && h == Printed(s.e, sg, f);
      assert AskedField(s, sg, t, f);
      PrintedValid(s, sg, t, f);
    }
    FieldsNodesValid(s, sg, t, fs, vs);
  }

  /** A non-meta field whose subgraph and selections fit. */
  ghost predicate AskedField(s: Sup, sg: nat, t: Name, f: Field) {
    && !IsMeta(f.name)
    && s.Declares(sg, t, f.name)
    && TypedSel(s.schema, t, F(f))
    && SplitOk(s, sg, f.ty, f.sels)
    && Clean(f.sels)
    && MergesEverywhere(s.schema.ps, f.sels)
  }

  lemma {:induction false} FieldsNodesValid(s: Sup, sg: nat, t: Name, fs: seq<Field>, vs: set<Name>)
    requires Sound(s) && KeysAreLeaves(s)
    requires forall f :: f in fs ==> AskedField(s, sg, t, f) && FieldVars(f) <= vs
    ensures NodesOk(s, vs, FieldsNodes(s.e, sg, fs))
    decreases FieldsDepth(fs), 3, |fs|
  {
    if fs != [] {
      assert fs[0] in fs && AskedField(s, sg, t, fs[0]);
      FieldNodesValid(s, sg, t, fs[0], vs);
      FieldsNodesValid(s, sg, t, fs[1..], vs);
    }
  }

  lemma {:induction false} FieldNodesValid(s: Sup, sg: nat, t: Name, f: Field, vs: set<Name>)
    requires Sound(s) && KeysAreLeaves(s) && AskedField(s, sg, t, f) && FieldVars(f) <= vs
    ensures NodesOk(s, vs, FieldNodes(s.e, sg, f))
    decreases DepthF(f), 2
  {
    if f.sels != [] {
      NodesValid(s, sg, f.ty, f.sels, vs);
      PrefixOk(s, vs, Key(f.Key()), Nodes(s.e, sg, f.ty, f.sels));
    }
  }

  lemma {:induction false} LocalNodesValid(s: Sup, sg: nat, p: Name, sels: seq<Sel>, vs: set<Name>)
    requires Asks(s, sg, p) && (forall x :: x in sels ==> AskableSel(s, sg, p, x)) && SelsVars(sels) <= vs
    ensures NodesOk(s, vs, LocalNodes(s.e, sg, p, sels))
    decreases DepthOf(sels), 4, |sels|
  {
    if sels != [] {
      assert sels[0] in sels;
      LocalNodesValid(s, sg, p, sels[1..], vs);
      SelNodesValid(s, sg, p, sels[0], vs);
    }
  }

  lemma {:induction false} SelNodesValid(s: Sup, sg: nat, p: Name, x: Sel, vs: set<Name>)
    requires Asks(s, sg, p) && AskableSel(s, sg, p, x) && SelVars(x) <= vs
    ensures NodesOk(s, vs, SelNodes(s.e, sg, p, x))
    decreases Depth(x), 3
  {
    match x
    case F(f) =>
      if s.e.Local(sg, p, f) && !IsMeta(f.name) {
        LocalDeclared(s, sg, p, f);
        FieldNodesValid(s, sg, p, f, vs);
      }
    case Frag(cond, _, sub) =>
      NodesValid(s, sg, cond, sub, vs);
      PrefixOk(s, vs, TypeCond(cond), Nodes(s.e, sg, cond, sub));
  }
}
