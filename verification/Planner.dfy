/** The planner as it runs: it walks the client's document, named fragments
    included, appending tokens, variables and child fetches to a sink while
    pushing and popping the response path. Proved against the functions of
    `Plan` on the document with every spread inlined. */
module Planner {
  import opened Basics
  import opened GraphQl
  import opened Plan
  import opened Printing
  import opened Wire
  import Facts = PlanFacts
  import Federation

  // ----- the client's document

  datatype DocField = DocField(alias: Option<Name>, name: Name, args: seq<Arg>, dirs: seq<Directive>,
                               ty: Name, sels: seq<DocSel>)

  datatype DocSel =
    | DF(f: DocField)
    | Inline(cond: Name, idirs: seq<Directive>, isels: seq<DocSel>)
    | Named(fragment: Name, ndirs: seq<Directive>)

  /** A document field without its selection set. */
  function Head(f: DocField): Field {
    Field(f.alias, f.name, f.args, f.dirs, f.ty, [])
  }

  datatype Fragment = Fragment(cond: Name, sels: seq<DocSel>)

  type Fragments = map<Name, Fragment>

  /** Spreads in `sels` name undefined fragments or fragments ranked below
      `r`. */
  ghost predicate Within(doc: Fragments, rank: map<Name, nat>, r: nat, sels: seq<DocSel>)
    decreases sels
  {
    forall i :: 0 <= i < |sels| ==> WithinSel(doc, rank, r, sels[i])
  }

  ghost predicate WithinSel(doc: Fragments, rank: map<Name, nat>, r: nat, x: DocSel)
    decreases x
  {
    match x
    case DF(f) => Within(doc, rank, r, f.sels)
    case Inline(_, _, sub) => Within(doc, rank, r, sub)
    case Named(n, _) => n in doc ==> n in rank && rank[n] < r
  }

  /** No fragment spreads itself, directly or not (section 5.5.2.2): the
      fragments can be ranked so that each spreads only lower ones. */
  ghost predicate Acyclic(doc: Fragments, rank: map<Name, nat>) {
    forall n :: n in doc ==> n in rank && Within(doc, rank, rank[n], doc[n].sels)
  }

  // ----- what is emitted

  lemma EmitAppend(path: seq<Seg>, a: seq<FetchNode>, b: seq<FetchNode>)
    ensures EmitAll(path, a + b) == EmitAll(path, a) + EmitAll(path, b)
  {
  }

  lemma {:induction false} EmitPrefix(path: seq<Seg>, seg: Seg, ns: seq<FetchNode>)
    ensures EmitAll(path, Prefix(seg, ns)) == EmitAll(path + [seg], ns)
  {
    if ns != [] {
      Facts.PrefixCons(seg, ns);
      EmitPrefix(path, seg, ns[1..]);
      var ps := Prefix(seg, ns);
      assert ps == [ps[0]] + ps[1..] && ns == [ns[0]] + ns[1..];
      EmitAppend(path, [ps[0]], ps[1..]);
      EmitAppend(path + [seg], [ns[0]], ns[1..]);
      assert path + ([seg] + ns[0].path) == path + [seg] + ns[0].path;
      assert Emit(path, ps[0]) == Emit(path + [seg], ns[0]);
    }
  }

  // ----- how the specification grows selection by selection

  lemma {:induction false} TextSnoc(e: Engine, sg: nat, p: Name, a: seq<Sel>, x: Sel)
    ensures LocalText(e, sg, p, a + [x]) == LocalText(e, sg, p, a) + SelText(e, sg, p, x)
    ensures LocalNodes(e, sg, p, a + [x]) == LocalNodes(e, sg, p, a) + SelNodes(e, sg, p, x)
    ensures Cuts(e, sg, p, a + [x]) == Cuts(e, sg, p, a) + (if x.F? && !e.Local(sg, p, x.f) then [x.f] else [])
  {
    if a == [] {
      assert a + [x] == [x] && [x][1..] == [];
    } else {
      assert (a + [x])[1..] == a[1..] + [x];
      TextSnoc(e, sg, p, a[1..], x);
    }
  }

  lemma GroupsSnoc(e: Engine, p: Name, fs: seq<Field>, f: Field)
    ensures Groups(e, p, fs + [f]) == AddTo(Groups(e, p, fs), e.Target(p, f), f)
  {
    assert (fs + [f])[..|fs|] == fs;
  }

  function Names(ks: seq<Name>): set<Name> {
    set k | k in ks
  }

  function KeysSeen(e: Engine, p: Name, gs: seq<Group>): set<Name> {
    if gs == [] then {} else KeysSeen(e, p, gs[..|gs| - 1]) + Names(e.KeysOf(p, gs[|gs| - 1].target))
  }

  lemma UnionAssoc(a: set<Name>, b: set<Name>, c: set<Name>)
    ensures (a + b) + c == a + (b + c) && a + {} == a
  {
  }

  lemma {:induction false} InjectedSnoc(e: Engine, p: Name, gs: seq<Group>, g: Group, seen: set<Name>)
    ensures InjectedKeys(e, p, gs + [g], seen) ==
            InjectedKeys(e, p, gs, seen) + NewKeys(e.KeysOf(p, g.target), seen + KeysSeen(e, p, gs))
  {
    if gs == [] {
      assert gs + [g] == [g] && [g][1..] == [];
      UnionAssoc(seen, {}, {});
      assert InjectedKeys(e, p, [g], seen) == NewKeys(e.KeysOf(p, g.target), seen) + [];
    } else {
      var ks := Names(e.KeysOf(p, gs[0].target));
      assert (gs + [g])[1..] == gs[1..] + [g];
      InjectedSnoc(e, p, gs[1..], g, seen + ks);
      KeysSeenCons(e, p, gs);
      UnionAssoc(seen, ks, KeysSeen(e, p, gs[1..]));
    }
  }

  lemma {:induction false} KeysSeenCons(e: Engine, p: Name, gs: seq<Group>)
    requires gs != []
    ensures KeysSeen(e, p, gs) == Names(e.KeysOf(p, gs[0].target)) + KeysSeen(e, p, gs[1..])
  {
    var n := |gs| - 1;
    if n == 0 {
      assert gs[..0] == [] && gs[1..] == [];
    } else {
      KeysSeenCons(e, p, gs[..n]);
      assert gs[..n][1..] == gs[1..][..n - 1];
    }
  }

  lemma {:induction false} NewKeysSnoc(ks: seq<Name>, k: Name, seen: set<Name>)
    ensures NewKeys(ks + [k], seen) == NewKeys(ks, seen) + (if k in seen || k in ks then [] else [k])
  {
    if ks == [] {
      assert ks + [k] == [k] && [k][1..] == [];
    } else {
      assert (ks + [k])[1..] == ks[1..] + [k];
      NewKeysSnoc(ks[1..], k, if ks[0] in seen then seen else seen + {ks[0]});
      assert forall x :: x in ks <==> x == ks[0] || x in ks[1..];
    }
  }

  lemma {:induction false} KeyTextAppend(a: seq<Name>, b: seq<Name>)
    ensures KeyText(a + b) == KeyText(a) + KeyText(b)
  {
    if a == [] {
      assert a + b == b;
    } else {
      assert (a + b)[1..] == a[1..] + b;
      KeyTextAppend(a[1..], b);
    }
  }

  /** Fields of the document by the subgraph that will answer them, in the
      order the subgraphs were first needed. */
  datatype DocGroup = DocGroup(target: nat, fields: seq<DocField>)

  function AddDoc(gs: seq<DocGroup>, t: nat, f: DocField): seq<DocGroup> {
    if gs == [] then [DocGroup(t, [f])]
    else if gs[0].target == t then [DocGroup(t, gs[0].fields + [f])] + gs[1..]
    else [gs[0]] + AddDoc(gs[1..], t, f)
  }

  lemma {:induction false} AddDocHolds(gs: seq<DocGroup>, t: nat, f: DocField, u: nat, h: DocField)
    ensures (forall i :: 0 <= i < |gs| ==> gs[i].fields != []) ==> forall i :: 0 <= i < |AddDoc(gs, t, f)| ==> AddDoc(gs, t, f)[i].fields != []
    ensures Holds(AddDoc(gs, t, f), u, h) <==> Holds(gs, u, h) || (u == t && h == f)
  {
    var r := AddDoc(gs, t, f);
    if gs == [] {
      assert r[0] == DocGroup(t, [f]);
    } else {
      HoldsCons(gs, u, h);
      HoldsCons(r, u, h);
      if gs[0].target == t {
        assert r[1..] == gs[1..];
      } else {
        AddDocHolds(gs[1..], t, f, u, h);
        assert r[1..] == AddDoc(gs[1..], t, f);
      }
    }
  }

  ghost predicate Holds(gs: seq<DocGroup>, t: nat, f: DocField) {
    exists g :: g in gs && g.target == t && f in g.fields
  }

  lemma HoldsCons(gs: seq<DocGroup>, t: nat, f: DocField)
    requires gs != []
    ensures Holds(gs, t, f) <==> (gs[0].target == t && f in gs[0].fields) || Holds(gs[1..], t, f)
  {
    assert forall g :: g in gs <==> g == gs[0] || g in gs[1..];
  }

  // ----- the mutable state

  /** What a printing step adds: tokens, used variables, child fetches. */
  datatype Slice = Slice(out: seq<Tok>, vars: set<Name>, children: seq<Emitted>)
  {
    function Plus(s: Slice): Slice {
      Slice(out + s.out, vars + s.vars, children + s.children)
    }
  }

  lemma PlusAssoc(a: Slice, b: Slice, c: Slice)
    ensures a.Plus(b).Plus(c) == a.Plus(b.Plus(c))
  {
    assert a.out + b.out + c.out == a.out + (b.out + c.out);
    assert a.children + b.children + c.children == a.children + (b.children + c.children);
    assert a.vars + b.vars + c.vars == a.vars + (b.vars + c.vars);
  }

  lemma PlusNothing(a: Slice)
    ensures a.Plus(Slice([], {}, [])) == a
  {
  }

  /** The specification of a printed field, selection or set: its rendered
      sub-query, the variables that text uses, the fetches cut below it. */
  function FieldSlice(e: Engine, sg: nat, f: Field, path: seq<Seg>): Slice {
    Slice(RenderField(Printed(e, sg, f)), FieldVars(Printed(e, sg, f)), EmitAll(path, FieldNodes(e, sg, f)))
  }

  function SelSlice(e: Engine, sg: nat, p: Name, x: Sel, path: seq<Seg>): Slice {
    Slice(RenderSels(SelText(e, sg, p, x)), SelsVars(SelText(e, sg, p, x)), EmitAll(path, SelNodes(e, sg, p, x)))
  }

  function LocalSlice(e: Engine, sg: nat, p: Name, sels: seq<Sel>, path: seq<Seg>): Slice {
    Slice(RenderSels(LocalText(e, sg, p, sels)), SelsVars(LocalText(e, sg, p, sels)), EmitAll(path, LocalNodes(e, sg, p, sels)))
  }

  function SetSlice(e: Engine, sg: nat, p: Name, sels: seq<Sel>, path: seq<Seg>): Slice {
    Slice(RenderSels(Text(e, sg, p, sels)), SelsVars(Text(e, sg, p, sels)), EmitAll(path, Nodes(e, sg, p, sels)))
  }

  function FieldsSlice(e: Engine, sg: nat, fs: seq<Field>): Slice {
    Slice(RenderFields(PrintedAll(e, sg, fs)), FieldsVars(PrintedAll(e, sg, fs)), EmitAll([], FieldsNodes(e, sg, fs)))
  }

  /** The keys injected and fetches emitted for cut groups. */
  function CutsSlice(e: Engine, p: Name, gs: seq<Group>, path: seq<Seg>): Slice {
    Slice(RenderSels(KeyText(InjectedKeys(e, p, gs, {}))), {}, EmitAll(path, CutNodes(e, p, gs)))
  }

  lemma Bracketed(head: seq<Tok>, body: seq<Tok>)
    ensures head + ([Open] + body + [Close]) == head + [Open] + body + [Close]
  {
  }

  lemma {:induction false} FieldSliceSet(e: Engine, sg: nat, f: Field, path: seq<Seg>)
    requires f.sels != []
    ensures FieldSlice(e, sg, f, path) ==
            Slice(RenderHead(f) + [Open], ArgsVars(f.args) + DirsVars(f.dirs), [])
              .Plus(SetSlice(e, sg, f.ty, f.sels, path + [Key(f.Key())])).Plus(Slice([Close], {}, []))
  {
    var g := Printed(e, sg, f);
    var text := Text(e, sg, f.ty, f.sels);
    SetPrinted(g, f, text);
    EmitPrefix(path, Key(f.Key()), Nodes(e, sg, f.ty, f.sels));
    ThreeParts(RenderHead(f) + [Open], ArgsVars(f.args) + DirsVars(f.dirs), RenderSels(text), SelsVars(text),
               EmitAll(path + [Key(f.Key())], Nodes(e, sg, f.ty, f.sels)));
  }

  lemma {:induction false} SetPrinted(g: Field, f: Field, text: seq<Sel>)
    requires g == f.(sels := text) && text != []
    ensures RenderField(g) == RenderHead(f) + [Open] + RenderSels(text) + [Close]
    ensures FieldVars(g) == ArgsVars(f.args) + DirsVars(f.dirs) + SelsVars(text)
  {
    assert RenderHead(g) == RenderHead(f);
    Bracketed(RenderHead(f), RenderSels(text));
  }

  lemma ThreeParts(head: seq<Tok>, hv: set<Name>, body: seq<Tok>, bv: set<Name>, cs: seq<Emitted>)
    ensures Slice(head, hv, []).Plus(Slice(body, bv, cs)).Plus(Slice([Close], {}, [])) == Slice(head + body + [Close], hv + bv, cs)
  {
  }

  lemma {:induction false} FieldSliceLeaf(e: Engine, sg: nat, f: Field, path: seq<Seg>)
    requires f.sels == []
    ensures FieldSlice(e, sg, f, path) == Slice(RenderHead(f), ArgsVars(f.args) + DirsVars(f.dirs), [])
  {
    var g := Printed(e, sg, f);
    assert g == f && FieldVars(f) == ArgsVars(f.args) + DirsVars(f.dirs) + {};
    assert RenderField(f) == RenderHead(f) + [];
  }

  lemma {:induction false} SelSliceFragment(e: Engine, sg: nat, p: Name, cond: Name, dirs: seq<Directive>, sub: seq<Sel>, path: seq<Seg>)
    ensures SelSlice(e, sg, p, Frag(cond, dirs, sub), path) ==
            Slice([On(cond)] + RenderDirs(dirs) + [Open], DirsVars(dirs), [])
              .Plus(SetSlice(e, sg, cond, sub, if cond != p then path + [TypeCond(cond)] else path)).Plus(Slice([Close], {}, []))
  {
    var y := Frag(cond, dirs, Text(e, sg, cond, sub));
    assert [y][1..] == [];
    assert RenderSels([y]) == RenderSel(y) + [];
    assert SelsVars([y]) == SelVars(y) + {};
    if cond != p {
      EmitPrefix(path, TypeCond(cond), Nodes(e, sg, cond, sub));
    }
  }

  lemma {:induction false} SelSliceField(e: Engine, sg: nat, p: Name, f: Field, path: seq<Seg>)
    ensures SelSlice(e, sg, p, F(f), path) == if e.Local(sg, p, f) then FieldSlice(e, sg, f, path) else Slice([], {}, [])
  {
    if e.Local(sg, p, f) {
      var g := F(Printed(e, sg, f));
      assert [g][1..] == [];
      assert RenderSels([g]) == RenderField(Printed(e, sg, f)) + [];
      assert SelsVars([g]) == FieldVars(Printed(e, sg, f)) + {};
    }
  }

  lemma {:induction false} LocalSliceSnoc(e: Engine, sg: nat, p: Name, a: seq<Sel>, x: Sel, path: seq<Seg>)
    ensures LocalSlice(e, sg, p, a + [x], path) == LocalSlice(e, sg, p, a, path).Plus(SelSlice(e, sg, p, x, path))
  {
    TextSnoc(e, sg, p, a, x);
    RenderAppend(LocalText(e, sg, p, a), SelText(e, sg, p, x));
    SelsVarsAppend(LocalText(e, sg, p, a), SelText(e, sg, p, x));
    EmitAppend(path, LocalNodes(e, sg, p, a), SelNodes(e, sg, p, x));
  }

  lemma {:induction false} FieldsSliceSnoc(e: Engine, sg: nat, fs: seq<Field>, f: Field)
    ensures FieldsSlice(e, sg, fs + [f]) == FieldsSlice(e, sg, fs).Plus(FieldSlice(e, sg, f, []))
  {
    PrintedSnoc(e, sg, fs, f);
    RenderFieldsAppend(PrintedAll(e, sg, fs), [Printed(e, sg, f)]);
    assert [Printed(e, sg, f)][1..] == [];
    assert RenderFields([Printed(e, sg, f)]) == RenderField(Printed(e, sg, f)) + [];
    EmitAppend([], FieldsNodes(e, sg, fs), FieldNodes(e, sg, f));
  }

  lemma {:induction false} PrintedSnoc(e: Engine, sg: nat, fs: seq<Field>, f: Field)
    ensures PrintedAll(e, sg, fs + [f]) == PrintedAll(e, sg, fs) + [Printed(e, sg, f)]
    ensures FieldsNodes(e, sg, fs + [f]) == FieldsNodes(e, sg, fs) + FieldNodes(e, sg, f)
    ensures FieldsVars(PrintedAll(e, sg, fs + [f])) == FieldsVars(PrintedAll(e, sg, fs)) + FieldVars(Printed(e, sg, f))
  {
    Facts.PrintedAppend(e, sg, fs, [f]);
    assert [f][1..] == [] && PrintedAll(e, sg, [f]) == [Printed(e, sg, f)] + [];
    NodesSnoc(e, sg, fs, f);
    VarsSnoc(PrintedAll(e, sg, fs), Printed(e, sg, f));
  }

  lemma {:induction false} NodesSnoc(e: Engine, sg: nat, fs: seq<Field>, f: Field)
    ensures FieldsNodes(e, sg, fs + [f]) == FieldsNodes(e, sg, fs) + FieldNodes(e, sg, f)
  {
    if fs == [] {
      assert fs + [f] == [f] && [f][1..] == [];
      assert FieldsNodes(e, sg, [f]) == FieldNodes(e, sg, f) + [];
    } else {
      assert (fs + [f])[1..] == fs[1..] + [f];
      NodesSnoc(e, sg, fs[1..], f);
    }
  }

  lemma {:induction false} VarsSnoc(fs: seq<Field>, f: Field)
    ensures FieldsVars(fs + [f]) == FieldsVars(fs) + FieldVars(f)
  {
    if fs == [] {
      assert fs + [f] == [f] && [f][1..] == [];
      assert FieldsVars([f]) == FieldVars(f) + {};
    } else {
      assert (fs + [f])[1..] == fs[1..] + [f];
      VarsSnoc(fs[1..], f);
    }
  }

  lemma {:induction false} CutsSliceSnoc(e: Engine, p: Name, gs: seq<Group>, g: Group, path: seq<Seg>)
    ensures CutsSlice(e, p, gs + [g], path) == CutsSlice(e, p, gs, path)
              .Plus(Slice(RenderSels(KeyText(NewKeys(e.KeysOf(p, g.target), KeysSeen(e, p, gs)))), {}, [Emit(path, CutNode(e, p, g))]))
  {
    InjectedSnoc(e, p, gs, g, {});
    assert {} + KeysSeen(e, p, gs) == KeysSeen(e, p, gs);
    var news := NewKeys(e.KeysOf(p, g.target), KeysSeen(e, p, gs));
    KeyTextAppend(InjectedKeys(e, p, gs, {}), news);
    RenderAppend(KeyText(InjectedKeys(e, p, gs, {})), KeyText(news));
    Facts.CutNodesAppend(e, p, gs, [g]);
    assert [g][1..] == [];
    assert CutNodes(e, p, [g]) == [CutNode(e, p, g)];
    EmitAppend(path, CutNodes(e, p, gs), [CutNode(e, p, g)]);
  }

  /** A selection set: the type name, the local part, then the cuts. */
  lemma {:induction false} SetSliceParts(e: Engine, sg: nat, p: Name, sels: seq<Sel>, path: seq<Seg>)
    ensures SetSlice(e, sg, p, sels, path) == Slice([Word(TYPENAME)], {}, [])
              .Plus(LocalSlice(e, sg, p, sels, path)).Plus(CutsSlice(e, p, Groups(e, p, Cuts(e, sg, p, sels)), path))
  {
    var gs := Groups(e, p, Cuts(e, sg, p, sels));
    var ks, lt := KeyText(InjectedKeys(e, p, gs, {})), LocalText(e, sg, p, sels);
    TypenameSlice();
    TextParts([F(TypenameField)], lt, ks);
    KeyTextVars(InjectedKeys(e, p, gs, {}));
    EmitAppend(path, LocalNodes(e, sg, p, sels), CutNodes(e, p, gs));
    AllParts([Word(TYPENAME)], RenderSels(lt), RenderSels(ks), SelsVars(lt),
             EmitAll(path, LocalNodes(e, sg, p, sels)), EmitAll(path, CutNodes(e, p, gs)));
  }

  lemma {:induction false} TextParts(a: seq<Sel>, b: seq<Sel>, c: seq<Sel>)
    ensures RenderSels(a + b + c) == RenderSels(a) + RenderSels(b) + RenderSels(c)
    ensures SelsVars(a + b + c) == SelsVars(a) + SelsVars(b) + SelsVars(c)
  {
    RenderAppend(a + b, c);
    RenderAppend(a, b);
    SelsVarsAppend(a + b, c);
    SelsVarsAppend(a, b);
  }

  lemma AllParts(a: seq<Tok>, b: seq<Tok>, c: seq<Tok>, vs: set<Name>, ns: seq<Emitted>, ms: seq<Emitted>)
    ensures Slice(a, {}, []).Plus(Slice(b, vs, ns)).Plus(Slice(c, {}, ms)) == Slice(a + b + c, {} + vs + {}, ns + ms)
  {
  }

  lemma TypenameSlice()
    ensures RenderSels([F(TypenameField)]) == [Word(TYPENAME)] && SelsVars([F(TypenameField)]) == {}
  {
    assert [F(TypenameField)][1..] == [];
    assert RenderField(TypenameField) == [Word(TYPENAME)];
    assert FieldVars(TypenameField) == ArgsVars([]) + DirsVars([]) + SelsVars([]);
  }

  /** The four buffers the printing methods extend. */
  class Sink {
    var out: seq<Tok>
    var vars: set<Name>
    var children: seq<Emitted>
    var path: seq<Seg>

    constructor ()
      ensures out == [] && vars == {} && children == [] && path == []
    {
      out, vars, children, path := [], {}, [], [];
    }

    ghost function Now(): Slice
      reads this
    {
      Slice(out, vars, children)
    }
  }

  datatype RootPlan = RootPlan(subgraph: nat, text: seq<Tok>, vars: set<Name>, children: seq<Emitted>)

  class Planner {
    const e: Engine
    const doc: Fragments
    ghost const rank: map<Name, nat>

    constructor (e: Engine, doc: Fragments, ghost rank: map<Name, nat>)
      requires Acyclic(doc, rank)
      ensures this.e == e && this.doc == doc && this.rank == rank
    {
      this.e, this.doc, this.rank := e, doc, rank;
    }

    ghost predicate Fits(r: nat, sels: seq<DocSel>) {
      Acyclic(doc, rank) && Within(doc, rank, r, sels)
    }

    // ----- the document with every spread inlined

    function Expand(ghost r: nat, sels: seq<DocSel>): (ss: seq<Sel>)
      requires Fits(r, sels)
      ensures |ss| == |sels|
      decreases r, sels
    {
      seq(|sels|, i requires 0 <= i < |sels| => ExpandSel(r, sels[i]))
    }

    function ExpandSel(ghost r: nat, x: DocSel): Sel
      requires Acyclic(doc, rank) && WithinSel(doc, rank, r, x)
      decreases r, x
    {
      match x
      case DF(f) => F(ExpandField(r, f))
      case Inline(cond, dirs, sub) => Frag(cond, dirs, Expand(r, sub))
      case Named(n, dirs) =>
        if n in doc then Frag(doc[n].cond, dirs, Expand(rank[n], doc[n].sels)) else Frag("", dirs, [])
    }

    function ExpandField(ghost r: nat, f: DocField): Field
      requires Fits(r, f.sels)
      decreases r, f
    {
      Field(f.alias, f.name, f.args, f.dirs, f.ty, Expand(r, f.sels))
    }

    function ExpandFields(ghost r: nat, fs: seq<DocField>): (gs: seq<Field>)
      requires forall i :: 0 <= i < |fs| ==> Fits(r, fs[i].sels)
      ensures |gs| == |fs|
    {
      seq(|fs|, i requires 0 <= i < |fs| => ExpandField(r, fs[i]))
    }

    ghost predicate GroupFits(r: nat, g: DocGroup) {
      forall j :: 0 <= j < |g.fields| ==> Fits(r, g.fields[j].sels)
    }

    ghost predicate GroupsFit(r: nat, gs: seq<DocGroup>) {
      forall i :: 0 <= i < |gs| ==> GroupFits(r, gs[i])
    }

    ghost function ExpandGroups(r: nat, gs: seq<DocGroup>): (es: seq<Group>)
      requires GroupsFit(r, gs)
      ensures |es| == |gs|
    {
      seq(|gs|, i requires 0 <= i < |gs| => Group(gs[i].target, ExpandFields(r, gs[i].fields)))
    }

    // ----- when planning succeeds

    /** Every spread is defined and every foreign field has an owner the
        planner can reach. */
    ghost predicate CanPlan(r: nat, sg: nat, p: Name, sels: seq<DocSel>)
      requires Fits(r, sels)
      decreases r, sels
    {
      forall i :: 0 <= i < |sels| ==> CanPlanSel(r, sg, p, sels[i])
    }

    ghost predicate CanPlanSel(r: nat, sg: nat, p: Name, x: DocSel)
      requires Acyclic(doc, rank) && WithinSel(doc, rank, r, x)
      decreases r, x
    {
      match x
      case DF(f) =>
        if e.Local(sg, p, Head(f)) then CanPlan(r, sg, f.ty, f.sels)
        else e.PickTarget(p, e.owners[(p, f.name)]).Some? && CanPlan(r, e.Target(p, Head(f)), f.ty, f.sels)
      case Inline(cond, _, sub) => CanPlan(r, sg, cond, sub)
      case Named(n, _) => n in doc && CanPlan(rank[n], sg, doc[n].cond, doc[n].sels)
    }

    /** What the first pass over a selection set can already tell. */
    ghost predicate Passes(r: nat, sg: nat, p: Name, x: DocSel)
      requires Acyclic(doc, rank) && WithinSel(doc, rank, r, x)
    {
      if x.DF? && !e.Local(sg, p, Head(x.f)) then e.PickTarget(p, e.owners[(p, x.f.name)]).Some?
      else CanPlanSel(r, sg, p, x)
    }

    // ----- printing

    method PrintHead(f: DocField, sink: Sink)
      modifies sink
      ensures sink.path == old(sink.path)
      ensures sink.Now() == old(sink.Now()).Plus(Slice(RenderHead(Head(f)), ArgsVars(f.args) + DirsVars(f.dirs), []))
    {
      if f.alias.Some? {
        sink.out := sink.out + [Word(f.alias.value), Colon];
      }
      sink.out := sink.out + [Word(f.name)];
      if f.args != [] {
        sink.out := sink.out + [Args(f.args)];
        sink.vars := sink.vars + ArgsVars(f.args);
      }
      sink.out := sink.out + RenderDirs(f.dirs);
      sink.vars := sink.vars + DirsVars(f.dirs);
    }

    /** Prints one field for subgraph `sg`, extending the path for cuts
        inside its selections. */
    method PrintField(ghost r: nat, sg: nat, f: DocField, sink: Sink) returns (ok: bool)
      requires Fits(r, f.sels)
      modifies sink
      ensures ok <==> CanPlan(r, sg, f.ty, f.sels)
      ensures ok ==> sink.path == old(sink.path)
      ensures ok ==> sink.Now() == old(sink.Now()).Plus(FieldSlice(e, sg, ExpandField(r, f), old(sink.path)))
      decreases r, f, 0
    {
      ghost var g, was, path := ExpandField(r, f), sink.Now(), sink.path;
      PrintHead(f, sink);
      if f.sels == [] {
        FieldSliceLeaf(e, sg, g, path);
        return true;
      }
      ghost var head := Slice(RenderHead(g) + [Open], ArgsVars(g.args) + DirsVars(g.dirs), []);
      sink.out := sink.out + [Open];
      assert sink.Now() == was.Plus(head);
      var key := if f.alias.Some? then f.alias.value else f.name;
      sink.path := sink.path + [Key(key)];
      ok := PrintSet(r, sg, f.ty, f.sels, sink);
      if ok {
        sink.path := sink.path[..|sink.path| - 1];
        sink.out := sink.out + [Close];
        ghost var body, end := SetSlice(e, sg, f.ty, g.sels, path + [Key(key)]), Slice([Close], {}, []);
        assert sink.Now() == was.Plus(head).Plus(body).Plus(end);
        FieldSliceSet(e, sg, g, path);
        PlusAssoc(was, head, body);
        PlusAssoc(was, head.Plus(body), end);
      }
    }

    /** The nested set of a fragment, with its type condition on the path. */
    method PrintFragment(ghost r: nat, sg: nat, p: Name, cond: Name, dirs: seq<Directive>, sub: seq<DocSel>, sink: Sink) returns (ok: bool)
      requires Fits(r, sub)
      modifies sink
      ensures ok <==> CanPlan(r, sg, cond, sub)
      ensures ok ==> sink.path == old(sink.path)
      ensures ok ==> sink.Now() == old(sink.Now()).Plus(SelSlice(e, sg, p, Frag(cond, dirs, Expand(r, sub)), old(sink.path)))
      decreases r, sub, 4
    {
      ghost var was, path := sink.Now(), sink.path;
      ghost var head := Slice([On(cond)] + RenderDirs(dirs) + [Open], DirsVars(dirs), []);
      sink.out := sink.out + ([On(cond)] + RenderDirs(dirs) + [Open]);
      sink.vars := sink.vars + DirsVars(dirs);
      assert sink.Now() == was.Plus(head);
      var conditioned := cond != p;
      if conditioned {
        sink.path := sink.path + [TypeCond(cond)];
      }
      ghost var inner := sink.path;
      ok := PrintSet(r, sg, cond, sub, sink);
      if ok {
        if conditioned {
          sink.path := sink.path[..|sink.path| - 1];
        }
        sink.out := sink.out + [Close];
        ghost var body, end := SetSlice(e, sg, cond, Expand(r, sub), inner), Slice([Close], {}, []);
        assert sink.Now() == was.Plus(head).Plus(body).Plus(end);
        SelSliceFragment(e, sg, p, cond, dirs, Expand(r, sub), path);
        PlusAssoc(was, head, body);
        PlusAssoc(was, head.Plus(body), end);
      }
    }

    /** Prints one selection, or hands a foreign field to its group. */
    method PrintSelection(ghost r: nat, sg: nat, p: Name, x: DocSel, sink: Sink, foreign: seq<DocGroup>)
      returns (ok: bool, more: seq<DocGroup>)
      requires Acyclic(doc, rank) && WithinSel(doc, rank, r, x)
      modifies sink
      ensures ok <==> Passes(r, sg, p, x)
      ensures ok ==> sink.path == old(sink.path)
      ensures ok ==> sink.Now() == old(sink.Now()).Plus(SelSlice(e, sg, p, ExpandSel(r, x), old(sink.path)))
      ensures ok ==> more == if x.DF? && !e.Local(sg, p, Head(x.f)) then AddDoc(foreign, e.Target(p, Head(x.f)), x.f) else foreign
      decreases r, x, 3
    {
      more := foreign;
      match x
      case DF(f) =>
        SelSliceField(e, sg, p, ExpandField(r, f), sink.path);
        var local := "__" <= f.name || p !in e.keys || (p, f.name) !in e.owners || sg in e.owners[(p, f.name)];
        if local {
          ok := PrintField(r, sg, f, sink);
        } else {
          var target := e.PickTarget(p, e.owners[(p, f.name)]);
          ok := target.Some?;
          if ok {
            more := AddDoc(foreign, target.value, f);
          }
          PlusNothing(sink.Now());
        }
      case Inline(cond, dirs, sub) =>
        ok := PrintFragment(r, sg, p, cond, dirs, sub, sink);
      case Named(n, dirs) =>
        ok := n in doc;
        if ok {
          ok := PrintFragment(rank[n], sg, p, doc[n].cond, dirs, doc[n].sels, sink);
        }
    }

    ghost predicate AllPass(r: nat, sg: nat, p: Name, sels: seq<DocSel>)
      requires Fits(r, sels)
    {
      forall i :: 0 <= i < |sels| ==> Passes(r, sg, p, sels[i])
    }

    lemma PassNext(r: nat, sg: nat, p: Name, sels: seq<DocSel>, i: nat)
      requires Fits(r, sels) && i < |sels| && PrefixFits(r, sels, i) && PrefixFits(r, sels, i + 1)
      ensures WithinSel(doc, rank, r, sels[i])
      ensures AllPass(r, sg, p, sels[..i + 1]) <==> AllPass(r, sg, p, sels[..i]) && Passes(r, sg, p, sels[i])
      ensures AllPass(r, sg, p, sels) ==> Passes(r, sg, p, sels[i])
    {
      assert forall j :: 0 <= j < i ==> sels[..i + 1][j] == sels[j] && sels[..i][j] == sels[j];
      assert sels[..i + 1][i] == sels[i];
    }

    /** Prints what stays local and groups the fields other subgraphs own. */
    method PrintSelections(ghost r: nat, sg: nat, p: Name, sels: seq<DocSel>, sink: Sink) returns (ok: bool, foreign: seq<DocGroup>)
      requires Fits(r, sels)
      modifies sink
      ensures ok <==> AllPass(r, sg, p, sels)
      ensures ok ==> sink.path == old(sink.path)
      ensures ok ==> sink.Now() == old(sink.Now()).Plus(LocalSlice(e, sg, p, Expand(r, sels), old(sink.path)))
      ensures ok ==> Collected(r, sg, p, sels, foreign)
      decreases r, sels, 0
    {
      foreign, ok := [], true;
      ghost var was, path := sink.Now(), sink.path;
      PlusNothing(was);
      for i := 0 to |sels|
        invariant ok && sink.path == path && PrefixFits(r, sels, i)
        invariant AllPass(r, sg, p, sels[..i])
        invariant sink.Now() == was.Plus(LocalSlice(e, sg, p, Expand(r, sels[..i]), path))
        invariant Collected(r, sg, p, sels[..i], foreign)
      {
        SelectionStep(r, sg, p, sels, i, was, path);
        PassNext(r, sg, p, sels, i);
        ghost var before := foreign;
        ok, foreign := PrintSelection(r, sg, p, sels[i], sink, foreign);
        if !ok {
          return;
        }
        CollectNext(r, sg, p, sels, i, before, foreign);
      }
      assert sels[..|sels|] == sels;
    }

    /** What printing selection `i` adds to those before it. */
    lemma SelectionStep(r: nat, sg: nat, p: Name, sels: seq<DocSel>, i: nat, was: Slice, path: seq<Seg>)
      requires Fits(r, sels) && i < |sels|
      ensures PrefixFits(r, sels, i) && PrefixFits(r, sels, i + 1) && WithinSel(doc, rank, r, sels[i])
      ensures was.Plus(LocalSlice(e, sg, p, Expand(r, sels[..i + 1]), path)) ==
              was.Plus(LocalSlice(e, sg, p, Expand(r, sels[..i]), path)).Plus(SelSlice(e, sg, p, ExpandSel(r, sels[i]), path))
    {
      Next(r, sels, i);
      var a, x := Expand(r, sels[..i]), ExpandSel(r, sels[i]);
      LocalSliceSnoc(e, sg, p, a, x, path);
      PlusAssoc(was, LocalSlice(e, sg, p, a, path), SelSlice(e, sg, p, x, path));
    }

    lemma Next(r: nat, sels: seq<DocSel>, i: nat)
      requires Fits(r, sels) && i < |sels|
      ensures PrefixFits(r, sels, i) && PrefixFits(r, sels, i + 1) && WithinSel(doc, rank, r, sels[i])
      ensures Expand(r, sels[..i + 1]) == Expand(r, sels[..i]) + [ExpandSel(r, sels[i])]
    {
    }

    lemma CollectNext(r: nat, sg: nat, p: Name, sels: seq<DocSel>, i: nat, foreign: seq<DocGroup>, more: seq<DocGroup>)
      requires Fits(r, sels) && i < |sels| && PrefixFits(r, sels, i) && PrefixFits(r, sels, i + 1)
      requires Collected(r, sg, p, sels[..i], foreign)
      requires more == if sels[i].DF? && !e.Local(sg, p, Head(sels[i].f)) then AddDoc(foreign, e.Target(p, Head(sels[i].f)), sels[i].f) else foreign
      ensures Collected(r, sg, p, sels[..i + 1], more)
    {
      if sels[i].DF? && !e.Local(sg, p, Head(sels[i].f)) {
        CollectForeign(r, sg, p, sels, i, foreign);
      } else {
        CollectLocal(r, sg, p, sels, i, foreign);
      }
    }

    ghost predicate PrefixFits(r: nat, sels: seq<DocSel>, i: nat) {
      i <= |sels| && Fits(r, sels[..i])
    }

    /** `foreign` groups exactly the cut fields, as the specification does. */
    ghost predicate Collected(r: nat, sg: nat, p: Name, sels: seq<DocSel>, foreign: seq<DocGroup>)
      requires Fits(r, sels)
    {
      && GroupsFit(r, foreign)
      && ExpandGroups(r, foreign) == Groups(e, p, Cuts(e, sg, p, Expand(r, sels)))
      && (forall i :: 0 <= i < |foreign| ==> foreign[i].fields != [])
      && (forall t: nat, f :: Holds(foreign, t, f) <==> CutAt(r, sg, p, sels, t, f))
    }

    /** `f` is selected in `sels` and cut towards `t`. */
    ghost predicate CutAt(r: nat, sg: nat, p: Name, sels: seq<DocSel>, t: nat, f: DocField)
      requires Fits(r, sels)
    {
      exists i :: 0 <= i < |sels| && sels[i] == DF(f) && CutTo(r, sg, p, sels[i], t)
    }

    ghost predicate CutTo(r: nat, sg: nat, p: Name, x: DocSel, t: nat)
      requires Acyclic(doc, rank) && WithinSel(doc, rank, r, x)
    {
      x.DF? && !e.Local(sg, p, Head(x.f)) && t == e.Target(p, Head(x.f))
    }

    lemma CollectLocal(r: nat, sg: nat, p: Name, sels: seq<DocSel>, i: nat, foreign: seq<DocGroup>)
      requires Fits(r, sels) && i < |sels| && PrefixFits(r, sels, i) && PrefixFits(r, sels, i + 1)
      requires !sels[i].DF? || e.Local(sg, p, Head(sels[i].f))
      requires Collected(r, sg, p, sels[..i], foreign)
      ensures Collected(r, sg, p, sels[..i + 1], foreign)
    {
      TextSnoc(e, sg, p, Expand(r, sels[..i]), ExpandSel(r, sels[i]));
      assert Expand(r, sels[..i + 1]) == Expand(r, sels[..i]) + [ExpandSel(r, sels[i])];
      assert Cuts(e, sg, p, Expand(r, sels[..i + 1])) == Cuts(e, sg, p, Expand(r, sels[..i]));
      forall t: nat, f ensures CutAt(r, sg, p, sels[..i], t, f) <==> CutAt(r, sg, p, sels[..i + 1], t, f) {
        CutAtNext(r, sg, p, sels, i, t, f);
      }
    }

    lemma CutAtNext(r: nat, sg: nat, p: Name, sels: seq<DocSel>, i: nat, t: nat, f: DocField)
      requires Fits(r, sels) && i < |sels| && PrefixFits(r, sels, i) && PrefixFits(r, sels, i + 1)
      ensures CutAt(r, sg, p, sels[..i + 1], t, f) <==>
              CutAt(r, sg, p, sels[..i], t, f) || (sels[i] == DF(f) && CutTo(r, sg, p, sels[i], t))
    {
      if CutAt(r, sg, p, sels[..i], t, f) {
        var j :| 0 <= j < i && sels[..i][j] == DF(f) && CutTo(r, sg, p, sels[..i][j], t);
        assert sels[..i + 1][j] == DF(f);
      }
      if sels[i] == DF(f) && CutTo(r, sg, p, sels[i], t) {
        assert sels[..i + 1][i] == DF(f);
      }
      if CutAt(r, sg, p, sels[..i + 1], t, f) {
        var j :| 0 <= j < i + 1 && sels[..i + 1][j] == DF(f) && CutTo(r, sg, p, sels[..i + 1][j], t);
        assert j < i ==> sels[..i][j] == DF(f);
      }
    }

    lemma CollectForeign(r: nat, sg: nat, p: Name, sels: seq<DocSel>, i: nat, foreign: seq<DocGroup>)
      requires Fits(r, sels) && i < |sels| && PrefixFits(r, sels, i) && PrefixFits(r, sels, i + 1)
      requires sels[i].DF? && !e.Local(sg, p, Head(sels[i].f))
      requires Collected(r, sg, p, sels[..i], foreign)
      ensures Collected(r, sg, p, sels[..i + 1], AddDoc(foreign, e.Target(p, Head(sels[i].f)), sels[i].f))
    {
      var t := e.Target(p, Head(sels[i].f));
      ForeignGroups(r, sg, p, sels, i, foreign);
      AddDocHolds(foreign, t, sels[i].f, t, sels[i].f);
      forall u: nat, f ensures Holds(AddDoc(foreign, t, sels[i].f), u, f) <==> CutAt(r, sg, p, sels[..i + 1], u, f) {
        assert Holds(foreign, u, f) <==> CutAt(r, sg, p, sels[..i], u, f);
        HoldsNext(r, sg, p, sels, i, foreign, u, f);
      }
    }

    lemma ForeignGroups(r: nat, sg: nat, p: Name, sels: seq<DocSel>, i: nat, foreign: seq<DocGroup>)
      requires Fits(r, sels) && i < |sels| && PrefixFits(r, sels, i) && PrefixFits(r, sels, i + 1)
      requires sels[i].DF? && !e.Local(sg, p, Head(sels[i].f))
      requires GroupsFit(r, foreign) && ExpandGroups(r, foreign) == Groups(e, p, Cuts(e, sg, p, Expand(r, sels[..i])))
      ensures var more := AddDoc(foreign, e.Target(p, Head(sels[i].f)), sels[i].f);
              GroupsFit(r, more) && ExpandGroups(r, more) == Groups(e, p, Cuts(e, sg, p, Expand(r, sels[..i + 1])))
    {
      Next(r, sels, i);
      var g := ExpandField(r, sels[i].f);
      assert ExpandSel(r, sels[i]) == F(g);
      TextSnoc(e, sg, p, Expand(r, sels[..i]), F(g));
      GroupsSnoc(e, p, Cuts(e, sg, p, Expand(r, sels[..i])), g);
      AddDocExpands(r, foreign, e.Target(p, Head(sels[i].f)), sels[i].f);
    }

    lemma HoldsNext(r: nat, sg: nat, p: Name, sels: seq<DocSel>, i: nat, foreign: seq<DocGroup>, u: nat, f: DocField)
      requires Fits(r, sels) && i < |sels| && PrefixFits(r, sels, i) && PrefixFits(r, sels, i + 1)
      requires sels[i].DF? && !e.Local(sg, p, Head(sels[i].f))
      requires Holds(foreign, u, f) <==> CutAt(r, sg, p, sels[..i], u, f)
      ensures Holds(AddDoc(foreign, e.Target(p, Head(sels[i].f)), sels[i].f), u, f) <==> CutAt(r, sg, p, sels[..i + 1], u, f)
    {
      AddDocHolds(foreign, e.Target(p, Head(sels[i].f)), sels[i].f, u, f);
      CutAtNext(r, sg, p, sels, i, u, f);
    }

    lemma ExpandCons(r: nat, g: DocGroup, gs: seq<DocGroup>)
      requires GroupFits(r, g) && GroupsFit(r, gs)
      ensures GroupsFit(r, [g] + gs)
      ensures ExpandGroups(r, [g] + gs) == [Group(g.target, ExpandFields(r, g.fields))] + ExpandGroups(r, gs)
    {
    }

    lemma FieldsSnoc(r: nat, fs: seq<DocField>, f: DocField)
      requires (forall i :: 0 <= i < |fs| ==> Fits(r, fs[i].sels)) && Fits(r, f.sels)
      ensures ExpandFields(r, fs + [f]) == ExpandFields(r, fs) + [ExpandField(r, f)]
    {
    }

    lemma {:induction false} AddDocExpands(r: nat, gs: seq<DocGroup>, t: nat, f: DocField)
      requires GroupsFit(r, gs) && Fits(r, f.sels)
      ensures GroupsFit(r, AddDoc(gs, t, f))
      ensures ExpandGroups(r, AddDoc(gs, t, f)) == AddTo(ExpandGroups(r, gs), t, ExpandField(r, f))
      decreases |gs|
    {
      if gs == [] {
        assert ExpandFields(r, [f]) == [ExpandField(r, f)];
        assert ExpandGroups(r, AddDoc(gs, t, f)) == [Group(t, [ExpandField(r, f)])];
      } else {
        FieldsSnoc(r, gs[0].fields, f);
        assert gs == [gs[0]] + gs[1..];
        ExpandCons(r, gs[0], gs[1..]);
        assert ExpandGroups(r, gs)[1..] == ExpandGroups(r, gs[1..]);
        if gs[0].target == t {
          ExpandCons(r, DocGroup(t, gs[0].fields + [f]), gs[1..]);
        } else {
          AddDocExpands(r, gs[1..], t, f);
          ExpandCons(r, gs[0], AddDoc(gs[1..], t, f));
        }
      }
    }

    // ----- cutting

    /** Injects the key fields of one target that are not there yet. */
    method InjectKeys(key: seq<Name>, injected: set<Name>, sink: Sink) returns (now: set<Name>)
      modifies sink
      ensures now == injected + Names(key)
      ensures sink.path == old(sink.path)
      ensures sink.Now() == old(sink.Now()).Plus(Slice(RenderSels(KeyText(NewKeys(key, injected))), {}, []))
    {
      now := injected;
      ghost var was := sink.Now();
      for i := 0 to |key|
        invariant now == injected + Names(key[..i])
        invariant sink.path == old(sink.path)
        invariant sink.Now() == was.Plus(Slice(RenderSels(KeyText(NewKeys(key[..i], injected))), {}, []))
      {
        var k := key[i];
        InjectNext(key, i, injected);
        if k !in now {
          sink.out := sink.out + [Word(KeyAlias(k)), Colon, Word(k)];
          now := now + {k};
        }
      }
      assert key[..|key|] == key;
    }

    lemma InjectNext(key: seq<Name>, i: nat, injected: set<Name>)
      requires i < |key|
      ensures Names(key[..i + 1]) == Names(key[..i]) + {key[i]}
      ensures RenderSels(KeyText(NewKeys(key[..i + 1], injected))) == RenderSels(KeyText(NewKeys(key[..i], injected)))
                + if key[i] in injected + Names(key[..i]) then [] else [Word(KeyAlias(key[i])), Colon, Word(key[i])]
    {
      var k, ks := key[i], key[..i];
      assert key[..i + 1] == ks + [k];
      NewKeysSnoc(ks, k, injected);
      if k !in injected && k !in ks {
        KeyTextAppend(NewKeys(ks, injected), [k]);
        assert [k][1..] == [] && KeyText([k]) == [F(KeyField(k))];
        RenderAppend(KeyText(NewKeys(ks, injected)), [F(KeyField(k))]);
        assert [F(KeyField(k))][1..] == [];
        assert RenderSels([F(KeyField(k))]) == RenderField(KeyField(k)) + [];
        assert RenderField(KeyField(k)) == [Word(KeyAlias(k)), Colon, Word(k)];
      } else {
        assert NewKeys(ks + [k], injected) == NewKeys(ks, injected);
      }
    }

    /** Prints fields into a fresh sink, as root plans and cuts both do. */
    method PrintFields(ghost r: nat, sg: nat, fs: seq<DocField>, ghost bound: seq<DocSel>) returns (ok: bool, sink: Sink)
      requires forall i :: 0 <= i < |fs| ==> Fits(r, fs[i].sels) && DF(fs[i]) in bound
      ensures ok <==> forall i :: 0 <= i < |fs| ==> CanPlan(r, sg, fs[i].ty, fs[i].sels)
      ensures fresh(sink) && (ok ==> sink.Now() == FieldsSlice(e, sg, ExpandFields(r, fs)))
      decreases r, bound, 0
    {
      sink := new Sink();
      ok := true;
      for i := 0 to |fs|
        invariant ok && fresh(sink) && sink.path == []
        invariant forall j :: 0 <= j < i ==> CanPlan(r, sg, fs[j].ty, fs[j].sels)
        invariant sink.Now() == FieldsSlice(e, sg, ExpandFields(r, fs[..i]))
      {
        assert ExpandFields(r, fs[..i + 1]) == ExpandFields(r, fs[..i]) + [ExpandField(r, fs[i])];
        FieldsSliceSnoc(e, sg, ExpandFields(r, fs[..i]), ExpandField(r, fs[i]));
        ghost var b :| 0 <= b < |bound| && bound[b] == DF(fs[i]);
        assert bound decreases to bound[b];
        assert bound[b] decreases to fs[i];
        ok := PrintField(r, sg, fs[i], sink);
        if !ok {
          return;
        }
      }
      assert fs[..|fs|] == fs;
    }

    /** The child fetch for one target subgraph, its key fields injected. */
    method PrintCut(ghost r: nat, p: Name, g: DocGroup, injected: set<Name>, sink: Sink, ghost bound: seq<DocSel>)
      returns (ok: bool, now: set<Name>)
      requires e.HasKey(p, g.target)
      requires GroupFits(r, g) && forall j :: 0 <= j < |g.fields| ==> DF(g.fields[j]) in bound
      modifies sink
      ensures ok <==> GroupCanPlan(r, g)
      ensures now == injected + Names(e.KeysOf(p, g.target))
      ensures ok ==> sink.path == old(sink.path)
      ensures ok ==> sink.Now() == old(sink.Now()).Plus(
                Slice(RenderSels(KeyText(NewKeys(e.KeysOf(p, g.target), injected))), {},
                      [Emit(old(sink.path), CutNode(e, p, Group(g.target, ExpandFields(r, g.fields))))]))
      decreases r, bound, 1
    {
      ghost var was, path := sink.Now(), sink.path;
      var key := e.keys[p][g.target].value;
      now := InjectKeys(key, injected, sink);
      var child;
      ok, child := PrintFields(r, g.target, g.fields, bound);
      if ok {
        sink.children := sink.children + [Emitted(sink.path, p, g.target, key, child.out, child.vars, child.children)];
        assert path + [] == path;
        ghost var keys := Slice(RenderSels(KeyText(NewKeys(key, injected))), {}, []);
        ghost var node := Slice([], {}, [Emit(path, CutNode(e, p, Group(g.target, ExpandFields(r, g.fields))))]);
        PlusAssoc(was, keys, node);
      }
    }

    ghost predicate GroupCanPlan(r: nat, g: DocGroup) {
      GroupFits(r, g) && forall j :: 0 <= j < |g.fields| ==> CanPlan(r, g.target, g.fields[j].ty, g.fields[j].sels)
    }

    ghost predicate GroupsCanPlan(r: nat, gs: seq<DocGroup>) {
      forall i :: 0 <= i < |gs| ==> GroupCanPlan(r, gs[i])
    }

    lemma CanPlanNext(r: nat, gs: seq<DocGroup>, i: nat)
      requires i < |gs|
      ensures GroupsCanPlan(r, gs[..i + 1]) <==> GroupsCanPlan(r, gs[..i]) && GroupCanPlan(r, gs[i])
      ensures GroupsCanPlan(r, gs) ==> GroupCanPlan(r, gs[i])
    {
      assert forall h :: 0 <= h < i ==> gs[..i + 1][h] == gs[h] && gs[..i][h] == gs[h];
      assert gs[..i + 1][i] == gs[i];
    }

    /** One child fetch per target subgraph. */
    method PrintCuts(ghost r: nat, p: Name, gs: seq<DocGroup>, sink: Sink, ghost bound: seq<DocSel>) returns (ok: bool)
      requires GroupsFit(r, gs)
      requires forall i :: 0 <= i < |gs| ==> e.HasKey(p, gs[i].target)
      requires forall i, j :: 0 <= i < |gs| && 0 <= j < |gs[i].fields| ==> DF(gs[i].fields[j]) in bound
      modifies sink
      ensures ok <==> GroupsCanPlan(r, gs)
      ensures ok ==> sink.path == old(sink.path)
      ensures ok ==> sink.Now() == old(sink.Now()).Plus(CutsSlice(e, p, ExpandGroups(r, gs), old(sink.path)))
      decreases r, bound, 2
    {
      ok := true;
      ghost var was, path := sink.Now(), sink.path;
      var injected: set<Name> := {};
      PlusNothing(was);
      for i := 0 to |gs|
        invariant ok && sink.path == path && GroupsFit(r, gs[..i])
        invariant GroupsCanPlan(r, gs[..i])
        invariant injected == KeysSeen(e, p, ExpandGroups(r, gs[..i]))
        invariant sink.Now() == was.Plus(CutsSlice(e, p, ExpandGroups(r, gs[..i]), path))
      {
        CutStep(r, p, gs, i, was, path);
        CanPlanNext(r, gs, i);
        ok, injected := PrintCut(r, p, gs[i], injected, sink, bound);
        if !ok {
          return;
        }
      }
      assert gs[..|gs|] == gs;
    }

    /** What cutting group `i` adds to the groups before it. */
    lemma CutStep(r: nat, p: Name, gs: seq<DocGroup>, i: nat, was: Slice, path: seq<Seg>)
      requires GroupsFit(r, gs) && i < |gs|
      ensures GroupsFit(r, gs[..i]) && GroupsFit(r, gs[..i + 1])
      ensures var done, now, g := ExpandGroups(r, gs[..i]), ExpandGroups(r, gs[..i + 1]), gs[i];
              && KeysSeen(e, p, now) == KeysSeen(e, p, done) + Names(e.KeysOf(p, g.target))
              && was.Plus(CutsSlice(e, p, now, path)) == was.Plus(CutsSlice(e, p, done, path)).Plus(
                   Slice(RenderSels(KeyText(NewKeys(e.KeysOf(p, g.target), KeysSeen(e, p, done)))), {},
                         [Emit(path, CutNode(e, p, Group(g.target, ExpandFields(r, g.fields))))]))
    {
      var done, x := ExpandGroups(r, gs[..i]), Group(gs[i].target, ExpandFields(r, gs[i].fields));
      assert ExpandGroups(r, gs[..i + 1]) == done + [x];
      assert (done + [x])[..i] == done;
      CutsSliceSnoc(e, p, done, x, path);
      PlusAssoc(was, CutsSlice(e, p, done, path),
                Slice(RenderSels(KeyText(NewKeys(e.KeysOf(p, x.target), KeysSeen(e, p, done)))), {}, [Emit(path, CutNode(e, p, x))]));
    }

    /** Prints a selection set for `sg`: local selections in place, foreign
        entity fields cut into child fetches. Succeeds exactly when every
        spread is defined and every foreign field has a reachable owner. */
    method PrintSet(ghost r: nat, sg: nat, p: Name, sels: seq<DocSel>, sink: Sink) returns (ok: bool)
      requires Fits(r, sels)
      modifies sink
      ensures ok <==> CanPlan(r, sg, p, sels)
      ensures ok ==> sink.path == old(sink.path)
      ensures ok ==> sink.Now() == old(sink.Now()).Plus(SetSlice(e, sg, p, Expand(r, sels), old(sink.path)))
      decreases r, sels, 3
    {
      ghost var was, path := sink.Now(), sink.path;
      sink.out := sink.out + [Word(TYPENAME)];
      ghost var head := Slice([Word(TYPENAME)], {}, []);
      assert sink.Now() == was.Plus(head);
      var foreign;
      ok, foreign := PrintSelections(r, sg, p, sels, sink);
      if !ok {
        return;
      }
      Targets(r, sg, p, sels, foreign);
      ok := PrintCuts(r, p, foreign, sink, sels);
      if ok {
        ghost var ss := Expand(r, sels);
        ghost var local, cuts := LocalSlice(e, sg, p, ss, path), CutsSlice(e, p, ExpandGroups(r, foreign), path);
        SetSliceParts(e, sg, p, ss, path);
        PlusAssoc(was, head, local);
        PlusAssoc(was, head.Plus(local), cuts);
      }
    }

    /** Groups hold cut fields only, each with a key for its target, and
        together decide whether the set can be planned. */
    lemma Targets(r: nat, sg: nat, p: Name, sels: seq<DocSel>, gs: seq<DocGroup>)
      requires Fits(r, sels) && Collected(r, sg, p, sels, gs)
      requires AllPass(r, sg, p, sels)
      ensures forall i :: 0 <= i < |gs| ==> e.HasKey(p, gs[i].target)
      ensures forall i, j :: 0 <= i < |gs| && 0 <= j < |gs[i].fields| ==> DF(gs[i].fields[j]) in sels
      ensures CanPlan(r, sg, p, sels) <==> GroupsCanPlan(r, gs)
    {
      forall i, j | 0 <= i < |gs| && 0 <= j < |gs[i].fields|
        ensures DF(gs[i].fields[j]) in sels && e.HasKey(p, gs[i].target)
        ensures CanPlan(r, sg, p, sels) ==> CanPlan(r, gs[i].target, gs[i].fields[j].ty, gs[i].fields[j].sels)
      {
        assert gs[i] in gs && Holds(gs, gs[i].target, gs[i].fields[j]);
        var k :| 0 <= k < |sels| && sels[k] == DF(gs[i].fields[j]) && CutTo(r, sg, p, sels[k], gs[i].target);
        assert Passes(r, sg, p, sels[k]);
        if CanPlan(r, sg, p, sels) {
          assert CanPlanSel(r, sg, p, sels[k]);
        }
        Federation.PickedOwns(e, p, e.owners[(p, gs[i].fields[j].name)]);
      }
      forall i | 0 <= i < |gs| ensures e.HasKey(p, gs[i].target) {
        assert gs[i].fields[0] in gs[i].fields;
      }
      if GroupsCanPlan(r, gs) {
        forall k | 0 <= k < |sels| ensures CanPlanSel(r, sg, p, sels[k]) {
          assert Passes(r, sg, p, sels[k]);
          if sels[k].DF? && !e.Local(sg, p, Head(sels[k].f)) {
            var t, f := e.Target(p, Head(sels[k].f)), sels[k].f;
            assert CutTo(r, sg, p, sels[k], t) && CutAt(r, sg, p, sels, t, f);
            assert Holds(gs, t, f);
            var i :| 0 <= i < |gs| && gs[i].target == t && f in gs[i].fields;
            assert GroupCanPlan(r, gs[i]);
          }
        }
      }
    }

    /** Plans one root field: its owner, the printed fields, the fetches. */
    method PlanRoot(ghost r: nat, root: Name, name: Name, fs: seq<DocField>) returns (plan: Option<RootPlan>)
      requires forall i :: 0 <= i < |fs| ==> Fits(r, fs[i].sels)
      ensures plan.Some? <==>
              && (root, name) in e.owners && e.owners[(root, name)] != []
              && forall i :: 0 <= i < |fs| ==> CanPlan(r, e.owners[(root, name)][0], fs[i].ty, fs[i].sels)
      ensures plan.Some? ==>
                var s := FieldsSlice(e, e.owners[(root, name)][0], ExpandFields(r, fs));
                plan.value == RootPlan(e.owners[(root, name)][0], s.out, s.vars, s.children)
    {
      if (root, name) !in e.owners || e.owners[(root, name)] == [] {
        return None;
      }
      var owner := e.owners[(root, name)][0];
      ghost var bound := seq(|fs|, i requires 0 <= i < |fs| => DF(fs[i]));
      assert forall i :: 0 <= i < |fs| ==> bound[i] == DF(fs[i]);
      var ok, sink := PrintFields(r, owner, fs, bound);
      plan := if ok then Some(RootPlan(owner, sink.out, sink.vars, sink.children)) else None;
    }
  }
}
