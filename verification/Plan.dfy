/** The ownership-splitting planner as functions: which sub-query each
    subgraph receives and which entity fetches hang below it. Paths are
    relative to the selection set being planned. */
module Plan {
  import opened Basics
  import opened GraphQl

  /** The composition's ownership tables. */
  datatype Engine = Engine(owners: map<(Name, Name), seq<nat>>, keys: map<Name, seq<Option<seq<Name>>>>)
  {
    predicate IsEntity(ty: Name) {
      ty in keys
    }

    predicate HasKey(ty: Name, s: nat) {
      ty in keys && s < |keys[ty]| && keys[ty][s].Some?
    }

    /** Subgraph `s`'s canonical key of `ty`. */
    function KeysOf(ty: Name, s: nat): seq<Name> {
      if HasKey(ty, s) then keys[ty][s].value else []
    }

    /** Whether subgraph `sg` answers `f` on static type `p` itself. */
    predicate Local(sg: nat, p: Name, f: Field) {
      || IsMeta(f.name)
      || !IsEntity(p)
      || (p, f.name) !in owners
      || sg in owners[(p, f.name)]
    }

    /** The first owner reachable through `_entities`. */
    function PickTarget(ty: Name, os: seq<nat>): Option<nat> {
      if os == [] then None
      else if HasKey(ty, os[0]) then Some(os[0])
      else PickTarget(ty, os[1..])
    }

    function Target(p: Name, f: Field): nat {
      if (p, f.name) in owners && PickTarget(p, owners[(p, f.name)]).Some?
      then PickTarget(p, owners[(p, f.name)]).value
      else 0
    }
  }

  datatype Seg = Key(key: Name) | TypeCond(ty: Name)

  /** What one `_entities` fetch asks for: fields of entity `typeName` from
      `subgraph`, and the fetches below them. */
  datatype Cut = Cut(typeName: Name, subgraph: nat, keyFields: seq<Name>,
                     text: seq<Field>, vars: set<Name>, children: seq<FetchNode>)

  /** A cut and the response-key path from the parent fetch to its objects. */
  datatype FetchNode = FetchNode(path: seq<Seg>, cut: Cut)

  // ----- variables used by a selection

  function ValueVars(v: Value): set<Name> {
    match v
    case Var(x) => {x}
    case Lit(_) => {}
    case ListV(items) => ItemsVars(items)
    case ObjV(members) => ArgsVars(members)
  }

  function ItemsVars(items: seq<Value>): set<Name> {
    if items == [] then {} else ValueVars(items[0]) + ItemsVars(items[1..])
  }

  function ArgsVars(args: seq<Arg>): set<Name> {
    if args == [] then {} else ValueVars(args[0].value) + ArgsVars(args[1..])
  }

  function DirsVars(dirs: seq<Directive>): set<Name> {
    if dirs == [] then {} else ArgsVars(dirs[0].args) + DirsVars(dirs[1..])
  }

  function FieldVars(f: Field): set<Name>
    decreases DepthF(f), 0
  {
    ArgsVars(f.args) + DirsVars(f.dirs) + SelsVars(f.sels)
  }

  function SelsVars(sels: seq<Sel>): set<Name>
    decreases DepthOf(sels), 2, |sels|
  {
    if sels == [] then {} else SelVars(sels[0]) + SelsVars(sels[1..])
  }

  function SelVars(x: Sel): set<Name>
    decreases Depth(x), 1
  {
    match x
    case F(f) => FieldVars(f)
    case Frag(_, dirs, sub) => DirsVars(dirs) + SelsVars(sub)
  }

  function FieldsVars(fs: seq<Field>): set<Name> {
    if fs == [] then {} else FieldVars(fs[0]) + FieldsVars(fs[1..])
  }

  lemma {:induction false} SelsVarsAppend(a: seq<Sel>, b: seq<Sel>)
    ensures SelsVars(a + b) == SelsVars(a) + SelsVars(b)
  {
    if a == [] {
      assert a + b == b;
    } else {
      assert (a + b)[1..] == a[1..] + b;
      SelsVarsAppend(a[1..], b);
    }
  }

  // ----- cuts: foreign fields grouped by target subgraph, in first-use order

  datatype Group = Group(target: nat, fields: seq<Field>)

  function GroupsDepth(gs: seq<Group>): nat {
    if gs == [] then 0 else Max(FieldsDepth(gs[0].fields), GroupsDepth(gs[1..]))
  }

  lemma {:induction false} GroupsDepthAppend(a: seq<Group>, b: seq<Group>)
    ensures GroupsDepth(a + b) == Max(GroupsDepth(a), GroupsDepth(b))
  {
    if a == [] {
      assert a + b == b;
    } else {
      assert (a + b)[1..] == a[1..] + b;
      GroupsDepthAppend(a[1..], b);
    }
  }

  lemma {:induction false} GroupsDepthMember(gs: seq<Group>, g: Group)
    requires g in gs
    ensures FieldsDepth(g.fields) <= GroupsDepth(gs)
  {
    if gs[0] != g {
      GroupsDepthMember(gs[1..], g);
    }
  }

  function AddTo(gs: seq<Group>, t: nat, f: Field): (r: seq<Group>)
    ensures GroupsDepth(r) <= Max(GroupsDepth(gs), DepthF(f))
  {
    if gs == [] then
      assert [Group(t, [f])][1..] == [];
      assert [f][1..] == [];
      [Group(t, [f])]
    else if gs[0].target == t then
      FieldsDepthAppend(gs[0].fields, [f]);
      assert [f][1..] == [];
      var r := [Group(t, gs[0].fields + [f])] + gs[1..];
      assert r[1..] == gs[1..];
      r
    else
      var r := [gs[0]] + AddTo(gs[1..], t, f);
      assert r[1..] == AddTo(gs[1..], t, f);
      r
  }

  function Groups(e: Engine, p: Name, fs: seq<Field>): (gs: seq<Group>)
    ensures GroupsDepth(gs) <= FieldsDepth(fs)
  {
    if fs == [] then []
    else
      var n := |fs| - 1;
      assert fs[..n] + [fs[n]] == fs;
      FieldsDepthAppend(fs[..n], [fs[n]]);
      assert [fs[n]][1..] == [];
      AddTo(Groups(e, p, fs[..n]), e.Target(p, fs[n]), fs[n])
  }

  /** The direct field selections `sg` must leave to another subgraph. */
  function Cuts(e: Engine, sg: nat, p: Name, sels: seq<Sel>): (fs: seq<Field>)
    ensures FieldsDepth(fs) <= DepthOf(sels)
  {
    if sels == [] then []
    else
      var rest := Cuts(e, sg, p, sels[1..]);
      if sels[0].F? && !e.Local(sg, p, sels[0].f) then
        assert ([sels[0].f] + rest)[1..] == rest;
        [sels[0].f] + rest
      else rest
  }

  // ----- the printed sub-query

  const TypenameField := Field(None, TYPENAME, [], [], "", [])

  function KeyField(k: Name): Field {
    Field(Some(KeyAlias(k)), k, [], [], "", [])
  }

  /** Key names of `ks` not yet injected, each once. */
  function NewKeys(ks: seq<Name>, seen: set<Name>): seq<Name> {
    if ks == [] then []
    else if ks[0] in seen then NewKeys(ks[1..], seen)
    else [ks[0]] + NewKeys(ks[1..], seen + {ks[0]})
  }

  function InjectedKeys(e: Engine, p: Name, gs: seq<Group>, seen: set<Name>): seq<Name> {
    if gs == [] then []
    else
      var ks := e.KeysOf(p, gs[0].target);
      NewKeys(ks, seen) + InjectedKeys(e, p, gs[1..], seen + set k | k in ks)
  }

  function KeyText(ks: seq<Name>): seq<Sel> {
    if ks == [] then [] else [F(KeyField(ks[0]))] + KeyText(ks[1..])
  }

  lemma {:induction false} KeyTextVars(ks: seq<Name>)
    ensures SelsVars(KeyText(ks)) == {}
  {
    if ks != [] {
      KeyTextVars(ks[1..]);
      assert KeyText(ks)[1..] == KeyText(ks[1..]) && KeyText(ks)[0] == F(KeyField(ks[0]));
      assert FieldVars(KeyField(ks[0])) == ArgsVars([]) + DirsVars([]) + SelsVars([]);
    }
  }

  /** What `sg` is asked for selections `sels` on type `p`. */
  function Text(e: Engine, sg: nat, p: Name, sels: seq<Sel>): seq<Sel>
    decreases DepthOf(sels), 3
  {
    [F(TypenameField)] + LocalText(e, sg, p, sels)
    + KeyText(InjectedKeys(e, p, Groups(e, p, Cuts(e, sg, p, sels)), {}))
  }

  function LocalText(e: Engine, sg: nat, p: Name, sels: seq<Sel>): seq<Sel>
    decreases DepthOf(sels), 2, |sels|
  {
    if sels == [] then [] else SelText(e, sg, p, sels[0]) + LocalText(e, sg, p, sels[1..])
  }

  function SelText(e: Engine, sg: nat, p: Name, x: Sel): seq<Sel>
    decreases Depth(x), 1
  {
    match x
    case F(f) => if e.Local(sg, p, f) then [F(Printed(e, sg, f))] else []
    case Frag(cond, dirs, sub) => [Frag(cond, dirs, Text(e, sg, cond, sub))]
  }

  function Printed(e: Engine, sg: nat, f: Field): Field
    decreases DepthF(f), 0
  {
    f.(sels := if f.sels == [] then [] else Text(e, sg, f.ty, f.sels))
  }

  function PrintedAll(e: Engine, sg: nat, fs: seq<Field>): seq<Field> {
    if fs == [] then [] else [Printed(e, sg, fs[0])] + PrintedAll(e, sg, fs[1..])
  }

  // ----- the fetch tree

  function Prefix(seg: Seg, ns: seq<FetchNode>): seq<FetchNode> {
    if ns == [] then [] else [ns[0].(path := [seg] + ns[0].path)] + Prefix(seg, ns[1..])
  }

  /** The fetches below `sg`'s sub-query for `sels` on `p`. */
  function Nodes(e: Engine, sg: nat, p: Name, sels: seq<Sel>): seq<FetchNode>
    decreases DepthOf(sels), 6
  {
    LocalNodes(e, sg, p, sels) + CutNodes(e, p, Groups(e, p, Cuts(e, sg, p, sels)))
  }

  function LocalNodes(e: Engine, sg: nat, p: Name, sels: seq<Sel>): seq<FetchNode>
    decreases DepthOf(sels), 5, |sels|
  {
    if sels == [] then [] else SelNodes(e, sg, p, sels[0]) + LocalNodes(e, sg, p, sels[1..])
  }

  function SelNodes(e: Engine, sg: nat, p: Name, x: Sel): seq<FetchNode>
    decreases Depth(x), 4
  {
    match x
    case F(f) => if e.Local(sg, p, f) then FieldNodes(e, sg, f) else []
    case Frag(cond, _, sub) =>
      if cond != p then Prefix(TypeCond(cond), Nodes(e, sg, cond, sub)) else Nodes(e, sg, cond, sub)
  }

  function FieldNodes(e: Engine, sg: nat, f: Field): seq<FetchNode>
    decreases DepthF(f), 0
  {
    if f.sels == [] then [] else Prefix(Key(f.Key()), Nodes(e, sg, f.ty, f.sels))
  }

  function FieldsNodes(e: Engine, sg: nat, fs: seq<Field>): seq<FetchNode>
    decreases FieldsDepth(fs), 1, |fs|
  {
    if fs == [] then [] else FieldNodes(e, sg, fs[0]) + FieldsNodes(e, sg, fs[1..])
  }

  /** The fetch for one group of foreign fields, at the object itself. */
  function CutNode(e: Engine, p: Name, g: Group): FetchNode
    decreases FieldsDepth(g.fields), 2
  {
    var text := PrintedAll(e, g.target, g.fields);
    FetchNode([], Cut(p, g.target, e.KeysOf(p, g.target), text, FieldsVars(text),
                      FieldsNodes(e, g.target, g.fields)))
  }

  function CutNodes(e: Engine, p: Name, gs: seq<Group>): seq<FetchNode>
    decreases GroupsDepth(gs), 3, |gs|
  {
    if gs == [] then [] else [CutNode(e, p, gs[0])] + CutNodes(e, p, gs[1..])
  }

  // ----- what grouping keeps

  /** Every (target, field) pair the groups hold. */
  ghost function Pairs(gs: seq<Group>): set<(nat, Field)> {
    if gs == [] then {} else (set f | f in gs[0].fields :: (gs[0].target, f)) + Pairs(gs[1..])
  }

  lemma {:induction false} PairsAppend(a: seq<Group>, b: seq<Group>)
    ensures Pairs(a + b) == Pairs(a) + Pairs(b)
  {
    if a == [] {
      assert a + b == b;
    } else {
      assert (a + b)[1..] == a[1..] + b;
      PairsAppend(a[1..], b);
    }
  }

  lemma {:induction false} PairsMember(gs: seq<Group>, t: nat, f: Field)
    ensures (t, f) in Pairs(gs) <==> exists g :: g in gs && g.target == t && f in g.fields
  {
    if gs != [] {
      PairsMember(gs[1..], t, f);
      assert gs[0] in gs;
      assert forall g :: g in gs <==> g == gs[0] || g in gs[1..];
    }
  }

  lemma {:induction false} AddToPairs(gs: seq<Group>, t: nat, f: Field)
    ensures Pairs(AddTo(gs, t, f)) == Pairs(gs) + {(t, f)}
  {
    if gs == [] {
      assert AddTo(gs, t, f)[1..] == [];
    } else if gs[0].target == t {
      var r := AddTo(gs, t, f);
      assert r[1..] == gs[1..] && r[0] == Group(t, gs[0].fields + [f]);
    } else {
      AddToPairs(gs[1..], t, f);
      assert AddTo(gs, t, f)[1..] == AddTo(gs[1..], t, f);
    }
  }

  /** Grouping loses no cut field and sends each to its target. */
  lemma {:induction false} GroupsPairs(e: Engine, p: Name, fs: seq<Field>)
    ensures Pairs(Groups(e, p, fs)) == set f | f in fs :: (e.Target(p, f), f)
  {
    if fs != [] {
      var n := |fs| - 1;
      assert fs == fs[..n] + [fs[n]];
      GroupsPairs(e, p, fs[..n]);
      AddToPairs(Groups(e, p, fs[..n]), e.Target(p, fs[n]), fs[n]);
    }
  }

  // ----- one group per target

  /** The fields among `fs` that go to `t`, in order. */
  function SentTo(e: Engine, p: Name, fs: seq<Field>, t: nat): seq<Field> {
    if fs == [] then []
    else if e.Target(p, fs[0]) == t then [fs[0]] + SentTo(e, p, fs[1..], t)
    else SentTo(e, p, fs[1..], t)
  }

  /** Where the first field that goes to `t` stands. */
  function FirstUse(e: Engine, p: Name, fs: seq<Field>, t: nat): (i: nat)
    ensures i <= |fs|
  {
    if fs == [] || e.Target(p, fs[0]) == t then 0 else 1 + FirstUse(e, p, fs[1..], t)
  }

  lemma {:induction false} SentMember(e: Engine, p: Name, fs: seq<Field>, t: nat, f: Field)
    ensures f in SentTo(e, p, fs, t) <==> f in fs && e.Target(p, f) == t
  {
    if fs != [] {
      SentMember(e, p, fs[1..], t, f);
      assert f in fs <==> f == fs[0] || f in fs[1..];
    }
  }

  /** It is the first: none before it goes there. */
  lemma {:induction false} FirstUseExact(e: Engine, p: Name, fs: seq<Field>, t: nat)
    ensures var i := FirstUse(e, p, fs, t);
            && (i < |fs| ==> e.Target(p, fs[i]) == t)
            && forall j :: 0 <= j < i ==> e.Target(p, fs[j]) != t
  {
    if fs != [] && e.Target(p, fs[0]) != t {
      FirstUseExact(e, p, fs[1..], t);
      assert forall j :: 1 <= j < |fs| ==> fs[j] == fs[1..][j - 1];
    }
  }

  lemma {:induction false} SentSnoc(e: Engine, p: Name, fs: seq<Field>, f: Field, t: nat)
    ensures SentTo(e, p, fs + [f], t) == SentTo(e, p, fs, t) + if e.Target(p, f) == t then [f] else []
  {
    if fs == [] {
      assert fs + [f] == [f] && [f][1..] == [];
    } else {
      assert (fs + [f])[1..] == fs[1..] + [f];
      SentSnoc(e, p, fs[1..], f, t);
    }
  }

  lemma {:induction false} FirstUseSnoc(e: Engine, p: Name, fs: seq<Field>, f: Field, t: nat)
    ensures FirstUse(e, p, fs, t) < |fs| ==> FirstUse(e, p, fs + [f], t) == FirstUse(e, p, fs, t)
    ensures FirstUse(e, p, fs, t) == |fs| && e.Target(p, f) == t ==> FirstUse(e, p, fs + [f], t) == |fs|
  {
    if fs != [] {
      assert (fs + [f])[1..] == fs[1..] + [f];
      FirstUseSnoc(e, p, fs[1..], f, t);
    }
  }

  ghost predicate Targeted(gs: seq<Group>, t: nat) {
    exists i :: 0 <= i < |gs| && gs[i].target == t
  }

  ghost predicate DistinctTargets(gs: seq<Group>) {
    forall i, j :: 0 <= i < j < |gs| ==> gs[i].target != gs[j].target
  }

  /** Group `g` after field `f` went to `t`. */
  function Extended(g: Group, t: nat, f: Field): Group {
    Group(g.target, g.fields + if g.target == t then [f] else [])
  }

  /** `r` is `gs` with `f` in its target's group, which is new and last when
      no group had that target. */
  ghost predicate AddedTo(gs: seq<Group>, t: nat, f: Field, r: seq<Group>) {
    && |r| == |gs| + (if Targeted(gs, t) then 0 else 1)
    && (forall i :: 0 <= i < |gs| ==> r[i] == Extended(gs[i], t, f))
    && (!Targeted(gs, t) ==> r[|gs|] == Group(t, [f]))
  }

  lemma {:induction false} AddedCons(g: Group, rest: seq<Group>, t: nat, f: Field, r: seq<Group>)
    requires g.target != t && AddedTo(rest, t, f, r)
    ensures AddedTo([g] + rest, t, f, [g] + r)
  {
    var gs, all := [g] + rest, [g] + r;
    assert forall i :: 1 <= i < |gs| ==> gs[i] == rest[i - 1];
    assert Targeted(rest, t) ==> Targeted(gs, t) by {
      if Targeted(rest, t) {
        var i :| 0 <= i < |rest| && rest[i].target == t;
        assert gs[i + 1].target == t;
      }
    }
    assert g.fields + [] == g.fields;
    forall i | 0 <= i < |gs| ensures all[i] == Extended(gs[i], t, f) {
      if i > 0 {
        assert all[i] == r[i - 1];
      }
    }
    assert !Targeted(rest, t) ==> all[|gs|] == r[|rest|];
  }

  lemma {:induction false} AddedHere(gs: seq<Group>, t: nat, f: Field)
    requires gs != [] && gs[0].target == t && DistinctTargets(gs)
    ensures AddedTo(gs, t, f, [Group(t, gs[0].fields + [f])] + gs[1..])
  {
    var r := [Group(t, gs[0].fields + [f])] + gs[1..];
    assert Targeted(gs, t);
    forall i | 0 <= i < |gs| ensures r[i] == Extended(gs[i], t, f) {
      assert i > 0 ==> r[i] == gs[i] && gs[i].fields + [] == gs[i].fields;
    }
  }

  /** Adding a field extends its target's group, or opens one at the end. */
  lemma {:induction false} AddToAt(gs: seq<Group>, t: nat, f: Field)
    requires DistinctTargets(gs)
    ensures AddedTo(gs, t, f, AddTo(gs, t, f))
  {
    if gs != [] {
      if gs[0].target == t {
        AddedHere(gs, t, f);
      } else {
        assert forall i :: 0 <= i < |gs[1..]| ==> gs[1..][i] == gs[i + 1];
        AddToAt(gs[1..], t, f);
        AddedCons(gs[0], gs[1..], t, f, AddTo(gs[1..], t, f));
        assert [gs[0]] + gs[1..] == gs;
      }
    }
  }

  /** Each group holds exactly the fields of its target, in their order. */
  ghost predicate GroupHolds(e: Engine, p: Name, fs: seq<Field>, g: Group) {
    g.fields != [] && g.fields == SentTo(e, p, fs, g.target)
  }

  /** One group per target, in the order of first use. */
  ghost predicate ByFirstUse(e: Engine, p: Name, fs: seq<Field>, gs: seq<Group>) {
    forall i, j :: 0 <= i < j < |gs| ==> FirstUse(e, p, fs, gs[i].target) < FirstUse(e, p, fs, gs[j].target)
  }

  /** Every field's target has a group. */
  ghost predicate AllTargeted(e: Engine, p: Name, fs: seq<Field>, gs: seq<Group>) {
    forall f :: f in fs ==> Targeted(gs, e.Target(p, f))
  }

  /** Every group holds what goes to its target. */
  ghost predicate AllHold(e: Engine, p: Name, fs: seq<Field>, gs: seq<Group>) {
    forall i :: 0 <= i < |gs| ==> GroupHolds(e, p, fs, gs[i])
  }

  /** Grouping is exact: targets are distinct and stand in the order of first
      use, every field's target has a group, and each group holds exactly the
      fields that go there, in their order. */
  lemma {:induction false} GroupsExact(e: Engine, p: Name, fs: seq<Field>)
    ensures var gs := Groups(e, p, fs);
            DistinctTargets(gs) && ByFirstUse(e, p, fs, gs) && AllHold(e, p, fs, gs) && AllTargeted(e, p, fs, gs)
  {
    if fs != [] {
      var init, f := fs[..|fs| - 1], fs[|fs| - 1];
      var gs := Groups(e, p, init);
      GroupsExact(e, p, init);
      assert fs == init + [f] && Groups(e, p, fs) == AddTo(gs, e.Target(p, f), f);
      GroupsStep(e, p, init, f, gs);
    }
  }

  lemma {:induction false} GroupsStep(e: Engine, p: Name, init: seq<Field>, f: Field, gs: seq<Group>)
    requires DistinctTargets(gs) && ByFirstUse(e, p, init, gs) && AllHold(e, p, init, gs) && AllTargeted(e, p, init, gs)
    ensures var r := AddTo(gs, e.Target(p, f), f);
            DistinctTargets(r) && ByFirstUse(e, p, init + [f], r) && AllHold(e, p, init + [f], r) && AllTargeted(e, p, init + [f], r)
  {
    var t := e.Target(p, f);
    if !Targeted(gs, t) {
      NewTarget(e, p, init, gs, t);
    }
    GroupsGrow(e, p, init, f, gs);
    forall h | h in init + [f] ensures Targeted(AddTo(gs, t, f), e.Target(p, h)) {
      TargetKept(gs, t, f, e.Target(p, h));
    }
  }

  lemma {:induction false} NewTarget(e: Engine, p: Name, fs: seq<Field>, gs: seq<Group>, t: nat)
    requires AllTargeted(e, p, fs, gs) && !Targeted(gs, t)
    ensures FirstUse(e, p, fs, t) == |fs| && SentTo(e, p, fs, t) == []
  {
    if fs != [] {
      assert fs[0] in fs;
      NewTarget(e, p, fs[1..], gs, t);
    }
  }

  lemma {:induction false} TargetKept(gs: seq<Group>, t: nat, f: Field, u: nat)
    requires DistinctTargets(gs) && (u == t || Targeted(gs, u))
    ensures Targeted(AddTo(gs, t, f), u)
  {
    AddToAt(gs, t, f);
    var r := AddTo(gs, t, f);
    if Targeted(gs, u) {
      var i :| 0 <= i < |gs| && gs[i].target == u;
      assert r[i].target == u;
    } else {
      assert r[|gs|].target == u;
    }
  }

  lemma {:induction false} GroupsGrow(e: Engine, p: Name, init: seq<Field>, f: Field, gs: seq<Group>)
    requires DistinctTargets(gs) && ByFirstUse(e, p, init, gs) && AllHold(e, p, init, gs)
    requires var t := e.Target(p, f); !Targeted(gs, t) ==> FirstUse(e, p, init, t) == |init| && SentTo(e, p, init, t) == []
    ensures var r := AddTo(gs, e.Target(p, f), f);
            DistinctTargets(r) && ByFirstUse(e, p, init + [f], r) && AllHold(e, p, init + [f], r)
  {
    var t := e.Target(p, f);
    var r := AddTo(gs, t, f);
    AddToAt(gs, t, f);
    forall i | 0 <= i < |r|
      ensures GroupHolds(e, p, init + [f], r[i])
      ensures i < |gs| ==> r[i].target == gs[i].target
                           && FirstUse(e, p, init + [f], r[i].target) == FirstUse(e, p, init, gs[i].target) < |init|
      ensures i == |gs| ==> FirstUse(e, p, init + [f], r[i].target) == |init|
    {
      if i < |gs| {
        assert r[i] == Extended(gs[i], t, f);
        GroupGrows(e, p, init, f, gs[i]);
      } else {
        SentSnoc(e, p, init, f, t);
        FirstUseSnoc(e, p, init, f, t);
      }
    }
    forall i, j | 0 <= i < j < |r| ensures FirstUse(e, p, init + [f], r[i].target) < FirstUse(e, p, init + [f], r[j].target) {
      assert j < |gs| ==> FirstUse(e, p, init, gs[i].target) < FirstUse(e, p, init, gs[j].target);
    }
  }

  lemma {:induction false} GroupGrows(e: Engine, p: Name, init: seq<Field>, f: Field, g: Group)
    requires GroupHolds(e, p, init, g)
    ensures GroupHolds(e, p, init + [f], Extended(g, e.Target(p, f), f))
    ensures FirstUse(e, p, init + [f], g.target) == FirstUse(e, p, init, g.target) < |init|
  {
    SentSnoc(e, p, init, f, g.target);
    FirstUseSnoc(e, p, init, f, g.target);
    SentUsed(e, p, init, g.target);
  }

  lemma {:induction false} SentUsed(e: Engine, p: Name, fs: seq<Field>, t: nat)
    requires SentTo(e, p, fs, t) != []
    ensures FirstUse(e, p, fs, t) < |fs|
  {
    if e.Target(p, fs[0]) != t {
      SentUsed(e, p, fs[1..], t);
    }
  }

  /** The targets of the fields a selection set leaves to others. */
  ghost function CutTargets(e: Engine, sg: nat, p: Name, sels: seq<Sel>): set<nat> {
    set f | f in Cuts(e, sg, p, sels) :: e.Target(p, f)
  }

  /** A selection set costs one fetch per distinct target: they are to
      different subgraphs, each asks in one request for all that its subgraph
      is to answer there, by that subgraph's own key. */
  lemma {:induction false} OneFetchPerTarget(e: Engine, sg: nat, p: Name, sels: seq<Sel>)
    ensures var cuts := Cuts(e, sg, p, sels);
            var ns := CutNodes(e, p, Groups(e, p, cuts));
            && |ns| == |CutTargets(e, sg, p, sels)|
            && (forall i, j :: 0 <= i < j < |ns| ==> ns[i].cut.subgraph != ns[j].cut.subgraph)
            && (forall i :: 0 <= i < |ns| ==> ns[i].cut.subgraph in CutTargets(e, sg, p, sels) && AsksAll(e, p, cuts, ns[i].cut))
  {
    var cuts := Cuts(e, sg, p, sels);
    var gs := Groups(e, p, cuts);
    GroupsExact(e, p, cuts);
    NodesOfGroups(e, p, gs);
    forall i | 0 <= i < |gs| ensures gs[i].target in CutTargets(e, sg, p, sels) && AsksAll(e, p, cuts, CutNode(e, p, gs[i]).cut) {
      assert GroupHolds(e, p, cuts, gs[i]);
      SentMember(e, p, cuts, gs[i].target, gs[i].fields[0]);
    }
    CountTargets(gs, CutTargets(e, sg, p, sels));
  }

  /** The fetch asks its subgraph, by that subgraph's key of type `p`, for all
      of `fs` that goes there. */
  predicate AsksAll(e: Engine, p: Name, fs: seq<Field>, cut: Cut) {
    && cut.typeName == p
    && cut.keyFields == e.KeysOf(p, cut.subgraph)
    && cut.text == PrintedAll(e, cut.subgraph, SentTo(e, p, fs, cut.subgraph))
  }

  lemma {:induction false} NodesOfGroups(e: Engine, p: Name, gs: seq<Group>)
    ensures |CutNodes(e, p, gs)| == |gs|
    ensures forall i :: 0 <= i < |gs| ==> CutNodes(e, p, gs)[i] == CutNode(e, p, gs[i])
  {
    if gs != [] {
      NodesOfGroups(e, p, gs[1..]);
    }
  }

  lemma {:induction false} CountTargets(gs: seq<Group>, ts: set<nat>)
    requires DistinctTargets(gs)
    requires forall i :: 0 <= i < |gs| ==> gs[i].target in ts
    requires forall t :: t in ts ==> Targeted(gs, t)
    ensures |gs| == |ts|
  {
    if gs == [] {
      assert ts == {};
    } else {
      var n := |gs| - 1;
      var rest := ts - {gs[n].target};
      forall t | t in rest ensures Targeted(gs[..n], t) {
        var i :| 0 <= i < |gs| && gs[i].target == t;
        assert gs[..n][i].target == t;
      }
      CountTargets(gs[..n], rest);
    }
  }

  /** The picked target is the first owner with a key of its own. */
  lemma {:induction false} FirstReachable(e: Engine, ty: Name, os: seq<nat>)
    ensures match e.PickTarget(ty, os)
            case None => forall i :: 0 <= i < |os| ==> !e.HasKey(ty, os[i])
            case Some(o) => exists i :: 0 <= i < |os| && os[i] == o && e.HasKey(ty, o) && forall j :: 0 <= j < i ==> !e.HasKey(ty, os[j])
  {
    if os != [] {
      if e.HasKey(ty, os[0]) {
        assert os[0] == os[0];
      } else {
        FirstReachable(e, ty, os[1..]);
        assert forall i :: 1 <= i < |os| ==> os[i] == os[1..][i - 1];
        var picked := e.PickTarget(ty, os);
        if picked.Some? {
          var i :| 0 <= i < |os[1..]| && os[1..][i] == picked.value && forall j :: 0 <= j < i ==> !e.HasKey(ty, os[1..][j]);
          assert os[i + 1] == picked.value;
        }
      }
    }
  }

  /** Which fields a selection set leaves to others: those of an entity whose
      owners are recorded and do not include the asked subgraph. */
  lemma {:induction false} CutsExact(e: Engine, sg: nat, p: Name, sels: seq<Sel>, f: Field)
    ensures f in Cuts(e, sg, p, sels) <==>
              && F(f) in sels
              && !IsMeta(f.name)
              && p in e.keys
              && (p, f.name) in e.owners && sg !in e.owners[(p, f.name)]
  {
    if sels != [] {
      CutsExact(e, sg, p, sels[1..], f);
      assert F(f) in sels <==> F(f) == sels[0] || F(f) in sels[1..];
    }
  }

  /** The asked subgraph owns every entity field below. */
  ghost predicate OwnedThroughout(e: Engine, sg: nat, p: Name, sels: seq<Sel>)
    decreases DepthOf(sels), 1
  {
    forall x :: x in sels ==> (DepthMember(sels, x); SelOwned(e, sg, p, x))
  }

  ghost predicate SelOwned(e: Engine, sg: nat, p: Name, x: Sel)
    decreases Depth(x), 0
  {
    match x
    case F(f) =>
      assert Depth(x) == DepthF(f);
      && (p in e.keys && (p, f.name) in e.owners && !IsMeta(f.name) ==> sg in e.owners[(p, f.name)])
      && OwnedThroughout(e, sg, f.ty, f.sels)
    case Frag(cond, _, sub) => OwnedThroughout(e, sg, cond, sub)
  }

  /** What one subgraph owns costs no further fetch. */
  lemma {:induction false} OwnedCostsNothing(e: Engine, sg: nat, p: Name, sels: seq<Sel>)
    requires OwnedThroughout(e, sg, p, sels)
    ensures Nodes(e, sg, p, sels) == []
    decreases DepthOf(sels), 1
  {
    LocalsCostNothing(e, sg, p, sels);
    NothingCut(e, sg, p, sels);
  }

  lemma {:induction false} NothingCut(e: Engine, sg: nat, p: Name, sels: seq<Sel>)
    requires forall x :: x in sels ==> SelOwned(e, sg, p, x)
    ensures Cuts(e, sg, p, sels) == []
  {
    if sels != [] {
      assert sels[0] in sels && SelOwned(e, sg, p, sels[0]);
      NothingCut(e, sg, p, sels[1..]);
    }
  }

  lemma {:induction false} LocalsCostNothing(e: Engine, sg: nat, p: Name, sels: seq<Sel>)
    requires forall x :: x in sels ==> SelOwned(e, sg, p, x)
    ensures LocalNodes(e, sg, p, sels) == []
    decreases DepthOf(sels), 0, |sels|
  {
    if sels != [] {
      var x := sels[0];
      assert x in sels && SelOwned(e, sg, p, x);
      LocalsCostNothing(e, sg, p, sels[1..]);
      match x
      case F(f) =>
        assert Depth(x) == DepthF(f) == 1 + DepthOf(f.sels);
        OwnedCostsNothing(e, sg, f.ty, f.sels);
        assert Prefix(Key(f.Key()), []) == [] && FieldNodes(e, sg, f) == [];
      case Frag(cond, _, sub) =>
        assert Depth(x) == 1 + DepthOf(sub);
        OwnedCostsNothing(e, sg, cond, sub);
        assert Prefix(TypeCond(cond), []) == [];
    }
  }

  ghost predicate Once(ks: seq<Name>) {
    forall i, j :: 0 <= i < j < |ks| ==> ks[i] != ks[j]
  }

  lemma OnceBoth(a: seq<Name>, b: seq<Name>)
    requires Once(a) && Once(b) && forall k :: k in a ==> k !in b
    ensures Once(a + b)
  {
    forall i, j | 0 <= i < j < |a + b| ensures (a + b)[i] != (a + b)[j] {
      if i < |a| <= j {
        assert a[i] in a && b[j - |a|] in b;
      }
    }
  }

  lemma {:induction false} NewKeysExact(ks: seq<Name>, seen: set<Name>)
    ensures forall k :: k in NewKeys(ks, seen) <==> k in ks && k !in seen
    ensures Once(NewKeys(ks, seen))
  {
    if ks != [] {
      NewKeysExact(ks[1..], if ks[0] in seen then seen else seen + {ks[0]});
      assert forall k :: k in ks <==> k == ks[0] || k in ks[1..];
    }
  }

  ghost predicate Needs(e: Engine, p: Name, gs: seq<Group>, k: Name) {
    exists g :: g in gs && k in e.KeysOf(p, g.target)
  }

  /** A selection set is asked for exactly the key fields its fetches need,
      each once. */
  lemma {:induction false} InjectedExact(e: Engine, p: Name, gs: seq<Group>, seen: set<Name>)
    ensures forall k :: k in InjectedKeys(e, p, gs, seen) <==> Needs(e, p, gs, k) && k !in seen
    ensures Once(InjectedKeys(e, p, gs, seen))
  {
    if gs != [] {
      var ks := e.KeysOf(p, gs[0].target);
      var more := seen + set k | k in ks;
      NewKeysExact(ks, seen);
      InjectedExact(e, p, gs[1..], more);
      forall k ensures Needs(e, p, gs, k) <==> k in ks || Needs(e, p, gs[1..], k) {
        assert forall g :: g in gs <==> g == gs[0] || g in gs[1..];
      }
      OnceBoth(NewKeys(ks, seen), InjectedKeys(e, p, gs[1..], more));
    }
  }
}
