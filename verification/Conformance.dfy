/** When the merge walk finds its objects in replies that have the shape of
    their requests: the planned fetches need only be undisturbed. Replies may
    be wrong about the data, leave fields out, return fewer or more entities
    or null ones. */
module Conformance {
  import opened Basics
  import opened GraphQl
  import opened Plan
  import opened PlanFacts
  import opened Exec
  import opened Federation
  import opened Meaning
  import opened Resolver
  import opened Merging
  import opened Subqueries
  import opened Convergence
  import EndToEnd

  // ----- replies that conform to their requests

  /** `j` has the shape of a response to `sels` at type `r`: objects name a
      type of `sg` that may stand there and hold selected keys only. */
  ghost predicate Shaped(s: Sup, sg: nat, r: Name, sels: seq<Sel>, j: Json)
    decreases DepthOf(sels), 2, j
  {
    match j
    case Arr(items) => forall i :: 0 <= i < |items| ==> Shaped(s, sg, r, sels, items[i])
    case Obj(m) =>
      s.schema.Composite(r) ==>
        && TypeNameOf(m).Some?
        && TypeNameOf(m).value in s.schema.ps[r]
        && s.Defines(sg, TypeNameOf(m).value)
        && ShapedMembers(s, sg, TypeNameOf(m).value, Collect(s.schema.ps, TypeNameOf(m).value, sels), m)
    case _ => true
  }

  ghost predicate ShapedMembers(s: Sup, sg: nat, t: Name, fs: seq<Field>, m: map<Name, Json>)
    decreases FieldsDepth(fs), 1
  {
    forall k :: k in m ==> ShapedMember(s, sg, t, fs, k, m[k])
  }

  ghost predicate ShapedMember(s: Sup, sg: nat, t: Name, fs: seq<Field>, k: Name, j: Json)
    decreases FieldsDepth(fs), 0
  {
    && k in Keys(fs)
    && forall h :: h in With(fs, k) && (t, h.name) in s.schema.fieldTy ==>
         Shaped(s, sg, s.schema.fieldTy[(t, h.name)], Subs(With(fs, k)), j)
  }

  ghost predicate ShapedReply(s: Sup, req: Request, reply: Reply) {
    reply.Answer? && reply.data.Some? ==>
      if req.reps.None? then ShapedMembers(s, req.subgraph, EndToEnd.QUERY, req.text, reply.data.value)
      else forall e :: e in Entities(reply.data) ==> ShapedEntity(s, req, e)
  }

  ghost predicate ShapedEntity(s: Sup, req: Request, e: Json)
    requires req.reps.Some?
  {
    !e.Arr? && (e.Obj? ==> ShapedMembers(s, req.subgraph, req.reps.value.0, req.text, e.fields))
  }

  ghost predicate Conforming(s: Sup, ft: Fetch) {
    forall req :: ShapedReply(s, req, ft(req))
  }

  // ----- selections whose fetches nothing disturbs

  /** A local field that fetches go on through is local on every type its
      objects may have, and no foreign field answers under `__typename`. */
  ghost predicate Undisturbed(s: Sup, sg: nat, p: Name, sels: seq<Sel>)
    decreases DepthOf(sels), 1
  {
    forall x :: x in sels ==> (DepthMember(sels, x); UndisturbedSel(s, sg, p, x))
  }

  ghost predicate UndisturbedSel(s: Sup, sg: nat, p: Name, x: Sel)
    decreases Depth(x), 0
  {
    match x
    case F(f) =>
      assert Depth(x) == DepthF(f);
      if s.e.Local(sg, p, f) then
        (FieldNodes(s.e, sg, f) == [] || AnsweredThroughAbstract(s, sg, p, f)) && Undisturbed(s, sg, f.ty, f.sels)
      else
        f.Key() != TYPENAME && Undisturbed(s, s.e.Target(p, f), f.ty, f.sels)
    case Frag(cond, _, sub) => Undisturbed(s, sg, cond, sub)
  }

  /** Two of the query rules are enough. */
  lemma {:induction false} RulesUndisturbed(rules: set<Rule>, s: Sup, sg: nat, p: Name, sels: seq<Sel>)
    requires ThroughAbstract in rules && Splits(rules, s, sg, p, sels) && Clean(sels)
    ensures Undisturbed(s, sg, p, sels)
    decreases DepthOf(sels)
  {
    forall x | x in sels ensures UndisturbedSel(s, sg, p, x) {
      DepthMember(sels, x);
      assert SplitsSel(rules, s, sg, p, x) && CleanSel(x);
      match x
      case F(f) =>
        assert Depth(x) == DepthF(f) && IsMeta(TYPENAME);
        RulesUndisturbed(rules, s, if s.e.Local(sg, p, f) then sg else s.e.Target(p, f), f.ty, f.sels);
      case Frag(cond, _, sub) => RulesUndisturbed(rules, s, sg, cond, sub);
    }
  }

  // ----- what the fetches that concern one object come from

  /** The tables the planner reads are those of a composed schema. */
  ghost predicate Tabled(s: Sup) {
    s.schema.Coherent() && s.EntitiesAreObjects()
  }

  ghost predicate Standing(s: Sup, sg: nat, p: Name, t: Name, sels: seq<Sel>) {
    && Tabled(s)
    && s.schema.Composite(p)
    && t in s.schema.ps[p]
    && s.Defines(sg, t)
    && Typed(s.schema, p, sels)
    && Undisturbed(s, sg, p, sels)
  }

  /** Fetches go on through field `f` of an object of type `t`. */
  ghost predicate GoesOn(s: Sup, sg: nat, t: Name, f: Field) {
    && s.e.Local(sg, t, f)
    && (t, f.name) in s.schema.fieldTy
    && s.schema.Narrower(s.schema.fieldTy[(t, f.name)], f.ty)
    && s.schema.Composite(f.ty)
    && Typed(s.schema, f.ty, f.sels)
    && Undisturbed(s, sg, f.ty, f.sels)
  }

  /** A fetch that goes on below key `k` of an object. */
  lemma {:induction false} DerivFrom(s: Sup, sg: nat, p: Name, t: Name, sels: seq<Sel>, n: FetchNode, k: Name) returns (g: Field)
    requires Standing(s, sg, p, t, sels) && n in Nodes(s.e, sg, p, sels) && Enters(Some(t), n.path, k)
    ensures g in Collect(s.schema.ps, t, sels) && g.Key() == k && GoesOn(s, sg, t, g)
    ensures Printed(s.e, sg, g) in Collect(s.schema.ps, t, Text(s.e, sg, p, sels))
    ensures n.(path := Strip(n.path, Some(t)).value[1..]) in Nodes(s.e, sg, g.ty, g.sels)
    decreases DepthOf(sels), 2
  {
    CutNodesAt(s.e, p, Groups(s.e, p, Cuts(s.e, sg, p, sels)));
    TextCollect(s.e, s.schema.ps, sg, p, t, sels);
    g := LocalDerivFrom(s, sg, p, t, sels, n, k);
  }

  lemma {:induction false} LocalDerivFrom(s: Sup, sg: nat, p: Name, t: Name, sels: seq<Sel>, n: FetchNode, k: Name) returns (g: Field)
    requires Standing(s, sg, p, t, sels) && n in LocalNodes(s.e, sg, p, sels) && Enters(Some(t), n.path, k)
    ensures g in Collect(s.schema.ps, t, sels) && g.Key() == k && GoesOn(s, sg, t, g)
    ensures Printed(s.e, sg, g) in Collect(s.schema.ps, t, LocalText(s.e, sg, p, sels))
    ensures n.(path := Strip(n.path, Some(t)).value[1..]) in Nodes(s.e, sg, g.ty, g.sels)
    decreases DepthOf(sels), 1, |sels|
  {
    var x := sels[0];
    assert x in sels && UndisturbedSel(s, sg, p, x) && TypedSel(s.schema, p, x);
    CollectAppend(s.schema.ps, t, SelText(s.e, sg, p, x), LocalText(s.e, sg, p, sels[1..]));
    if n in SelNodes(s.e, sg, p, x) {
      assert Standing(s, sg, p, t, [x]);
      assert sels == [x] + sels[1..];
      CollectAppend(s.schema.ps, t, [x], sels[1..]);
      g := SelDerivFrom(s, sg, p, t, x, n, k);
    } else {
      g := LocalDerivFrom(s, sg, p, t, sels[1..], n, k);
    }
  }

  lemma {:induction false} SelDerivFrom(s: Sup, sg: nat, p: Name, t: Name, x: Sel, n: FetchNode, k: Name) returns (g: Field)
    requires Standing(s, sg, p, t, [x]) && n in SelNodes(s.e, sg, p, x) && Enters(Some(t), n.path, k)
    ensures g in Collect(s.schema.ps, t, [x]) && g.Key() == k && GoesOn(s, sg, t, g)
    ensures Printed(s.e, sg, g) in Collect(s.schema.ps, t, SelText(s.e, sg, p, x))
    ensures n.(path := Strip(n.path, Some(t)).value[1..]) in Nodes(s.e, sg, g.ty, g.sels)
    decreases Depth(x), 0
  {
    assert x in [x] && UndisturbedSel(s, sg, p, x) && TypedSel(s.schema, p, x);
    match x
    case F(f) =>
      FieldGoesOn(s, sg, p, t, f, n);
      PrefixHeads(Key(f.Key()), Nodes(s.e, sg, f.ty, f.sels));
      CollectOne(s.schema.ps, t, f);
      CollectOne(s.schema.ps, t, Printed(s.e, sg, f));
      g := f;
    case Frag(cond, dirs, sub) =>
      PrefixHeads(TypeCond(cond), Nodes(s.e, sg, cond, sub));
      CondStands(s, sg, p, t, x, n);
      g := DerivFrom(s, sg, cond, t, sub, if cond != p then n.(path := n.path[1..]) else n, k);
      FragCollect(s.schema.ps, t, cond, dirs, sub);
      FragCollect(s.schema.ps, t, cond, dirs, Text(s.e, sg, cond, sub));
  }

  lemma {:induction false} FieldGoesOn(s: Sup, sg: nat, p: Name, t: Name, f: Field, n: FetchNode)
    requires Tabled(s) && s.schema.Composite(p) && t in s.schema.ps[p] && s.Defines(sg, t)
    requires TypedSel(s.schema, p, F(f)) && UndisturbedSel(s, sg, p, F(f)) && s.e.Local(sg, p, f) && n in FieldNodes(s.e, sg, f)
    ensures GoesOn(s, sg, t, f)
  {
  }

  /** A condition on the path of a fetch that concerns the object applies. */
  lemma {:induction false} CondStands(s: Sup, sg: nat, p: Name, t: Name, x: Sel, n: FetchNode)
    requires Tabled(s) && s.schema.Composite(p) && t in s.schema.ps[p] && s.Defines(sg, t) && x.Frag?
    requires TypedSel(s.schema, p, x) && UndisturbedSel(s, sg, p, x)
    requires x.cond != p ==> n.path != [] && n.path[0] == TypeCond(x.cond) && Strip(n.path, Some(t)).Some?
    ensures Standing(s, sg, x.cond, t, x.fsels) && Applies(s.schema.ps, t, x.cond)
    ensures x.cond != p ==> Strip(n.path[1..], Some(t)) == Strip(n.path, Some(t))
  {
    assert s.schema.IsObject(t) && (x.cond != p ==> x.cond == t);
  }

  lemma FragCollect(ps: Poss, t: Name, cond: Name, dirs: seq<Directive>, sub: seq<Sel>)
    requires Applies(ps, t, cond)
    ensures Collect(ps, t, [Frag(cond, dirs, sub)]) == Collect(ps, t, sub)
  {
    assert [Frag(cond, dirs, sub)][1..] == [];
  }

  /** A key that a fetch ending at an object brings. */
  lemma {:induction false} OwnFrom(s: Sup, sg: nat, p: Name, t: Name, sels: seq<Sel>, n: FetchNode, k: Name) returns (f: Field)
    requires Standing(s, sg, p, t, sels) && n in Nodes(s.e, sg, p, sels) && Strip(n.path, Some(t)) == Some([]) && k in Keys(n.cut.text)
    ensures f in Collect(s.schema.ps, t, sels) && f.Key() == k && !s.e.Local(sg, t, f) && k != TYPENAME
    decreases DepthOf(sels), 2
  {
    var gs := Groups(s.e, p, Cuts(s.e, sg, p, sels));
    if n in CutNodes(s.e, p, gs) {
      CutNodesAt(s.e, p, gs);
      var i :| 0 <= i < |gs| && n == CutNode(s.e, p, gs[i]);
      PrintedKeys(s.e, gs[i].target, gs[i].fields, k);
      f :| f in gs[i].fields && f.Key() == k;
      CutFieldFrom(s.e, sg, p, sels, gs[i], f);
      CollectDirect(s.schema.ps, t, sels, f);
      assert UndisturbedSel(s, sg, p, F(f));
    } else {
      f := LocalOwnFrom(s, sg, p, t, sels, n, k);
    }
  }

  lemma {:induction false} CutFieldFrom(e: Engine, sg: nat, p: Name, sels: seq<Sel>, g: Group, f: Field)
    requires g in Groups(e, p, Cuts(e, sg, p, sels)) && f in g.fields
    ensures F(f) in sels && !e.Local(sg, p, f) && g.target == e.Target(p, f)
  {
    var cuts := Cuts(e, sg, p, sels);
    GroupsPairs(e, p, cuts);
    PairsMember(Groups(e, p, cuts), g.target, f);
    assert (g.target, f) in (set h | h in cuts :: (e.Target(p, h), h));
    CutsMember(e, sg, p, sels, f);
  }

  lemma {:induction false} CollectDirect(ps: Poss, t: Name, sels: seq<Sel>, f: Field)
    requires F(f) in sels
    ensures f in Collect(ps, t, sels)
  {
    if sels[0] != F(f) {
      CollectDirect(ps, t, sels[1..], f);
    }
  }

  /** No fetch below a field ends at the object that has the field. */
  lemma {:induction false} FieldsEndBelow(e: Engine, sg: nat, f: Field, n: FetchNode, tn: Option<Name>)
    requires n in FieldNodes(e, sg, f)
    ensures Strip(n.path, tn) == Some(n.path) && n.path != []
  {
    PrefixHeads(Key(f.Key()), Nodes(e, sg, f.ty, f.sels));
    assert n.path != [] && n.path[0] == Key(f.Key());
    StripUntested(n.path, tn);
  }

  lemma {:induction false} LocalOwnFrom(s: Sup, sg: nat, p: Name, t: Name, sels: seq<Sel>, n: FetchNode, k: Name) returns (f: Field)
    requires Standing(s, sg, p, t, sels) && n in LocalNodes(s.e, sg, p, sels) && Strip(n.path, Some(t)) == Some([]) && k in Keys(n.cut.text)
    ensures f in Collect(s.schema.ps, t, sels) && f.Key() == k && !s.e.Local(sg, t, f) && k != TYPENAME
    decreases DepthOf(sels), 1, |sels|
  {
    var x := sels[0];
    assert x in sels && UndisturbedSel(s, sg, p, x) && TypedSel(s.schema, p, x);
    if n in SelNodes(s.e, sg, p, x) {
      match x
      case F(h) =>
        FieldsEndBelow(s.e, sg, h, n, Some(t));
        assert false;
      case Frag(cond, _, sub) =>
        assert Depth(x) == 1 + DepthOf(sub);
        PrefixHeads(TypeCond(cond), Nodes(s.e, sg, cond, sub));
        CondStands(s, sg, p, t, x, n);
        f := OwnFrom(s, sg, cond, t, sub, if cond != p then n.(path := n.path[1..]) else n, k);
    } else {
      f := LocalOwnFrom(s, sg, p, t, sels[1..], n, k);
    }
  }

  // ----- conforming values are clear

  /** The collected fields of `a` are among those of `b`, on every type. */
  ghost predicate Covers(ps: Poss, b: seq<Sel>, a: seq<Sel>) {
    forall t, h :: h in Collect(ps, t, a) ==> h in Collect(ps, t, b)
  }

  lemma {:induction false} SubsCover(ps: Poss, fs: seq<Field>, f: Field)
    requires f in fs
    ensures Covers(ps, Subs(fs), f.sels)
  {
    forall t, h | h in Collect(ps, t, f.sels) ensures h in Collect(ps, t, Subs(fs)) {
      CollectAppend(ps, t, fs[0].sels, Subs(fs[1..]));
      if fs[0] != f {
        SubsCover(ps, fs[1..], f);
      }
    }
  }

  /** Two occurrences `f` and `g` of a response key of type `r`. */
  ghost predicate Together(s: Sup, sg: nat, r: Name, f: Field, g: Field, sels: seq<Sel>) {
    && Tabled(s)
    && Mergeable(s.schema.ps, f, g)
    && s.schema.Composite(r)
    && Occurs(s, sg, r, f, sels)
    && Occurs(s, sg, r, g, sels)
  }

  ghost predicate Occurs(s: Sup, sg: nat, r: Name, f: Field, sels: seq<Sel>) {
    && s.schema.Narrower(r, f.ty)
    && Typed(s.schema, f.ty, f.sels)
    && Undisturbed(s, sg, f.ty, f.sels)
    && Covers(s.schema.ps, sels, Text(s.e, sg, f.ty, f.sels))
  }

  /** In a conforming value no fetch below one field loses objects to a
      fetch below another. */
  lemma {:induction false} ValueClear(s: Sup, sg: nat, r: Name, f: Field, g: Field, sels: seq<Sel>, j: Json, a: FetchNode, b: FetchNode)
    requires Together(s, sg, r, f, g, sels) && Shaped(s, sg, r, sels, j)
    requires a in Nodes(s.e, sg, f.ty, f.sels) && b in Nodes(s.e, sg, g.ty, g.sels)
    ensures ClearOn(j, b.path, a.path, Keys(a.cut.text), a.cut.typeName)
    decreases j
  {
    match j
    case Arr(items) =>
      forall i | 0 <= i < |items| ensures ClearOn(items[i], b.path, a.path, Keys(a.cut.text), a.cut.typeName) {
        ValueClear(s, sg, r, f, g, sels, items[i], a, b);
      }
    case Obj(m) =>
      var t := TypeNameOf(m).value;
      var q := Strip(a.path, Some(t));
      if q == Some([]) {
        EndsClear(s, sg, r, f, g, sels, t, a, b);
      } else if q.Some? {
        forall k | k in m && q.value[0] == Key(k) && Enters(Some(t), b.path, k)
          ensures ClearOn(m[k], Strip(b.path, Some(t)).value[1..], q.value[1..], Keys(a.cut.text), a.cut.typeName)
        {
          var f', g', sels' := MemberTogether(s, sg, r, f, g, sels, t, m, k, a, b);
          ValueClear(s, sg, s.schema.fieldTy[(t, f'.name)], f', g', sels', m[k], a.(path := q.value[1..]), b.(path := Strip(b.path, Some(t)).value[1..]));
        }
      }
    case _ =>
  }

  lemma {:induction false} EndsClear(s: Sup, sg: nat, r: Name, f: Field, g: Field, sels: seq<Sel>, t: Name, a: FetchNode, b: FetchNode)
    requires Together(s, sg, r, f, g, sels) && t in s.schema.ps[r] && s.Defines(sg, t)
    requires a in Nodes(s.e, sg, f.ty, f.sels) && b in Nodes(s.e, sg, g.ty, g.sels) && Strip(a.path, Some(t)) == Some([])
    ensures Spares(Some(t), b.path, Keys(a.cut.text))
  {
    forall k | k in Keys(a.cut.text) ensures k != TYPENAME && !Enters(Some(t), b.path, k) {
      var f' := OwnFrom(s, sg, f.ty, t, f.sels, a, k);
      if Enters(Some(t), b.path, k) {
        var g' := DerivFrom(s, sg, g.ty, t, g.sels, b, k);
        MergePair(s.schema.ps, t, f, g, f', g');
      }
    }
  }

  lemma {:induction false} MemberTogether(s: Sup, sg: nat, r: Name, f: Field, g: Field, sels: seq<Sel>, t: Name, m: map<Name, Json>, k: Name,
                                          a: FetchNode, b: FetchNode) returns (f': Field, g': Field, sels': seq<Sel>)
    requires Together(s, sg, r, f, g, sels) && t in s.schema.ps[r] && s.Defines(sg, t)
    requires a in Nodes(s.e, sg, f.ty, f.sels) && b in Nodes(s.e, sg, g.ty, g.sels) && Enters(Some(t), a.path, k) && Enters(Some(t), b.path, k)
    requires ShapedMembers(s, sg, t, Collect(s.schema.ps, t, sels), m) && k in m
    ensures (t, f'.name) in s.schema.fieldTy && Together(s, sg, s.schema.fieldTy[(t, f'.name)], f', g', sels')
    ensures Shaped(s, sg, s.schema.fieldTy[(t, f'.name)], sels', m[k])
    ensures a.(path := Strip(a.path, Some(t)).value[1..]) in Nodes(s.e, sg, f'.ty, f'.sels)
    ensures b.(path := Strip(b.path, Some(t)).value[1..]) in Nodes(s.e, sg, g'.ty, g'.sels)
  {
    f' := DerivFrom(s, sg, f.ty, t, f.sels, a, k);
    g' := DerivFrom(s, sg, g.ty, t, g.sels, b, k);
    MergePair(s.schema.ps, t, f, g, f', g');
    var hs := With(Collect(s.schema.ps, t, sels), k);
    sels' := Subs(hs);
    assert ShapedMember(s, sg, t, Collect(s.schema.ps, t, sels), k, m[k]);
    PrintedCovered(s, sg, hs, f');
    PrintedCovered(s, sg, hs, g');
    assert Printed(s.e, sg, f') in hs && Printed(s.e, sg, f').name == f'.name;
  }

  lemma {:induction false} PrintedCovered(s: Sup, sg: nat, hs: seq<Field>, f: Field)
    requires Printed(s.e, sg, f) in hs && f.sels != []
    ensures Covers(s.schema.ps, Subs(hs), Text(s.e, sg, f.ty, f.sels))
  {
    SubsCover(s.schema.ps, hs, Printed(s.e, sg, f));
  }

  // ----- conforming replies to planned requests

  /** A valid field of `t` whose fetches nothing disturbs. */
  ghost predicate Fine(s: Sup, sg: nat, t: Name, f: Field) {
    && TypedSel(s.schema, t, F(f))
    && Undisturbed(s, sg, f.ty, f.sels)
    && MergesEverywhere(s.schema.ps, f.sels)
  }

  ghost predicate AllFine(s: Sup, sg: nat, t: Name, fs: seq<Field>) {
    SameKeyMergeable(s.schema.ps, fs) && forall f :: f in fs ==> Fine(s, sg, t, f)
  }

  /** The fetch was planned from the client's fields `fs`. */
  ghost predicate PlannedFrom(s: Sup, cut: Cut, fs: seq<Field>) {
    && cut.text == PrintedAll(s.e, cut.subgraph, fs)
    && cut.children == FieldsNodes(s.e, cut.subgraph, fs)
    && AllFine(s, cut.subgraph, cut.typeName, fs)
  }

  lemma {:induction false} NodePlanned(s: Sup, sg: nat, p: Name, sels: seq<Sel>, n: FetchNode) returns (fs: seq<Field>)
    requires Typed(s.schema, p, sels) && Undisturbed(s, sg, p, sels) && MergesEverywhere(s.schema.ps, sels) && n in Nodes(s.e, sg, p, sels)
    ensures PlannedFrom(s, n.cut, fs)
    decreases DepthOf(sels), 2
  {
    var gs := Groups(s.e, p, Cuts(s.e, sg, p, sels));
    if n in CutNodes(s.e, p, gs) {
      CutNodesAt(s.e, p, gs);
      var i :| 0 <= i < |gs| && n == CutNode(s.e, p, gs[i]);
      fs := gs[i].fields;
      GroupFine(s, sg, p, sels, gs[i]);
    } else {
      fs := LocalPlanned(s, sg, p, sels, n);
    }
  }

  lemma {:induction false} GroupFine(s: Sup, sg: nat, p: Name, sels: seq<Sel>, g: Group)
    requires Typed(s.schema, p, sels) && Undisturbed(s, sg, p, sels) && MergesEverywhere(s.schema.ps, sels)
    requires g in Groups(s.e, p, Cuts(s.e, sg, p, sels))
    ensures AllFine(s, g.target, p, g.fields)
  {
    forall f | f in g.fields ensures Fine(s, g.target, p, f) && f in Collect(s.schema.ps, p, sels) {
      CutFieldFrom(s.e, sg, p, sels, g, f);
      CollectDirect(s.schema.ps, p, sels, f);
      assert TypedSel(s.schema, p, F(f)) && UndisturbedSel(s, sg, p, F(f)) && MergesSel(s.schema.ps, F(f));
    }
  }

  lemma {:induction false} LocalPlanned(s: Sup, sg: nat, p: Name, sels: seq<Sel>, n: FetchNode) returns (fs: seq<Field>)
    requires n in LocalNodes(s.e, sg, p, sels)
    requires forall x :: x in sels ==> TypedSel(s.schema, p, x) && UndisturbedSel(s, sg, p, x) && MergesSel(s.schema.ps, x)
    ensures PlannedFrom(s, n.cut, fs)
    decreases DepthOf(sels), 1, |sels|
  {
    var x := sels[0];
    assert x in sels && UndisturbedSel(s, sg, p, x) && TypedSel(s.schema, p, x);
    if n in SelNodes(s.e, sg, p, x) {
      match x
      case F(f) =>
        assert Depth(x) == DepthF(f);
        fs := FieldPlanned(s, sg, p, f, n);
      case Frag(cond, _, sub) =>
        assert Depth(x) == 1 + DepthOf(sub);
        PrefixHeads(TypeCond(cond), Nodes(s.e, sg, cond, sub));
        fs := NodePlanned(s, sg, cond, sub, if cond != p then n.(path := n.path[1..]) else n);
    } else {
      fs := LocalPlanned(s, sg, p, sels[1..], n);
    }
  }

  lemma {:induction false} FieldPlanned(s: Sup, sg: nat, t: Name, f: Field, n: FetchNode) returns (fs: seq<Field>)
    requires Fine(s, sg, t, f) && n in FieldNodes(s.e, sg, f)
    ensures PlannedFrom(s, n.cut, fs)
    decreases DepthF(f), 0
  {
    PrefixHeads(Key(f.Key()), Nodes(s.e, sg, f.ty, f.sels));
    fs := NodePlanned(s, sg, f.ty, f.sels, n.(path := n.path[1..]));
  }

  lemma {:induction false} PrintedIn(e: Engine, sg: nat, fs: seq<Field>, f: Field)
    requires f in fs
    ensures Printed(e, sg, f) in PrintedAll(e, sg, fs)
  {
    if fs[0] != f {
      PrintedIn(e, sg, fs[1..], f);
    }
  }

  /** The fetches below a conforming reply. */
  lemma {:induction false} ReplyClear(s: Sup, sg: nat, t: Name, fs: seq<Field>, m: map<Name, Json>, a: FetchNode, b: FetchNode)
    requires Tabled(s) && AllFine(s, sg, t, fs) && ShapedMembers(s, sg, t, PrintedAll(s.e, sg, fs), m)
    requires a in FieldsNodes(s.e, sg, fs) && b in FieldsNodes(s.e, sg, fs)
    ensures ClearOn(Obj(m), b.path, a.path, Keys(a.cut.text), a.cut.typeName)
  {
    var f := SourceField(s.e, sg, fs, a);
    var g := SourceField(s.e, sg, fs, b);
    PrefixHeads(Key(f.Key()), Nodes(s.e, sg, f.ty, f.sels));
    PrefixHeads(Key(g.Key()), Nodes(s.e, sg, g.ty, g.sels));
    StripUntested(a.path, TypeNameOf(m));
    StripUntested(b.path, TypeNameOf(m));
    forall k | k in m && a.path[0] == Key(k) && b.path[0] == Key(k)
      ensures ClearOn(m[k], b.path[1..], a.path[1..], Keys(a.cut.text), a.cut.typeName)
    {
      assert Mergeable(s.schema.ps, f, g) && Fine(s, sg, t, f) && Fine(s, sg, t, g);
      var hs := With(PrintedAll(s.e, sg, fs), k);
      PrintedIn(s.e, sg, fs, f);
      PrintedIn(s.e, sg, fs, g);
      PrintedCovered(s, sg, hs, f);
      PrintedCovered(s, sg, hs, g);
      assert ShapedMember(s, sg, t, PrintedAll(s.e, sg, fs), k, m[k]);
      assert Printed(s.e, sg, f) in hs && Printed(s.e, sg, f).name == f.name;
      ValueClear(s, sg, f.ty, f, g, Subs(hs), m[k], a.(path := a.path[1..]), b.(path := b.path[1..]));
    }
  }

  // ----- the resolver

  ghost predicate ShapedEntities(s: Sup, sg: nat, t: Name, fs: seq<Field>, es: seq<Json>) {
    forall e :: e in es ==> !e.Arr? && (e.Obj? ==> ShapedMembers(s, sg, t, PrintedAll(s.e, sg, fs), e.fields))
  }

  lemma {:induction false} FetchAllAt(ft: Fetch, op: Operation, rv: Name, values: seq<Json>, ns: seq<FetchNode>, i: nat)
    requires i < |ns|
    ensures FetchAll(ft, op, rv, values, ns)[i] == FetchCut(ft, op, rv, Present(RepsAt(values, ns[i])), ns[i].cut)
  {
    var n := |ns| - 1;
    if i < n {
      FetchAllAt(ft, op, rv, values, ns[..n], i);
    }
  }

  /** One fetch of the tree: it converges and brings selected keys only. */
  lemma {:induction false} FetchConverges(s: Sup, ft: Fetch, op: Operation, rv: Name, reps: seq<map<Name, Json>>, cut: Cut, fs: seq<Field>)
    requires Tabled(s) && Conforming(s, ft) && PlannedFrom(s, cut, fs)
    ensures var out := FetchCut(ft, op, rv, reps, cut);
            Converged(out.problems) && OnlySelected(out, cut)
    decreases cut, 0
  {
    var req := EntityRequest(op, rv, cut, reps);
    if reps != [] && ft(req).Answer? {
      var es := Entities(ft(req).data);
      assert ShapedReply(s, req, ft(req));
      forall e | e in es
        ensures !e.Arr? && (e.Obj? ==> ShapedMembers(s, cut.subgraph, cut.typeName, PrintedAll(s.e, cut.subgraph, fs), e.fields))
        ensures e.Obj? ==> e.fields.Keys <= Keys(cut.text)
      {
        assert ShapedEntity(s, req, e);
        if e.Obj? {
          forall k | k in e.fields ensures k in Keys(cut.text) {
            assert ShapedMember(s, cut.subgraph, cut.typeName, cut.text, k, e.fields[k]);
          }
        }
      }
      ResolveConverges(s, ft, op, rv, es, cut.subgraph, cut.typeName, fs, cut.children);
      FieldsPaths(s.e, cut.subgraph, fs);
      SelectedKept(es, cut.children, FetchAll(ft, op, rv, es, cut.children), Keys(cut.text));
    }
  }

  lemma {:induction false} ResolveConverges(s: Sup, ft: Fetch, op: Operation, rv: Name, values: seq<Json>, sg: nat, t: Name, fs: seq<Field>,
                                            ns: seq<FetchNode>)
    requires Tabled(s) && Conforming(s, ft) && AllFine(s, sg, t, fs) && ShapedEntities(s, sg, t, fs, values) && ns == FieldsNodes(s.e, sg, fs)
    ensures Converged(ResolveNodes(ft, op, rv, values, ns).problems)
    decreases ns, 1
  {
    var outs := FetchAll(ft, op, rv, values, ns);
    forall i | 0 <= i < |ns| ensures OnlySelected(outs[i], ns[i].cut) && Converged(outs[i].problems) {
      FetchAllAt(ft, op, rv, values, ns, i);
      var f := SourceField(s.e, sg, fs, ns[i]);
      assert ns[i] in ns && Fine(s, sg, t, f);
      var fs' := FieldPlanned(s, sg, t, f, ns[i]);
      FetchConverges(s, ft, op, rv, Present(RepsAt(values, ns[i])), ns[i].cut, fs');
    }
    forall i, j | 0 <= i < j < |ns| ensures ClearAll(values, ns[j], ns[i]) {
      forall x | 0 <= x < |values| ensures ClearOn(values[x], ns[j].path, ns[i].path, Keys(ns[i].cut.text), ns[i].cut.typeName) {
        assert values[x] in values;
        if values[x].Obj? {
          ReplyClear(s, sg, t, fs, values[x].fields, ns[i], ns[j]);
        }
      }
    }
    MergesConverge(values, ns, outs, |ns|);
    assert ns[..|ns|] == ns && outs[..|ns|] == outs;
  }

  /** The branch the code marks unreachable is unreachable for every valid
      root selection whose fetches nothing disturbs and all replies that
      conform to their requests, at any depth. */
  lemma {:induction false} NeverDiverges(s: Sup, ft: Fetch, op: Operation, rv: Name, owner: nat, fs: seq<Field>)
    requires s.schema.Coherent() && s.EntitiesAreObjects() && Conforming(s, ft) && SameKeyMergeable(s.schema.ps, fs)
    requires forall f :: f in fs ==>
               TypedSel(s.schema, EndToEnd.QUERY, F(f)) && MergesEverywhere(s.schema.ps, f.sels) && Undisturbed(s, owner, f.ty, f.sels)
    ensures var req := EndToEnd.RootRequest(op, owner, PrintedAll(s.e, owner, fs));
            ft(req).Answer? ==>
              var data := Obj(if ft(req).data.Some? then ft(req).data.value else map[]);
              Converged(ResolveNodes(ft, op, rv, [data], FieldsNodes(s.e, owner, fs)).problems)
  {
    var req := EndToEnd.RootRequest(op, owner, PrintedAll(s.e, owner, fs));
    if ft(req).Answer? {
      assert ShapedReply(s, req, ft(req));
      forall f | f in fs ensures Fine(s, owner, EndToEnd.QUERY, f) {
      }
      var data := Obj(if ft(req).data.Some? then ft(req).data.value else map[]);
      ResolveConverges(s, ft, op, rv, [data], owner, EndToEnd.QUERY, fs, FieldsNodes(s.e, owner, fs));
    }
  }
}
