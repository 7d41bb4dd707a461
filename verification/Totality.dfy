/** Planning never fails on a composed supergraph: every table lookup hits,
    every foreign field has an owner with a key, and the only documents the
    planner refuses are those with an undefined fragment. */
module Totality {
  import opened Basics
  import opened GraphQl
  import opened Plan
  import opened PlanFacts
  import opened Federation
  import P = Planner
  import C = Compose
  import Supergraph
  import EndToEnd

  /** Every foreign field met while splitting `sels` has a target. */
  ghost predicate Plannable(e: Engine, sg: nat, p: Name, sels: seq<Sel>)
    decreases DepthOf(sels), 1
  {
    forall i :: 0 <= i < |sels| ==> (DepthMember(sels, sels[i]); PlannableSel(e, sg, p, sels[i]))
  }

  ghost predicate PlannableSel(e: Engine, sg: nat, p: Name, x: Sel)
    decreases Depth(x), 0
  {
    match x
    case F(f) =>
      assert Depth(x) == DepthF(f);
      && (e.Local(sg, p, f) || e.PickTarget(p, e.owners[(p, f.name)]).Some?)
      && Plannable(e, if e.Local(sg, p, f) then sg else e.Target(p, f), f.ty, f.sels)
    case Frag(cond, _, sub) => Plannable(e, sg, cond, sub)
  }

  /** Every spread names a defined fragment, recursively. */
  ghost predicate Defined(pl: P.Planner, r: nat, sels: seq<P.DocSel>)
    requires pl.Fits(r, sels)
    decreases r, sels
  {
    forall i :: 0 <= i < |sels| ==> DefinedSel(pl, r, sels[i])
  }

  ghost predicate DefinedSel(pl: P.Planner, r: nat, x: P.DocSel)
    requires P.Acyclic(pl.doc, pl.rank) && P.WithinSel(pl.doc, pl.rank, r, x)
    decreases r, x
  {
    match x
    case DF(f) => Defined(pl, r, f.sels)
    case Inline(_, _, sub) => Defined(pl, r, sub)
    case Named(n, _) => n in pl.doc && Defined(pl, pl.rank[n], pl.doc[n].sels)
  }

  /** The planner succeeds exactly on documents whose spreads are defined
      and whose inlined selections can be split. */
  lemma {:induction false} PlansExactly(pl: P.Planner, r: nat, sg: nat, p: Name, sels: seq<P.DocSel>)
    requires pl.Fits(r, sels)
    ensures pl.CanPlan(r, sg, p, sels) <==> Defined(pl, r, sels) && Plannable(pl.e, sg, p, pl.Expand(r, sels))
    decreases r, sels
  {
    var ss := pl.Expand(r, sels);
    forall i | 0 <= i < |sels|
      ensures pl.CanPlanSel(r, sg, p, sels[i]) ==> DefinedSel(pl, r, sels[i])
      ensures DefinedSel(pl, r, sels[i]) ==> (pl.CanPlanSel(r, sg, p, sels[i]) <==> PlannableSel(pl.e, sg, p, ss[i]))
    {
      SelPlansExactly(pl, r, sg, p, sels[i]);
    }
    if pl.CanPlan(r, sg, p, sels) {
      forall i | 0 <= i < |sels| ensures DefinedSel(pl, r, sels[i]) {
        assert pl.CanPlanSel(r, sg, p, sels[i]);
      }
    }
  }

  lemma {:induction false} SelPlansExactly(pl: P.Planner, r: nat, sg: nat, p: Name, x: P.DocSel)
    requires P.Acyclic(pl.doc, pl.rank) && P.WithinSel(pl.doc, pl.rank, r, x)
    ensures pl.CanPlanSel(r, sg, p, x) ==> DefinedSel(pl, r, x)
    ensures DefinedSel(pl, r, x) ==> (pl.CanPlanSel(r, sg, p, x) <==> PlannableSel(pl.e, sg, p, pl.ExpandSel(r, x)))
    decreases r, x
  {
    match x
    case DF(f) => PlansExactly(pl, r, if pl.e.Local(sg, p, P.Head(f)) then sg else pl.e.Target(p, P.Head(f)), f.ty, f.sels);
    case Inline(cond, _, sub) => PlansExactly(pl, r, sg, cond, sub);
    case Named(n, _) =>
      if n in pl.doc {
        PlansExactly(pl, pl.rank[n], sg, pl.doc[n].cond, pl.doc[n].sels);
      }
  }

  /** The types `sels` are selected on, followed along the planner's own
      assignment to subgraphs, are defined where they are asked for. */
  ghost predicate TypesDefined(s: Sup, sg: nat, p: Name, sels: seq<Sel>)
    decreases DepthOf(sels), 1
  {
    forall i :: 0 <= i < |sels| ==> (DepthMember(sels, sels[i]); TypesDefinedSel(s, sg, p, sels[i]))
  }

  ghost predicate TypesDefinedSel(s: Sup, sg: nat, p: Name, x: Sel)
    decreases Depth(x), 0
  {
    match x
    case F(f) =>
      assert Depth(x) == DepthF(f);
      DeclaredAtRoots(s, sg, p, f) && TypesDefined(s, if s.e.Local(sg, p, f) then sg else s.e.Target(p, f), f.ty, f.sels)
    case Frag(cond, _, sub) => s.Defines(sg, cond) && TypesDefined(s, sg, cond, sub)
  }

  /** Sound tables make planning total. */
  lemma {:induction false} SoundPlans(s: Sup, sg: nat, p: Name, sels: seq<Sel>)
    requires Sound(s) && s.Defines(sg, p)
    requires Typed(s.schema, p, sels) && TypesDefined(s, sg, p, sels)
    ensures Plannable(s.e, sg, p, sels)
    decreases DepthOf(sels), 1
  {
    forall i | 0 <= i < |sels| ensures PlannableSel(s.e, sg, p, sels[i]) {
      DepthMember(sels, sels[i]);
      assert TypedSel(s.schema, p, sels[i]) && TypesDefinedSel(s, sg, p, sels[i]);
      SoundPlansSel(s, sg, p, sels[i]);
    }
  }

  lemma {:induction false} SoundPlansSel(s: Sup, sg: nat, p: Name, x: Sel)
    requires Sound(s) && s.Defines(sg, p)
    requires TypedSel(s.schema, p, x) && TypesDefinedSel(s, sg, p, x)
    ensures PlannableSel(s.e, sg, p, x)
    decreases Depth(x), 0
  {
    match x
    case F(f) =>
      assert Depth(x) == DepthF(f);
      if f.sels != [] {
        SoundHop(s, sg, p, f);
        SoundPlans(s, if s.e.Local(sg, p, f) then sg else s.e.Target(p, f), f.ty, f.sels);
      } else if !s.e.Local(sg, p, f) {
        assert Reachable(s, sg, p, f.name);
      }
    case Frag(cond, _, sub) =>
      assert Depth(x) == 1 + DepthOf(sub);
      SoundPlans(s, sg, cond, sub);
  }

  /** The subgraph that answers a field defines the field's type. */
  lemma {:induction false} SoundHop(s: Sup, sg: nat, p: Name, f: Field)
    requires Sound(s) && s.Defines(sg, p)
    requires TypedSel(s.schema, p, F(f)) && f.sels != [] && DeclaredAtRoots(s, sg, p, f)
    ensures s.e.Local(sg, p, f) || s.e.PickTarget(p, s.e.owners[(p, f.name)]).Some?
    ensures s.Defines(if s.e.Local(sg, p, f) then sg else s.e.Target(p, f), f.ty)
  {
    assert (p, f.name) in s.schema.fieldTy && !IsMeta(f.name);
    if s.e.Local(sg, p, f) {
      assert s.Declares(sg, p, f.name);
    } else {
      assert Reachable(s, sg, p, f.name);
      PickedOwns(s.e, p, s.e.owners[(p, f.name)]);
      assert s.Declares(s.e.Target(p, f), p, f.name);
    }
  }

  /** On a composed supergraph the planner accepts every valid root field
      whose fragments are defined: no missing owner, no missing key. */
  lemma {:induction false} ComposedPlans(names: seq<string>, subs: seq<C.SubSchema>, pl: P.Planner, r: nat, f: P.DocField)
    requires Supergraph.Composed(names, subs, pl.e) && Supergraph.SchemaOf(pl.e, subs).Coherent()
    requires pl.Fits(r, f.sels) && Defined(pl, r, f.sels) && !IsMeta(f.name)
    requires TypedSel(Supergraph.SchemaOf(pl.e, subs), "Query", F(pl.ExpandField(r, f)))
    requires EndToEnd.RootOwner(pl.e, f.name).Some? ==>
               TypesDefined(Supergraph.SupOf(pl.e, subs), EndToEnd.RootOwner(pl.e, f.name).value, f.ty, pl.Expand(r, f.sels))
    ensures EndToEnd.RootOwner(pl.e, f.name).Some?
    ensures pl.CanPlan(r, EndToEnd.RootOwner(pl.e, f.name).value, f.ty, f.sels)
  {
    var s := Supergraph.SupOf(pl.e, subs);
    Supergraph.CompositionSound(names, subs, pl.e);
    assert ("Query", f.name) in s.schema.fieldTy;
    var owner := EndToEnd.RootOwner(pl.e, f.name).value;
    if f.sels != [] {
      assert s.Declares(owner, "Query", f.name);
      SoundPlans(s, owner, f.ty, pl.Expand(r, f.sels));
      PlansExactly(pl, r, owner, f.ty, f.sels);
    }
  }
}
