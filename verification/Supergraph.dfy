/** From composition to planning: the supergraph a successful composition
    describes gives the planner every owner, key and declaration it relies
    on, so federated execution of composed subgraphs preserves meaning. */
module Supergraph {
  import opened Basics
  import opened GraphQl
  import opened Plan
  import opened PlanFacts
  import opened Federation
  import Exec
  import Resolver
  import Variables
  import EndToEnd
  import C = Compose
  import K = Composition

  // ----- the composed schema and the subgraphs' own

  /** The types composition keeps. */
  predicate Known(t: Name) {
    !C.Skipped(t) || t in C.ROOT_TYPES
  }

  predicate DeclaresIn(s: C.SubSchema, t: Name, f: Name) {
    if t in C.ROOT_TYPES then C.HasRoot(s, t, f) else C.DefOf(s, t).Some? && C.DeclaresField(C.DefOf(s, t).value, f)
  }

  function TypeNames(subs: seq<C.SubSchema>): set<Name> {
    set i, k | 0 <= i < |subs| && 0 <= k < |subs[i].types| :: subs[i].types[k].name
  }

  function FieldNames(subs: seq<C.SubSchema>): set<(Name, Name)> {
    set i, k, j | 0 <= i < |subs| && 0 <= k < |subs[i].types| && 0 <= j < |subs[i].types[k].def.fields| ::
      (subs[i].types[k].name, subs[i].types[k].def.fields[j].name)
  }

  function FieldType(fs: seq<C.FieldDef>, f: Name): Name {
    if fs == [] then "" else if fs[0].name == f then fs[0].sig.ty.Inner() else FieldType(fs[1..], f)
  }

  /** The named type subgraph `s` gives `t.f`. */
  function TypeAt(s: C.SubSchema, t: Name, f: Name): Name {
    var d := C.Lookup(s.types, t);
    if d.Some? then FieldType(d.value.fields, f) else ""
  }

  function Declarations(s: C.SubSchema): map<(Name, Name), Name> {
    map p | p in FieldNames([s]) && DeclaresIn(s, p.0, p.1) :: TypeAt(s, p.0, p.1)
  }

  function Definitions(s: C.SubSchema): set<Name> {
    set t | t in TypeNames([s]) && Known(t)
  }

  /** The subgraph whose declaration the composed schema prints. */
  function Source(e: Engine, subs: seq<C.SubSchema>, t: Name, f: Name): nat {
    if (t, f) in e.owners && e.owners[(t, f)] != [] then e.owners[(t, f)][0]
    else if C.DefsOf(subs, t) != [] then C.DefsOf(subs, t)[0].i
    else 0
  }

  ghost predicate AnyRoot(subs: seq<C.SubSchema>, t: Name) {
    exists i, f :: 0 <= i < |subs| && C.HasRoot(subs[i], t, f)
  }

  ghost function KindOf(subs: seq<C.SubSchema>, t: Name): Option<C.Kind> {
    if t in C.ROOT_TYPES then (if AnyRoot(subs, t) then Some(C.ObjectKind) else None)
    else if C.DefsOf(subs, t) != [] then Some(C.DefsOf(subs, t)[0].d.kind)
    else None
  }

  /** Entities implement what any definition implements; a value type is the
      same everywhere. */
  ghost predicate Implements(subs: seq<C.SubSchema>, u: Name, t: Name) {
    var defs := C.DefsOf(subs, u);
    if C.IsEntity(defs) then exists a :: 0 <= a < |defs| && t in defs[a].d.implements
    else defs != [] && t in defs[0].d.implements
  }

  ghost function PossibleOf(subs: seq<C.SubSchema>, t: Name): set<Name> {
    match KindOf(subs, t)
    case Some(ObjectKind) => {t}
    case Some(InterfaceKind) => set u | u in TypeNames(subs) && KindOf(subs, u) == Some(C.ObjectKind) && Implements(subs, u, t)
    case Some(UnionKind) => if C.DefsOf(subs, t) == [] then {} else set u | u in C.DefsOf(subs, t)[0].d.members
    case _ => {}
  }

  predicate CompositeKind(k: Option<C.Kind>) {
    k.Some? && (k.value.ObjectKind? || k.value.InterfaceKind? || k.value.UnionKind?)
  }

  ghost predicate DeclaredSomewhere(subs: seq<C.SubSchema>, t: Name, f: Name) {
    exists i :: 0 <= i < |subs| && DeclaresIn(subs[i], t, f)
  }

  ghost function SchemaOf(e: Engine, subs: seq<C.SubSchema>): Schema {
    Schema(
      map t | t in TypeNames(subs) && CompositeKind(KindOf(subs, t)) :: PossibleOf(subs, t),
      map p | p in FieldNames(subs) && DeclaredSomewhere(subs, p.0, p.1) ::
        if Source(e, subs, p.0, p.1) < |subs| then TypeAt(subs[Source(e, subs, p.0, p.1)], p.0, p.1) else "")
  }

  /** The supergraph composition describes. */
  ghost function SupOf(e: Engine, subs: seq<C.SubSchema>): Sup {
    Sup(e, SchemaOf(e, subs),
        seq(|subs|, i requires 0 <= i < |subs| => Declarations(subs[i])),
        seq(|subs|, i requires 0 <= i < |subs| => Definitions(subs[i])))
  }

  /** A valid subgraph schema names only types it defines. */
  ghost predicate Closed(s: C.SubSchema) {
    forall t, f :: DeclaresIn(s, t, f) ==> TypeAt(s, t, f) in C.BUILT_IN || C.Lookup(s.types, TypeAt(s, t, f)).Some?
  }

  // ----- reading the maps

  lemma {:induction false} LookupNamed(types: seq<C.NamedType>, t: Name)
    ensures C.Lookup(types, t).Some? <==> exists k :: 0 <= k < |types| && types[k].name == t
    ensures C.Lookup(types, t).Some? ==> exists k :: 0 <= k < |types| && types[k].name == t && types[k].def == C.Lookup(types, t).value
  {
    if types != [] {
      var n := |types| - 1;
      LookupNamed(types[..n], t);
      if types[n].name != t && C.Lookup(types[..n], t).Some? {
        var k :| 0 <= k < n && types[..n][k].name == t && types[..n][k].def == C.Lookup(types[..n], t).value;
        assert types[k].name == t;
      }
      if types[n].name != t && exists k :: 0 <= k < |types| && types[k].name == t {
        var k :| 0 <= k < |types| && types[k].name == t;
        assert types[..n][k].name == t;
      }
    }
  }

  lemma {:induction false} DefinitionsAre(s: C.SubSchema, t: Name)
    ensures t in Definitions(s) <==> Known(t) && C.Lookup(s.types, t).Some?
  {
    LookupNamed(s.types, t);
    assert [s][0] == s;
    if C.Lookup(s.types, t).Some? {
      var k :| 0 <= k < |s.types| && s.types[k].name == t;
      assert [s][0].types[k].name == t;
    }
  }

  lemma {:induction false} FieldNamed(subs: seq<C.SubSchema>, i: nat, t: Name, f: Name)
    requires i < |subs| && DeclaresIn(subs[i], t, f)
    ensures (t, f) in FieldNames(subs) && t in TypeNames(subs)
  {
    LookupNamed(subs[i].types, t);
    var d := C.Lookup(subs[i].types, t).value;
    var k :| 0 <= k < |subs[i].types| && subs[i].types[k].name == t && subs[i].types[k].def == d;
    var j :| 0 <= j < |d.fields| && d.fields[j].name == f;
    assert (subs[i].types[k].name, subs[i].types[k].def.fields[j].name) == (t, f);
  }

  lemma {:induction false} DeclarationsAre(s: C.SubSchema, t: Name, f: Name)
    ensures (t, f) in Declarations(s) <==> DeclaresIn(s, t, f)
  {
    if DeclaresIn(s, t, f) {
      assert [s][0] == s;
      FieldNamed([s], 0, t, f);
    }
  }

  lemma {:induction false} SchemaDeclares(e: Engine, subs: seq<C.SubSchema>, t: Name, f: Name)
    ensures (t, f) in SchemaOf(e, subs).fieldTy <==> DeclaredSomewhere(subs, t, f)
  {
    if DeclaredSomewhere(subs, t, f) {
      var i :| 0 <= i < |subs| && DeclaresIn(subs[i], t, f);
      FieldNamed(subs, i, t, f);
    }
  }

  lemma {:induction false} FieldTypeOf(fs: seq<C.FieldDef>, f: Name)
    requires exists k :: 0 <= k < |fs| && fs[k].name == f
    ensures exists fd :: fd in fs && fd.name == f && FieldType(fs, f) == fd.sig.ty.Inner()
  {
    if fs[0].name == f {
      assert fs[0] in fs;
    } else {
      var k :| 0 <= k < |fs| && fs[k].name == f;
      assert fs[1..][k - 1].name == f;
      FieldTypeOf(fs[1..], f);
    }
  }

  lemma {:induction false} SameFieldType(fs: seq<C.FieldDef>, gs: seq<C.FieldDef>, f: Name)
    requires |fs| == |gs| && forall k :: 0 <= k < |fs| ==> C.StripField(fs[k]) == C.StripField(gs[k])
    ensures FieldType(fs, f) == FieldType(gs, f)
    ensures (exists k :: 0 <= k < |fs| && fs[k].name == f) <==> (exists k :: 0 <= k < |gs| && gs[k].name == f)
  {
    assert forall k :: 0 <= k < |fs| ==> fs[k].name == gs[k].name && fs[k].sig == gs[k].sig;
    if fs != [] {
      assert forall k :: 0 <= k < |fs[1..]| ==> fs[1..][k] == fs[k + 1] && gs[1..][k] == gs[k + 1];
      SameFieldType(fs[1..], gs[1..], f);
    }
  }

  lemma {:induction false} SameShapeFields(d: C.TypeDef, d': C.TypeDef, f: Name)
    requires C.Stripped(d) == C.Stripped(d')
    ensures FieldType(d.fields, f) == FieldType(d'.fields, f) && (C.DeclaresField(d, f) <==> C.DeclaresField(d', f))
  {
    assert |C.Stripped(d).fields| == |d.fields| && |C.Stripped(d').fields| == |d'.fields|;
    forall k | 0 <= k < |d.fields| ensures C.StripField(d.fields[k]) == C.StripField(d'.fields[k]) {
      assert C.Stripped(d).fields[k] == C.StripField(d.fields[k]);
      assert C.Stripped(d').fields[k] == C.StripField(d'.fields[k]);
    }
    SameFieldType(d.fields, d'.fields, f);
  }

  // ----- what composition guarantees

  ghost predicate Composed(names: seq<string>, subs: seq<C.SubSchema>, e: Engine) {
    && (forall i :: 0 <= i < |subs| ==> C.UniqueNames(subs[i]) && Closed(subs[i]))
    && C.Composable(names, subs)
    && C.Tables(e, subs)
  }

  /** All declarations of a field give it the composed type. */
  lemma {:induction false} OneType(names: seq<string>, subs: seq<C.SubSchema>, e: Engine, sg: nat, t: Name, f: Name)
    requires Composed(names, subs, e) && sg < |subs| && DeclaresIn(subs[sg], t, f)
    ensures Source(e, subs, t, f) < |subs|
    ensures TypeAt(subs[Source(e, subs, t, f)], t, f) == TypeAt(subs[sg], t, f)
  {
    if t in C.ROOT_TYPES {
      K.RootsExact(names, subs, e, t, f);
    } else if t in e.keys {
      EntityType(names, subs, e, sg, t, f);
    } else {
      ValueType(names, subs, e, sg, t, f);
    }
  }

  lemma {:induction false} EntityType(names: seq<string>, subs: seq<C.SubSchema>, e: Engine, sg: nat, t: Name, f: Name)
    requires Composed(names, subs, e) && sg < |subs| && DeclaresIn(subs[sg], t, f)
    requires t in e.keys && t !in C.ROOT_TYPES
    ensures Source(e, subs, t, f) < |subs|
    ensures TypeAt(subs[Source(e, subs, t, f)], t, f) == TypeAt(subs[sg], t, f)
  {
    K.FirstOwner(names, subs, e, sg, t, f);
    EntityAgrees(names, subs, e, t);
    SameSignature(subs, sg, Source(e, subs, t, f), t, f);
  }

  lemma {:induction false} EntityAgrees(names: seq<string>, subs: seq<C.SubSchema>, e: Engine, t: Name)
    requires Composed(names, subs, e) && t in e.keys
    ensures K.FieldsAgree(subs, t)
  {
    assert C.GroupOk(C.DefsOf(subs, t));
    K.RulesExact(subs, t);
    K.KindsAre(subs, t);
  }

  lemma {:induction false} SameSignature(subs: seq<C.SubSchema>, i: nat, j: nat, t: Name, f: Name)
    requires K.FieldsAgree(subs, t) && K.DeclaredIn(subs, i, t, f) && K.DeclaredIn(subs, j, t, f)
    ensures TypeAt(subs[i], t, f) == TypeAt(subs[j], t, f)
  {
    var d, d' := K.TheDef(subs, i, t), K.TheDef(subs, j, t);
    FieldTypeOf(d.fields, f);
    FieldTypeOf(d'.fields, f);
    var fd :| fd in d.fields && fd.name == f && FieldType(d.fields, f) == fd.sig.ty.Inner();
    var gd :| gd in d'.fields && gd.name == f && FieldType(d'.fields, f) == gd.sig.ty.Inner();
    assert K.FieldOf(subs, i, t, fd) && K.FieldOf(subs, j, t, gd);
  }

  lemma {:induction false} ValueShape(names: seq<string>, subs: seq<C.SubSchema>, e: Engine, i: nat, j: nat, t: Name)
    requires Composed(names, subs, e) && t !in e.keys
    requires K.DefinesType(subs, i, t) && K.DefinesType(subs, j, t)
    ensures C.Stripped(K.TheDef(subs, i, t)) == C.Stripped(K.TheDef(subs, j, t))
  {
    assert C.GroupOk(C.DefsOf(subs, t));
    K.RulesExact(subs, t);
    K.KindsAre(subs, t);
  }

  lemma {:induction false} ValueType(names: seq<string>, subs: seq<C.SubSchema>, e: Engine, sg: nat, t: Name, f: Name)
    requires Composed(names, subs, e) && sg < |subs| && DeclaresIn(subs[sg], t, f)
    requires t !in e.keys && t !in C.ROOT_TYPES
    ensures Source(e, subs, t, f) < |subs|
    ensures TypeAt(subs[Source(e, subs, t, f)], t, f) == TypeAt(subs[sg], t, f)
  {
    K.DefAt(subs, t, sg);
    K.AtDef(subs, t, 0);
    var src := Source(e, subs, t, f);
    assert (t, f) !in e.owners;
    ValueShape(names, subs, e, sg, src, t);
    SameShapeFields(K.TheDef(subs, sg, t), K.TheDef(subs, src, t), f);
  }

  lemma {:induction false} ComposedDeclares(names: seq<string>, subs: seq<C.SubSchema>, e: Engine)
    requires Composed(names, subs, e)
    ensures DeclaredTypes(SupOf(e, subs))
  {
    var s := SupOf(e, subs);
    forall sg: nat, t, f | s.Declares(sg, t, f)
      ensures (t, f) in s.schema.fieldTy && s.decl[sg][(t, f)] == s.schema.fieldTy[(t, f)]
      ensures s.schema.Composite(s.schema.fieldTy[(t, f)]) ==> s.Defines(sg, s.schema.fieldTy[(t, f)])
    {
      DeclarationsAre(subs[sg], t, f);
      SchemaDeclares(e, subs, t, f);
      OneType(names, subs, e, sg, t, f);
      var r := TypeAt(subs[sg], t, f);
      if s.schema.Composite(r) {
        KindKnown(subs, r);
        DefinitionsAre(subs[sg], r);
      }
    }
  }

  lemma {:induction false} KindKnown(subs: seq<C.SubSchema>, t: Name)
    requires KindOf(subs, t).Some?
    ensures Known(t) && t !in C.BUILT_IN
  {
    if t !in C.ROOT_TYPES {
      C.TypesNotRoots(subs, t);
    }
  }

  lemma {:induction false} EntityKind(names: seq<string>, subs: seq<C.SubSchema>, e: Engine, t: Name)
    requires Composed(names, subs, e) && t in e.keys
    ensures KindOf(subs, t) == Some(C.ObjectKind) && t !in C.ROOT_TYPES && t in TypeNames(subs)
  {
    var defs := C.DefsOf(subs, t);
    assert C.GroupOk(defs);
    C.ObjectsOnly(defs);
    K.EntityNotRoot(subs, t);
    K.AtDef(subs, t, 0);
    LookupNamed(subs[defs[0].i].types, t);
    var i := defs[0].i;
    var k :| 0 <= k < |subs[i].types| && subs[i].types[k].name == t;
    assert subs[i].types[k].name in TypeNames(subs);
  }

  lemma {:induction false} ValueDeclared(names: seq<string>, subs: seq<C.SubSchema>, e: Engine, sg: nat, t: Name, f: Name)
    requires Composed(names, subs, e) && K.DefinesType(subs, sg, t) && t !in e.keys && t !in C.ROOT_TYPES
    requires DeclaredSomewhere(subs, t, f)
    ensures DeclaresIn(subs[sg], t, f)
  {
    var i :| 0 <= i < |subs| && DeclaresIn(subs[i], t, f);
    ValueShape(names, subs, e, i, sg, t);
    SameShapeFields(K.TheDef(subs, i, t), K.TheDef(subs, sg, t), f);
  }

  lemma {:induction false} CoversOne(names: seq<string>, subs: seq<C.SubSchema>, e: Engine, sg: nat, t: Name, f: Name)
    requires Composed(names, subs, e) && sg < |subs| && t in Definitions(subs[sg]) && t !in ROOTS
    requires (t, f) in SchemaOf(e, subs).fieldTy
    ensures t in e.keys ==> (t, f) in e.owners && (sg in e.owners[(t, f)] || Reachable(SupOf(e, subs), sg, t, f))
    ensures t !in e.keys ==> (t, f) in Declarations(subs[sg])
  {
    DefinitionsAre(subs[sg], t);
    SchemaDeclares(e, subs, t, f);
    assert K.DefinesType(subs, sg, t);
    if t in e.keys {
      EntityReach(names, subs, e, sg, t, f);
    } else {
      ValueDeclared(names, subs, e, sg, t, f);
      DeclarationsAre(subs[sg], t, f);
    }
  }

  ghost predicate CoveredAt(s: Sup, sg: nat, t: Name, f: Name) {
    s.Defines(sg, t) && t !in ROOTS && (t, f) in s.schema.fieldTy && !IsMeta(f) ==>
      if t in s.e.keys then (t, f) in s.e.owners && (sg in s.e.owners[(t, f)] || Reachable(s, sg, t, f))
      else s.Declares(sg, t, f)
  }

  lemma CoveredEverywhere(s: Sup)
    requires forall sg: nat, t, f :: CoveredAt(s, sg, t, f)
    ensures Covered(s)
  {
    forall sg: nat, t, f | s.Defines(sg, t) && t !in ROOTS && (t, f) in s.schema.fieldTy && !IsMeta(f)
      ensures if t in s.e.keys then (t, f) in s.e.owners && (sg in s.e.owners[(t, f)] || Reachable(s, sg, t, f)) else s.Declares(sg, t, f)
    {
      assert CoveredAt(s, sg, t, f);
    }
  }

  lemma {:induction false} ComposedCoversAt(names: seq<string>, subs: seq<C.SubSchema>, e: Engine, sg: nat, t: Name, f: Name)
    requires Composed(names, subs, e)
    ensures CoveredAt(SupOf(e, subs), sg, t, f)
  {
    if SupOf(e, subs).Defines(sg, t) && t !in ROOTS && (t, f) in SupOf(e, subs).schema.fieldTy && !IsMeta(f) {
      CoversOne(names, subs, e, sg, t, f);
    }
  }

  lemma {:induction false} ComposedCovers(names: seq<string>, subs: seq<C.SubSchema>, e: Engine)
    requires Composed(names, subs, e)
    ensures Covered(SupOf(e, subs))
  {
    forall sg: nat, t, f ensures CoveredAt(SupOf(e, subs), sg, t, f) {
      ComposedCoversAt(names, subs, e, sg, t, f);
    }
    CoveredEverywhere(SupOf(e, subs));
  }

  lemma {:induction false} Declarer(subs: seq<C.SubSchema>, t: Name, f: Name) returns (i: nat)
    requires t !in C.ROOT_TYPES && DeclaredSomewhere(subs, t, f)
    ensures K.DeclaredIn(subs, i, t, f)
  {
    i :| i < |subs| && DeclaresIn(subs[i], t, f);
  }

  lemma {:induction false} FirstOwned(names: seq<string>, subs: seq<C.SubSchema>, e: Engine, t: Name, f: Name)
    requires Composed(names, subs, e) && t in e.keys && t !in C.ROOT_TYPES && DeclaredSomewhere(subs, t, f)
    ensures (t, f) in e.owners && e.owners[(t, f)] != [] && K.Owns(subs, e.owners[(t, f)][0], t, f)
  {
    var i := Declarer(subs, t, f);
    K.FirstOwner(names, subs, e, i, t, f);
  }

  /** The planner always finds an owner it can reach, and holds its key. */
  lemma {:induction false} EntityReach(names: seq<string>, subs: seq<C.SubSchema>, e: Engine, sg: nat, t: Name, f: Name)
    requires Composed(names, subs, e) && K.DefinesType(subs, sg, t) && t in e.keys && t !in C.ROOT_TYPES
    requires DeclaredSomewhere(subs, t, f)
    ensures (t, f) in e.owners && (sg in e.owners[(t, f)] || Reachable(SupOf(e, subs), sg, t, f))
  {
    FirstOwned(names, subs, e, t, f);
    if sg !in e.owners[(t, f)] {
      FirstOwnerReached(names, subs, e, sg, t, f);
    }
  }

  /** Every target the planner picks owns the field and resolves entities:
      its definition's `@key` is resolvable. */
  lemma {:induction false} TargetResolves(names: seq<string>, subs: seq<C.SubSchema>, e: Engine, t: Name, f: Name)
    requires Composed(names, subs, e) && t in e.keys && (t, f) in e.owners && e.PickTarget(t, e.owners[(t, f)]).Some?
    ensures var o := e.PickTarget(t, e.owners[(t, f)]).value;
            && K.Owns(subs, o, t, f)
            && K.Resolvable(K.TheDef(subs, o, t))
            && e.KeysOf(t, o) == K.Spelled(K.TheDef(subs, o, t))
  {
    var os := e.owners[(t, f)];
    FirstReachable(e, t, os);
    var o := e.PickTarget(t, os).value;
    assert o in os;
    K.OwnersExact(names, subs, e, t, f);
    K.KeysExact(names, subs, e, t, o);
  }

  lemma {:induction false} FirstOwnerReached(names: seq<string>, subs: seq<C.SubSchema>, e: Engine, sg: nat, t: Name, f: Name)
    requires Composed(names, subs, e) && K.DefinesType(subs, sg, t) && t in e.keys && t !in C.ROOT_TYPES
    requires (t, f) in e.owners && e.owners[(t, f)] != [] && sg !in e.owners[(t, f)]
    requires K.Owns(subs, e.owners[(t, f)][0], t, f)
    ensures Reachable(SupOf(e, subs), sg, t, f)
  {
    var s := SupOf(e, subs);
    var o := e.owners[(t, f)][0];
    assert o in e.owners[(t, f)];
    OwnerKey(names, subs, e, sg, t, o, f);
    assert e.PickTarget(t, e.owners[(t, f)]) == Some(o);
    forall k | k in e.KeysOf(t, o) ensures s.Declares(sg, t, k) {
      DeclarationsAre(subs[sg], t, k);
    }
  }

  lemma {:induction false} OwnerKey(names: seq<string>, subs: seq<C.SubSchema>, e: Engine, sg: nat, t: Name, o: nat, f: Name)
    requires Composed(names, subs, e) && K.DefinesType(subs, sg, t) && t in e.keys && t !in C.ROOT_TYPES
    requires o != sg && K.Owns(subs, o, t, f)
    ensures e.HasKey(t, o) && forall k :: k in e.KeysOf(t, o) ==> DeclaresIn(subs[sg], t, k)
  {
    assert C.GroupOk(C.DefsOf(subs, t));
    K.RulesExact(subs, t);
    K.KindsAre(subs, t);
    assert K.OwnsAny(subs, o, t);
    assert K.Addresses(K.TheDef(subs, sg, t), K.TheDef(subs, o, t));
    K.KeysExact(names, subs, e, t, o);
  }

  lemma {:induction false} ComposedOwns(names: seq<string>, subs: seq<C.SubSchema>, e: Engine)
    requires Composed(names, subs, e)
    ensures OwnersDeclare(SupOf(e, subs))
  {
    var s := SupOf(e, subs);
    forall t, f, sg: nat | t in e.keys && (t, f) in e.owners && sg in e.owners[(t, f)]
      ensures s.Declares(sg, t, f) && s.Defines(sg, t)
    {
      K.OwnersExact(names, subs, e, t, f);
      K.EntityNotRoot(subs, t);
      assert K.Owns(subs, sg, t, f);
      assert K.DeclaredIn(subs, sg, t, f);
      DeclarationsAre(subs[sg], t, f);
      DefinitionsAre(subs[sg], t);
    }
  }

  lemma {:induction false} ComposedEntity(names: seq<string>, subs: seq<C.SubSchema>, e: Engine, t: Name)
    requires Composed(names, subs, e) && t in e.keys
    ensures SchemaOf(e, subs).IsObject(t) && t !in ROOTS
  {
    EntityKind(names, subs, e, t);
    assert t in C.ROOT_TYPES <==> t == "Query" || t == "Mutation";
  }

  lemma {:induction false} ComposedEntities(names: seq<string>, subs: seq<C.SubSchema>, e: Engine)
    requires Composed(names, subs, e)
    ensures SupOf(e, subs).EntitiesAreObjects() && RootsArePlain(SupOf(e, subs))
  {
    forall t | t in e.keys ensures SupOf(e, subs).schema.IsObject(t) && t !in ROOTS {
      ComposedEntity(names, subs, e, t);
    }
  }

  /** Composition makes planning total: whenever it succeeds (and the printed
      schema passes validation), every lookup and pick of the planner hits. */
  lemma {:induction false} CompositionSound(names: seq<string>, subs: seq<C.SubSchema>, e: Engine)
    requires Composed(names, subs, e) && SchemaOf(e, subs).Coherent()
    ensures Sound(SupOf(e, subs))
    ensures EndToEnd.RootsOwned(SupOf(e, subs))
  {
    var s := SupOf(e, subs);
    ComposedEntities(names, subs, e);
    ComposedCovers(names, subs, e);
    ComposedOwns(names, subs, e);
    ComposedDeclares(names, subs, e);
    RootsReach(names, subs, e);
  }

  lemma {:induction false} QueryObject(names: seq<string>, subs: seq<C.SubSchema>, e: Engine)
    requires Composed(names, subs, e)
    ensures SchemaOf(e, subs).IsObject("Query") && "Query" !in e.keys
  {
    var i, g :| 0 <= i < |subs| && C.HasRoot(subs[i], "Query", g);
    assert C.ROOT_TYPES[0] == "Query";
    FieldNamed(subs, i, "Query", g);
    if "Query" in e.keys {
      K.EntityNotRoot(subs, "Query");
    }
  }

  lemma {:induction false} RootReach(names: seq<string>, subs: seq<C.SubSchema>, e: Engine, f: Name)
    requires Composed(names, subs, e) && ("Query", f) in SchemaOf(e, subs).fieldTy
    ensures EndToEnd.RootOwner(e, f).Some? && EndToEnd.RootOwner(e, f).value < |subs|
    ensures ("Query", f) in Declarations(subs[EndToEnd.RootOwner(e, f).value])
  {
    SchemaDeclares(e, subs, "Query", f);
    assert C.ROOT_TYPES[0] == "Query";
    var j :| 0 <= j < |subs| && DeclaresIn(subs[j], "Query", f);
    K.RootsExact(names, subs, e, "Query", f);
    DeclarationsAre(subs[j], "Query", f);
  }

  lemma {:induction false} RootsReach(names: seq<string>, subs: seq<C.SubSchema>, e: Engine)
    requires Composed(names, subs, e)
    ensures EndToEnd.RootsOwned(SupOf(e, subs))
  {
    QueryObject(names, subs, e);
    forall f | ("Query", f) in SchemaOf(e, subs).fieldTy
      ensures EndToEnd.RootOwner(e, f).Some? && SupOf(e, subs).Declares(EndToEnd.RootOwner(e, f).value, "Query", f)
    {
      RootReach(names, subs, e, f);
    }
  }

  /** What is left to assume about the store and the query once composition
      has succeeded. */
  ghost predicate Stored(x: Exec.Run, root: Oid, ft: Resolver.Fetch, op: Resolver.Operation, rv: Name, sels: seq<Sel>) {
    && x.c.ps == x.s.schema.ps
    && WorldTyped(x.s.schema, x.c.w)
    && ReturnsOwnTypes(x.s, x.c.w)
    && KeysIdentify(x)
    && x.c == Ctx(x.s.schema.ps, x.c.w, Variables.Bind(op.defs, op.raw))
    && x.c.w.typeOf(root) == EndToEnd.QUERY
    && EndToEnd.Query(ALL, x.s, op, sels)
    && rv !in Resolver.DefNames(op.defs)
    && EndToEnd.Served(ft, x.s, x.c.w, root)
  }

  /** Composed subgraphs answer as one: compose, plan, fetch, resolve, merge
      and stitch return what the whole store would. */
  lemma {:induction false} ComposedFederation(names: seq<string>, subs: seq<C.SubSchema>, e: Engine, c: Ctx, root: Oid,
                                              ft: Resolver.Fetch, op: Resolver.Operation, rv: Name, sels: seq<Sel>)
    requires Composed(names, subs, e) && SchemaOf(e, subs).Coherent()
    requires Stored(Exec.Run(SupOf(e, subs), c), root, ft, op, rv, sels)
    ensures Obj(EndToEnd.Execute(ft, SupOf(e, subs), op, rv, sels)) == Complete(c, RRef(root), sels)
  {
    CompositionSound(names, subs, e);
    EndToEnd.FederationPreservesMeaning(Exec.Run(SupOf(e, subs), c), root, ft, op, rv, sels);
  }
}
