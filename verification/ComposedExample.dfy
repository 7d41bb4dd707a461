/** Two subgraph schemas that compose, and the supergraph of `Example` as
    what their composition describes: the hypotheses of the theorem about
    composed subgraphs can be met, too. */
module ComposedExample {
  import opened Basics
  import opened GraphQl
  import opened Plan
  import opened PlanFacts
  import opened Federation
  import opened Resolver
  import opened Supergraph
  import opened Exec
  import EndToEnd
  import Example
  import C = Compose

  function Plain(name: Name, ty: Name): C.FieldDef {
    C.FieldDef(name, C.Signature([], C.Named(ty)), false, false)
  }

  function Object(fields: seq<C.FieldDef>): C.TypeDef {
    C.TypeDef(C.ObjectKind, None, false, [], [], fields, "")
  }

  function Keyed(fields: seq<C.FieldDef>): C.TypeDef {
    Object(fields).(key := Some(C.KeyDirective(Some("i"), true)))
  }

  const QUERY0 := Object([Plain("u", "U")])
  const QUERY1 := Object([Plain("_service", "_Service")])
  const U0 := Keyed([Plain("i", "ID")])
  const U1 := Keyed([Plain("i", "ID"), Plain("e", "ID")])

  const FIRST := C.SubSchema(Some("Query"), None, None, [C.NamedType("Query", QUERY0), C.NamedType("U", U0)])
  const SECOND := C.SubSchema(Some("Query"), None, None, [C.NamedType("Query", QUERY1), C.NamedType("U", U1)])

  const SUBS := [FIRST, SECOND]
  const NAMES := ["first", "second"]

  lemma Letters()
    ensures "Query"[0] == 'Q' && "U"[0] == 'U' && "Mutation"[0] == 'M' && "ID"[0] == 'I' && "u"[0] == 'u' && "i"[0] == 'i' && "e"[0] == 'e'
    ensures "_service"[0] == '_' && "_entities"[0] == '_' && "__"[0] == '_' && |"_service"| != |"_entities"|
  {
  }

  // ----- reading the schemas

  lemma {:induction false} Looked(q: C.TypeDef, u: C.TypeDef, t: Name)
    ensures C.Lookup([C.NamedType("Query", q), C.NamedType("U", u)], t) ==
            if t == "U" then Some(u) else if t == "Query" then Some(q) else None
  {
    var ts := [C.NamedType("Query", q), C.NamedType("U", u)];
    var one := [C.NamedType("Query", q)];
    assert ts[..1] == one && one[..0] == [] && "Query" != "U";
    assert C.Lookup(one, t) == if t == "Query" then Some(q) else C.Lookup(one[..0], t);
  }

  lemma {:induction false} Kept(t: Name)
    ensures C.Skipped("U") == false && C.Skipped("Query") && Known("U") && Known("Query")
  {
    Letters();
    assert C.ROOT_TYPES[0] == "Query";
    assert "Int"[0] == 'I' && "Float"[0] == 'F' && "String"[0] == 'S' && "Boolean"[0] == 'B';
    assert |"_Any"| == 4 && |"_FieldSet"| == 9 && |"_Service"| == 8 && |"_Entity"| == 7 && |"link__Import"| == 12 && |"link__Purpose"| == 13;
  }

  lemma {:induction false} Defined(t: Name)
    ensures C.DefsOf(SUBS, t) == if t == "U" then [C.Def(0, U0), C.Def(1, U1)] else []
  {
    Kept(t);
    Looked(QUERY0, U0, t);
    Looked(QUERY1, U1, t);
    assert SUBS[..1] == [FIRST] && [FIRST][..0] == [];
    assert C.DefsOf([], t) == [];
    assert C.DefsOf([FIRST], t) == [] + (if C.DefOf(FIRST, t).Some? then [C.Def(0, C.DefOf(FIRST, t).value)] else []);
  }

  lemma {:induction false} Declared(t: Name, f: Name)
    ensures DeclaresIn(FIRST, t, f) <==> (t, f) in [("Query", "u"), ("U", "i")]
    ensures DeclaresIn(SECOND, t, f) <==> (t, f) in [("U", "i"), ("U", "e")]
    ensures t in C.ROOT_TYPES ==> (C.HasRoot(FIRST, t, f) <==> (t, f) == ("Query", "u")) && !C.HasRoot(SECOND, t, f)
  {
    Letters();
    Kept(t);
    Looked(QUERY0, U0, t);
    Looked(QUERY1, U1, t);
    assert C.DeclaresField(QUERY0, f) <==> f == "u" by { assert QUERY0.fields[0].name == "u"; }
    assert C.DeclaresField(QUERY1, f) <==> f == "_service" by { assert QUERY1.fields[0].name == "_service"; }
    assert C.DeclaresField(U0, f) <==> f == "i" by { assert U0.fields[0].name == "i"; }
    assert C.DeclaresField(U1, f) <==> f in ["i", "e"] by { assert U1.fields[0].name == "i" && U1.fields[1].name == "e"; }
    assert t in C.ROOT_TYPES <==> t == "Query" || t == "Mutation";
  }

  lemma {:induction false} Typed(t: Name, f: Name)
    ensures DeclaresIn(FIRST, t, f) ==> TypeAt(FIRST, t, f) == if f == "u" then "U" else "ID"
    ensures DeclaresIn(SECOND, t, f) ==> TypeAt(SECOND, t, f) == "ID"
  {
    Letters();
    Declared(t, f);
    Looked(QUERY0, U0, t);
    Looked(QUERY1, U1, t);
    assert U1.fields[1..] == [Plain("e", "ID")];
  }

  // ----- the schemas compose

  lemma {:induction false} Keys()
    ensures C.KeyOf(U0) == Some(["i"]) == C.KeyOf(U1) && C.KeyAccepted(U0) && C.KeyAccepted(U1)
  {
    assert C.Flat("i") && C.Listed(["i"]) == "i";
    assert U0.fields[0].name == "i" && U1.fields[0].name == "i";
    C.FlatKey(U0, ["i"]);
    C.FlatKey(U1, ["i"]);
  }

  const DECLS := [C.Decl(0, Plain("i", "ID"), false), C.Decl(1, Plain("i", "ID"), false), C.Decl(1, Plain("e", "ID"), false)]

  lemma {:induction false} Decls()
    ensures C.DeclsOf([C.Def(0, U0), C.Def(1, U1)]) == DECLS
  {
    var defs := [C.Def(0, U0), C.Def(1, U1)];
    assert defs[..1] == [C.Def(0, U0)] && [C.Def(0, U0)][..0] == [];
    assert C.DeclsOf([C.Def(0, U0)]) == [] + C.DeclsOfDef(C.Def(0, U0));
  }

  lemma {:induction false} Owners(f: Name)
    ensures C.OwnersIn(DECLS, f) == if f == "i" then [0, 1] else if f == "e" then [1] else []
    ensures C.NamesIn(DECLS) == {"i", "e"}
  {
    Letters();
    var a, b := DECLS[..2], DECLS[..1];
    assert a[..1] == b && b[..0] == [];
    assert C.OwnersIn(b, f) == [] + (if f == "i" then [0] else []);
    assert C.OwnersIn(a, f) == C.OwnersIn(b, f) + (if f == "i" then [1] else []);
    assert C.OwnersIn(DECLS, f) == C.OwnersIn(a, f) + (if f == "e" then [1] else []);
    assert DECLS[0].def.name == "i" && DECLS[2].def.name == "e";
  }

  lemma {:induction false} KeysTabled()
    ensures C.KeysTable([C.Def(0, U0), C.Def(1, U1)], 2) == [Some(["i"]), Some(["i"])]
  {
    Keys();
    var defs := [C.Def(0, U0), C.Def(1, U1)];
    assert defs[..1] == [C.Def(0, U0)];
    assert C.KeyAt(defs, 1) == Some(["i"]) && C.KeyAt(defs, 0) == C.KeyAt([C.Def(0, U0)], 0) == Some(["i"]);
  }

  lemma {:induction false} DeclsAgree()
    ensures C.Supported(DECLS) && forall f :: f in C.NamesIn(DECLS) ==> C.OwnersIn(DECLS, f) != []
  {
    forall f | f in C.NamesIn(DECLS) ensures C.OwnersIn(DECLS, f) != [] {
      Owners(f);
    }
  }

  lemma {:induction false} KeysProvided(d: C.TypeDef, s: nat)
    requires d in [U0, U1] && C.OwnsSome(DECLS, s)
    ensures C.Provides(d, C.KeyAt([C.Def(0, U0), C.Def(1, U1)], s))
  {
    KeysTabled();
    assert s < 2 && C.KeyAt([C.Def(0, U0), C.Def(1, U1)], s) == C.KeysTable([C.Def(0, U0), C.Def(1, U1)], 2)[s];
    assert U0.fields[0].name == "i" && U1.fields[0].name == "i";
  }

  lemma {:induction false} EntityComposes()
    ensures C.GroupOk([C.Def(0, U0), C.Def(1, U1)]) && C.IsEntity([C.Def(0, U0), C.Def(1, U1)])
  {
    var defs := [C.Def(0, U0), C.Def(1, U1)];
    Keys();
    Decls();
    DeclsAgree();
    assert defs[0].d.key.Some?;
    forall a, s: nat | 0 <= a < |defs| && C.OwnsSome(DECLS, s) && s != defs[a].i ensures C.Provides(defs[a].d, C.KeyAt(defs, s)) {
      KeysProvided(defs[a].d, s);
    }
    assert C.EntityOk(defs);
  }

  lemma {:induction false} RootsApart()
    ensures C.RootsUnique(SUBS) && C.HasQueryField(SUBS) && C.AllRootsNamed(SUBS)
  {
    forall i, j, root, f | 0 <= i < j < |SUBS| && root in C.ROOT_TYPES
      ensures !(C.HasRoot(SUBS[i], root, f) && C.HasRoot(SUBS[j], root, f))
    {
      Declared(root, f);
      assert i == 0 && j == 1;
    }
    assert C.ROOT_TYPES[0] == "Query";
    Declared("Query", "u");
    assert C.HasRoot(SUBS[0], "Query", "u");
  }

  lemma {:induction false} GroupComposes(t: Name)
    ensures C.GroupOk(C.DefsOf(SUBS, t))
  {
    Defined(t);
    if t == "U" {
      EntityComposes();
    }
  }

  lemma {:induction false} Composes()
    ensures C.Composable(NAMES, SUBS)
  {
    assert "first"[0] == 'f' && "second"[0] == 's';
    RootsApart();
    forall t ensures C.GroupOk(C.DefsOf(SUBS, t)) {
      GroupComposes(t);
    }
  }

  /** `t.f` is a root field or a field of the entity. */
  ghost predicate InTables(t: Name, f: Name) {
    || (exists i :: 0 <= i < |SUBS| && t in C.ROOT_TYPES && C.HasRoot(SUBS[i], t, f))
    || (t in Example.ENGINE.keys && f in C.NamesIn(C.DeclsOf(C.DefsOf(SUBS, t))))
  }

  lemma {:induction false} RootTabled(t: Name, f: Name)
    ensures (exists i :: 0 <= i < |SUBS| && t in C.ROOT_TYPES && C.HasRoot(SUBS[i], t, f)) <==> (t, f) == ("Query", "u")
    ensures forall i: nat :: i < |SUBS| && t in C.ROOT_TYPES && C.HasRoot(SUBS[i], t, f) ==> i == 0
  {
    Declared(t, f);
    assert C.ROOT_TYPES[0] == "Query" && SUBS[0] == FIRST && SUBS[1] == SECOND;
    assert (t, f) == ("Query", "u") ==> C.HasRoot(SUBS[0], t, f);
  }

  lemma {:induction false} EntityNames(f: Name)
    ensures f in C.NamesIn(C.DeclsOf(C.DefsOf(SUBS, "U"))) <==> f in ["i", "e"]
    ensures C.OwnersIn(C.DeclsOf(C.DefsOf(SUBS, "U")), f) == if f == "i" then [0, 1] else if f == "e" then [1] else []
  {
    Defined("U");
    Decls();
    Owners(f);
  }

  lemma {:induction false} EntityTabled(t: Name, f: Name)
    ensures t in Example.ENGINE.keys <==> t == "U"
    ensures t == "U" ==> (f in C.NamesIn(C.DeclsOf(C.DefsOf(SUBS, t))) <==> f in ["i", "e"])
    ensures t == "U" && f in ["i", "e"] ==>
              (t, f) in Example.ENGINE.owners && Example.ENGINE.owners[(t, f)] == C.OwnersIn(C.DeclsOf(C.DefsOf(SUBS, t)), f)
  {
    EntityNames(f);
    EngineEntity(t, f);
  }

  lemma {:induction false} EngineEntity(t: Name, f: Name)
    ensures t in Example.ENGINE.keys <==> t == "U"
    ensures f in ["i", "e"] ==> ("U", f) in Example.ENGINE.owners
    ensures f in ["i", "e"] ==> Example.ENGINE.owners[("U", f)] == if f == "i" then [0, 1] else [1]
  {
    Letters();
  }

  lemma {:induction false} TabledOwners(t: Name, f: Name)
    ensures (t, f) in Example.ENGINE.owners <==> InTables(t, f)
    ensures forall i: nat :: i < |SUBS| && t in C.ROOT_TYPES && C.HasRoot(SUBS[i], t, f) ==>
              (t, f) in Example.ENGINE.owners && Example.ENGINE.owners[(t, f)] == [i]
    ensures t in Example.ENGINE.keys && (t, f) in Example.ENGINE.owners ==>
              Example.ENGINE.owners[(t, f)] == C.OwnersIn(C.DeclsOf(C.DefsOf(SUBS, t)), f)
  {
    RootTabled(t, f);
    EntityTabled(t, f);
    EngineOwners(t, f);
  }

  lemma {:induction false} EngineOwners(t: Name, f: Name)
    ensures (t, f) in Example.ENGINE.owners <==> (t, f) == ("Query", "u") || (t == "U" && f in ["i", "e"])
    ensures (t, f) == ("Query", "u") ==> Example.ENGINE.owners[(t, f)] == [0]
  {
    Letters();
  }

  lemma {:induction false} TablesFit()
    ensures C.Tables(Example.ENGINE, SUBS)
  {
    forall t
      ensures t in Example.ENGINE.keys <==> C.IsEntity(C.DefsOf(SUBS, t))
      ensures t in Example.ENGINE.keys ==> Example.ENGINE.keys[t] == C.KeysTable(C.DefsOf(SUBS, t), |SUBS|)
    {
      Defined(t);
      EntityComposes();
      KeysTabled();
    }
    forall t, f
      ensures (t, f) in Example.ENGINE.owners <==> InTables(t, f)
      ensures forall i: nat :: i < |SUBS| && t in C.ROOT_TYPES && C.HasRoot(SUBS[i], t, f) ==>
                (t, f) in Example.ENGINE.owners && Example.ENGINE.owners[(t, f)] == [i]
      ensures t in Example.ENGINE.keys && (t, f) in Example.ENGINE.owners ==>
                Example.ENGINE.owners[(t, f)] == C.OwnersIn(C.DeclsOf(C.DefsOf(SUBS, t)), f)
    {
      TabledOwners(t, f);
    }
  }

  lemma {:induction false} SchemasClosed()
    ensures forall i :: 0 <= i < |SUBS| ==> C.UniqueNames(SUBS[i]) && Closed(SUBS[i])
  {
    Letters();
    assert C.UniqueNames(FIRST) && C.UniqueNames(SECOND);
    forall t, f ensures DeclaresIn(FIRST, t, f) ==> TypeAt(FIRST, t, f) in C.BUILT_IN || C.Lookup(FIRST.types, TypeAt(FIRST, t, f)).Some? {
      Typed(t, f);
      Looked(QUERY0, U0, "U");
    }
    forall t, f ensures DeclaresIn(SECOND, t, f) ==> TypeAt(SECOND, t, f) in C.BUILT_IN {
      Typed(t, f);
    }
  }

  /** The two schemas compose to exactly the tables of `Example`. */
  lemma {:induction false} ComposedTables()
    ensures Composed(NAMES, SUBS, Example.ENGINE)
  {
    SchemasClosed();
    Composes();
    TablesFit();
  }

  // ----- the supergraph they describe

  lemma {:induction false} NamedTypes()
    ensures TypeNames(SUBS) == {"Query", "U"}
  {
    assert SUBS[0].types[0].name == "Query" && SUBS[0].types[1].name == "U";
    assert SUBS[1].types[0].name == "Query" && SUBS[1].types[1].name == "U";
  }

  lemma {:induction false} KindsOf(t: Name)
    requires t in ["Query", "U"]
    ensures KindOf(SUBS, t) == Some(C.ObjectKind)
  {
    if t == "U" {
      Letters();
      Defined(t);
    } else {
      Declared("Query", "u");
      assert C.ROOT_TYPES[0] == "Query" && C.HasRoot(SUBS[0], "Query", "u");
    }
  }

  lemma {:induction false} Possible(t: Name)
    ensures t in SchemaOf(Example.ENGINE, SUBS).ps <==> t in ["Query", "U"]
    ensures t in ["Query", "U"] ==> SchemaOf(Example.ENGINE, SUBS).ps[t] == {t}
  {
    NamedTypes();
    if t in ["Query", "U"] {
      KindsOf(t);
    }
  }

  lemma {:induction false} FieldsSomewhere(t: Name, f: Name)
    ensures DeclaredSomewhere(SUBS, t, f) <==> (t, f) in [("Query", "u"), ("U", "i"), ("U", "e")]
  {
    Declared(t, f);
    assert SUBS[0] == FIRST && SUBS[1] == SECOND;
    if (t, f) in [("Query", "u"), ("U", "i"), ("U", "e")] {
      assert DeclaresIn(SUBS[if f == "e" then 1 else 0], t, f) by { Letters(); }
    }
  }

  lemma {:induction false} ExampleFields(t: Name, f: Name)
    ensures (t, f) in Example.SCHEMA.fieldTy <==> (t, f) in [("Query", "u"), ("U", "i"), ("U", "e")]
    ensures (t, f) in Example.SCHEMA.fieldTy ==> Example.SCHEMA.fieldTy[(t, f)] == if f == "u" then "U" else "ID"
  {
    Letters();
  }

  lemma {:induction false} FirstOwner(t: Name, f: Name)
    requires (t, f) in [("Query", "u"), ("U", "i"), ("U", "e")]
    ensures Source(Example.ENGINE, SUBS, t, f) == if f == "e" then 1 else 0
  {
    Letters();
    assert (t, f) in Example.ENGINE.owners;
    assert Example.ENGINE.owners[(t, f)] == if f == "e" then [1] else if f == "i" then [0, 1] else [0];
  }

  lemma {:induction false} SourceType(t: Name, f: Name)
    requires (t, f) in [("Query", "u"), ("U", "i"), ("U", "e")]
    ensures var src := Source(Example.ENGINE, SUBS, t, f);
            src < |SUBS| && TypeAt(SUBS[src], t, f) == if f == "u" then "U" else "ID"
  {
    FirstOwner(t, f);
    Declared(t, f);
    Typed(t, f);
  }

  lemma {:induction false} SchemaFields(t: Name, f: Name)
    ensures (t, f) in SchemaOf(Example.ENGINE, SUBS).fieldTy <==> (t, f) in Example.SCHEMA.fieldTy
    ensures (t, f) in Example.SCHEMA.fieldTy ==> SchemaOf(Example.ENGINE, SUBS).fieldTy[(t, f)] == Example.SCHEMA.fieldTy[(t, f)]
  {
    SchemaDeclares(Example.ENGINE, SUBS, t, f);
    FieldsSomewhere(t, f);
    ExampleFields(t, f);
    if (t, f) in Example.SCHEMA.fieldTy {
      SourceType(t, f);
    }
  }

  lemma SameMap<K, V>(a: map<K, V>, b: map<K, V>)
    requires forall k :: k in a <==> k in b
    requires forall k :: k in a && k in b ==> a[k] == b[k]
    ensures a == b
  {
  }

  lemma {:induction false} PossibleIs()
    ensures SchemaOf(Example.ENGINE, SUBS).ps == Example.SCHEMA.ps
  {
    var ps := SchemaOf(Example.ENGINE, SUBS).ps;
    forall t
      ensures t in ps <==> t in Example.SCHEMA.ps
      ensures t in ps && t in Example.SCHEMA.ps ==> ps[t] == Example.SCHEMA.ps[t]
    {
      Possible(t);
    }
    SameMap(ps, Example.SCHEMA.ps);
  }

  lemma {:induction false} FieldTypesAre()
    ensures SchemaOf(Example.ENGINE, SUBS).fieldTy == Example.SCHEMA.fieldTy
  {
    var tys := SchemaOf(Example.ENGINE, SUBS).fieldTy;
    forall p: (Name, Name)
      ensures p in tys <==> p in Example.SCHEMA.fieldTy
      ensures p in tys && p in Example.SCHEMA.fieldTy ==> tys[p] == Example.SCHEMA.fieldTy[p]
    {
      SchemaFields(p.0, p.1);
    }
    SameMap(tys, Example.SCHEMA.fieldTy);
  }

  lemma {:induction false} DeclarationsOf(p: (Name, Name))
    ensures p in Declarations(FIRST) <==> p in Example.SUP.decl[0]
    ensures p in Declarations(FIRST) ==> Declarations(FIRST)[p] == Example.SUP.decl[0][p]
    ensures p in Declarations(SECOND) <==> p in Example.SUP.decl[1]
    ensures p in Declarations(SECOND) ==> Declarations(SECOND)[p] == Example.SUP.decl[1][p]
  {
    Declared(p.0, p.1);
    Typed(p.0, p.1);
    DeclarationsAre(FIRST, p.0, p.1);
    DeclarationsAre(SECOND, p.0, p.1);
    SupDeclares(p);
  }

  lemma {:induction false} SupDeclares(p: (Name, Name))
    ensures p in Example.SUP.decl[0] <==> p in [("Query", "u"), ("U", "i")]
    ensures p in Example.SUP.decl[0] ==> Example.SUP.decl[0][p] == if p.1 == "u" then "U" else "ID"
    ensures p in Example.SUP.decl[1] <==> p in [("U", "i"), ("U", "e")]
    ensures p in Example.SUP.decl[1] ==> Example.SUP.decl[1][p] == "ID"
  {
    Letters();
  }

  lemma {:induction false} DefinitionsOf()
    ensures Definitions(FIRST) == {"Query", "U"} == Definitions(SECOND)
  {
    forall t ensures t in Definitions(FIRST) <==> t in {"Query", "U"} {
      DefinitionsAre(FIRST, t);
      Looked(QUERY0, U0, t);
      Kept(t);
    }
    forall t ensures t in Definitions(SECOND) <==> t in {"Query", "U"} {
      DefinitionsAre(SECOND, t);
      Looked(QUERY1, U1, t);
      Kept(t);
    }
  }

  lemma {:induction false} DeclarationsAreThose()
    ensures Declarations(FIRST) == Example.SUP.decl[0] && Declarations(SECOND) == Example.SUP.decl[1]
  {
    forall p: (Name, Name)
      ensures p in Declarations(FIRST) <==> p in Example.SUP.decl[0]
      ensures p in Declarations(FIRST) && p in Example.SUP.decl[0] ==> Declarations(FIRST)[p] == Example.SUP.decl[0][p]
    {
      DeclarationsOf(p);
    }
    SameMap(Declarations(FIRST), Example.SUP.decl[0]);
    forall p: (Name, Name)
      ensures p in Declarations(SECOND) <==> p in Example.SUP.decl[1]
      ensures p in Declarations(SECOND) && p in Example.SUP.decl[1] ==> Declarations(SECOND)[p] == Example.SUP.decl[1][p]
    {
      DeclarationsOf(p);
    }
    SameMap(Declarations(SECOND), Example.SUP.decl[1]);
  }

  /** Composition describes exactly the supergraph of `Example`. */
  lemma {:induction false} SupIs()
    ensures SupOf(Example.ENGINE, SUBS) == Example.SUP
  {
    PossibleIs();
    FieldTypesAre();
    DefinitionsOf();
    DeclarationsAreThose();
    var s := SupOf(Example.ENGINE, SUBS);
    assert SUBS[0] == FIRST && SUBS[1] == SECOND;
    assert s.decl == [Declarations(FIRST), Declarations(SECOND)] && s.defs == [Definitions(FIRST), Definitions(SECOND)];
  }

  lemma {:induction false} StoredExample(ft: Fetch)
    requires EndToEnd.Served(ft, Example.SUP, Example.STORE, 0)
    ensures Stored(Run(Example.SUP, Ctx(Example.SCHEMA.ps, Example.STORE, map[])), 0, ft, Example.OP, REPS_VAR, [F(Example.USER)])
    ensures Example.SCHEMA.Coherent()
  {
    Example.HypothesesMet(ft);
  }

  /** The composed supergraph meets every hypothesis of the theorem about
      composed subgraphs, which then answers the query with the value only
      the second subgraph holds. */
  lemma {:induction false} ComposedAnswer(ft: Fetch)
    requires EndToEnd.Served(ft, SupOf(Example.ENGINE, SUBS), Example.STORE, 0)
    ensures EndToEnd.Execute(ft, SupOf(Example.ENGINE, SUBS), Example.OP, REPS_VAR, [F(Example.USER)]) ==
            map["u" := Obj(map["e" := Str("x")])]
  {
    SupIs();
    ComposedTables();
    StoredExample(ft);
    var c := Ctx(Example.SCHEMA.ps, Example.STORE, map[]);
    ComposedFederation(NAMES, SUBS, Example.ENGINE, c, 0, ft, Example.OP, REPS_VAR, [F(Example.USER)]);
    Example.StoreAnswers();
  }
}
