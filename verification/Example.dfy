/** The theorem's hypotheses can be met: two subgraphs sharing an entity, a
    query that needs both. */
module Example {
  import opened Basics
  import opened GraphQl
  import opened Plan
  import opened PlanFacts
  import opened Exec
  import opened Federation
  import opened Resolver
  import opened Subqueries
  import opened Variables
  import opened EndToEnd

  const SCHEMA := Schema(map["Query" := {"Query"}, "U" := {"U"}],
                         map[("Query", "u") := "U", ("U", "i") := "ID", ("U", "e") := "ID"])

  const ENGINE := Engine(map[("Query", "u") := [0], ("U", "i") := [0, 1], ("U", "e") := [1]],
                         map["U" := [Some(["i"]), Some(["i"])]])

  const SUP := Sup(ENGINE, SCHEMA,
                   [map[("Query", "u") := "U", ("U", "i") := "ID"], map[("U", "i") := "ID", ("U", "e") := "ID"]],
                   [{"Query", "U"}, {"Query", "U"}])

  /** Object 0 is the query root; every other object is a `U`. */
  const STORE := World(
    (o: Oid) => if o == 0 then "Query" else "U",
    (o: Oid, f: Name, args: ArgVals) =>
      if o == 0 then (if f == "u" then RRef(1) else RNull)
      else if f == "i" then RLeaf(Num(Whole(o))) else if f == "e" then RLeaf(Str("x")) else RNull)

  const OP := Operation([], map[])

  const EMAIL := Field(None, "e", [], [], "ID", [])
  const USER := Field(None, "u", [], [], "U", [F(EMAIL)])

  lemma {:induction false} FieldsCovered()
    ensures Covered(SUP)
  {
    forall sg: nat, f | SUP.Defines(sg, "U") && ("U", f) in SCHEMA.fieldTy
      ensures ("U", f) in ENGINE.owners && (sg in ENGINE.owners[("U", f)] || Reachable(SUP, sg, "U", f))
    {
      assert ENGINE.PickTarget("U", [1]) == Some(1) && ENGINE.KeysOf("U", 1) == ["i"];
    }
  }

  lemma {:induction false} TablesDeclare()
    ensures OwnersDeclare(SUP) && DeclaredTypes(SUP)
  {
  }

  lemma {:induction false} TablesSound()
    ensures Sound(SUP)
  {
    FieldsCovered();
    TablesDeclare();
    assert "Mutation"[0] == 'M' && "Query"[0] == 'Q' && "U"[0] == 'U';
  }

  lemma {:induction false} StoreTyped()
    ensures WorldTyped(SCHEMA, STORE)
  {
    forall o: Oid, f, args: ArgVals | (STORE.typeOf(o), f) in SCHEMA.fieldTy
      ensures Conforms(SCHEMA, STORE, STORE.resolve(o, f, args), SCHEMA.fieldTy[(STORE.typeOf(o), f)])
    {
      assert STORE.typeOf(1) == "U";
    }
  }

  lemma {:induction false} StoreReturns()
    ensures ReturnsOwnTypes(SUP, STORE)
  {
    forall sg: nat, o: Oid, f, args: ArgVals | CanResolve(SUP, sg, STORE.typeOf(o), f)
      ensures RefsIn(SUP, sg, STORE, STORE.resolve(o, f, args))
    {
      assert STORE.typeOf(1) == "U";
    }
  }

  lemma {:induction false} KeysFit()
    ensures KeysIdentify(Run(SUP, Ctx(SCHEMA.ps, STORE, map[])))
  {
    var x := Run(SUP, Ctx(SCHEMA.ps, STORE, map[]));
    forall t, sg: nat, k | k in SUP.e.KeysOf(t, sg) ensures KeyLeaf(x, t, k) {
      assert t == "U" && k == "i";
      assert "i"[0] == 'i';
    }
    forall t, sg: nat, o: Oid, o': Oid | SUP.e.HasKey(t, sg) && SameKey(x, t, sg, o, o') ensures o == o' {
      assert t == "U" && "i" in SUP.e.KeysOf(t, sg);
      assert KeyValue(STORE, o, "i") == KeyValue(STORE, o', "i");
      assert KeyValue(STORE, o, "i") == Num(Whole(o)) && KeyValue(STORE, o', "i") == Num(Whole(o'));
    }
  }

  lemma {:induction false} QueryTyped()
    ensures Typed(SCHEMA, "Query", [F(USER)]) && Clean([F(USER)]) && SelsVars([F(USER)]) == {}
  {
    assert [F(USER)][1..] == [] && [F(EMAIL)][1..] == [];
    assert "e"[0] == 'e' && "u"[0] == 'u' && "__"[0] == '_' && "g2__"[0] == 'g' && TYPENAME[0] == '_';
    assert TypedSel(SCHEMA, "U", F(EMAIL)) && CleanSel(F(EMAIL));
    assert forall x :: x in USER.sels ==> x == F(EMAIL);
    assert Typed(SCHEMA, "U", USER.sels) && Clean(USER.sels);
    assert TypedSel(SCHEMA, "Query", F(USER)) && CleanSel(F(USER));
    assert FieldVars(EMAIL) == ArgsVars([]) + DirsVars([]) + SelsVars([]);
    assert SelsVars(USER.sels) == SelVars(F(EMAIL)) + SelsVars([]);
    assert FieldVars(USER) == ArgsVars([]) + DirsVars([]) + SelsVars(USER.sels);
    assert SelsVars([F(USER)]) == SelVars(F(USER)) + SelsVars([]);
  }

  lemma {:induction false} OnlyEmail(t: Name, sels: seq<Sel>)
    requires forall x :: x in sels ==> x == F(EMAIL)
    ensures forall f :: f in Collect(SCHEMA.ps, t, sels) ==> f == EMAIL
  {
    if sels != [] {
      assert sels[0] in sels && forall x :: x in sels[1..] ==> x in sels;
      OnlyEmail(t, sels[1..]);
    }
  }

  lemma {:induction false} EmailMerges(sels: seq<Sel>)
    requires forall x :: x in sels ==> x == F(EMAIL)
    ensures MergeOk(SCHEMA.ps, sels)
  {
    assert EMAIL.sels + EMAIL.sels == [];
    assert Mergeable(SCHEMA.ps, EMAIL, EMAIL);
    forall t ensures forall f :: f in Collect(SCHEMA.ps, t, sels) ==> f == EMAIL {
      OnlyEmail(t, sels);
    }
  }

  lemma {:induction false} QueryMerges()
    ensures MergesEverywhere(SCHEMA.ps, [F(USER)]) && MergesEverywhere(SCHEMA.ps, USER.sels)
  {
    EmailMerges(USER.sels);
    EmailMerges(USER.sels + USER.sels);
    assert MergesEverywhere(SCHEMA.ps, EMAIL.sels);
    assert MergesSel(SCHEMA.ps, F(EMAIL));
    assert MergesEverywhere(SCHEMA.ps, USER.sels);
    assert Mergeable(SCHEMA.ps, USER, USER);
    forall t ensures Collect(SCHEMA.ps, t, [F(USER)]) == [USER] {
      CollectOne(SCHEMA.ps, t, USER);
    }
    assert MergeOk(SCHEMA.ps, [F(USER)]);
    assert MergesSel(SCHEMA.ps, F(USER));
  }

  lemma {:induction false} EmailCut()
    ensures !ENGINE.Local(0, "U", EMAIL) && ENGINE.Target("U", EMAIL) == 1
    ensures Cuts(ENGINE, 0, "U", USER.sels) == [EMAIL] && Groups(ENGINE, "U", [EMAIL]) == [Group(1, [EMAIL])]
    ensures AllGroups(ENGINE, SCHEMA.ps, 0, "U", [USER]) == [Group(1, [EMAIL])]
    ensures forall k :: LocalsWith(SUP, 0, "U", Subs([USER]), k) == []
  {
    assert "e"[0] == 'e' && "__"[0] == '_';
    assert ENGINE.PickTarget("U", [1]) == Some(1);
    assert USER.sels[1..] == [] && [EMAIL][..0] == [] && [USER][1..] == [];
    assert Groups(ENGINE, "U", []) == [];
    assert OwnLocal(ENGINE, SCHEMA.ps, 0, "U", USER.sels) == [];
    assert OwnGroups(ENGINE, SCHEMA.ps, 0, "U", "U", USER.sels) == [] + [Group(1, [EMAIL])];
    assert AllGroups(ENGINE, SCHEMA.ps, 0, "U", [USER]) == [Group(1, [EMAIL])] + [];
    assert Subs([USER]) == USER.sels + [];
    CollectOne(SCHEMA.ps, "U", EMAIL);
    forall k ensures LocalsWith(SUP, 0, "U", Subs([USER]), k) == [] {
      assert [EMAIL][1..] == [];
    }
  }

  lemma {:induction false} QuerySplits()
    ensures SplitOk(SUP, 0, "U", USER.sels)
  {
    EmailCut();
    assert SplitOk(SUP, 1, "ID", EMAIL.sels);
    assert SplitSel(SUP, 0, "U", F(EMAIL));
    assert forall x :: x in USER.sels ==> x == F(EMAIL);
  }

  lemma {:induction false} QueryCutsOnce()
    ensures SingleCutFields(SUP, 0, [USER])
  {
    CollectOne(SCHEMA.ps, "U", USER);
    CollectOne(SCHEMA.ps, "U", EMAIL);
    EmailCut();
    forall k ensures SingleCut(SUP, 1, With([EMAIL], k)) {
      assert EMAIL in [EMAIL];
    }
    assert SingleCutFields(SUP, 1, [EMAIL]);
    forall t | PossibleFor(SUP, 0, [USER], t) ensures t == "U" {
      assert USER in [USER];
    }
    assert SingleCut(SUP, 0, []);
    assert SingleCut(SUP, 0, [USER]);
    forall k ensures SingleCut(SUP, 0, With([USER], k)) {
    }
  }

  lemma {:induction false} QueryFits()
    ensures Query(ALL, SUP, OP, [F(USER)])
  {
    QueryTyped();
    QueryMerges();
    CollectOne(SCHEMA.ps, "Query", USER);
    forall k ensures RootSupported(ALL, SUP, With([USER], k)) {
      QuerySplits();
      QueryCutsOnce();
      assert forall f :: f in With([USER], k) ==> f == USER;
      assert RootOwner(ENGINE, "u") == Some(0);
      assert F(USER) in [F(USER)] && TypedSel(SCHEMA, "Query", F(USER));
      assert RootSelection(ALL, SUP, USER);
    }
  }

  lemma {:induction false} RootsFit()
    ensures RootsOwned(SUP)
  {
    forall f | ("Query", f) in SCHEMA.fieldTy
      ensures RootOwner(ENGINE, f).Some? && SUP.Declares(RootOwner(ENGINE, f).value, "Query", f)
    {
      assert f == "u";
    }
  }

  /** Both subgraphs are needed, and every hypothesis of the end-to-end
      theorem holds: it says something about this query. */
  lemma {:induction false} HypothesesMet(ft: Fetch)
    requires Served(ft, SUP, STORE, 0)
    ensures Setting(ALL, Run(SUP, Ctx(SCHEMA.ps, STORE, map[])), 0, ft, OP, REPS_VAR, [F(USER)])
    ensures Nodes(ENGINE, 0, "U", USER.sels) != []
  {
    assert DefNames(OP.defs) == {} && Bind(OP.defs, OP.raw) == map[];
    TablesSound();
    StoreTyped();
    StoreReturns();
    KeysFit();
    QueryFits();
    RootsFit();
    EmailCut();
  }

  lemma {:induction false} StoreAnswers()
    ensures Complete(Ctx(SCHEMA.ps, STORE, map[]), RRef(0), [F(USER)]) == Obj(map["u" := Obj(map["e" := Str("x")])])
  {
    var c := Ctx(SCHEMA.ps, STORE, map[]);
    CollectOne(SCHEMA.ps, "Query", USER);
    CollectOne(SCHEMA.ps, "U", EMAIL);
    ResolvedFields(c);
    EvalOne(c, 1, EMAIL);
    EvalOne(c, 0, USER);
  }

  lemma {:induction false} ResolvedFields(c: Ctx)
    requires c == Ctx(SCHEMA.ps, STORE, map[])
    ensures Resolve(c, 1, EMAIL) == RLeaf(Str("x")) && Resolve(c, 0, USER) == RRef(1)
    ensures c.w.typeOf(0) == "Query" && c.w.typeOf(1) == "U"
  {
    assert "e"[0] == 'e' && "u"[0] == 'u' && TYPENAME[0] == '_';
  }

  /** The query fetched from one subgraph, resolved at the other and merged
      answers with the value only the second one holds. */
  lemma {:induction false} Answered(ft: Fetch)
    requires Served(ft, SUP, STORE, 0)
    ensures Execute(ft, SUP, OP, REPS_VAR, [F(USER)]) == map["u" := Obj(map["e" := Str("x")])]
  {
    HypothesesMet(ft);
    FederationPreservesMeaning(Run(SUP, Ctx(SCHEMA.ps, STORE, map[])), 0, ft, OP, REPS_VAR, [F(USER)]);
    StoreAnswers();
  }
}
