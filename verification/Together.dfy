/** Fields that one subgraph answers are fetched together: on the witness
    supergraph, one response key selected twice costs one fetch and keeps
    both selections. */
module Together {
  import opened Basics
  import opened GraphQl
  import opened Plan
  import opened PlanFacts
  import opened Exec
  import opened Federation
  import opened Resolver
  import opened EndToEnd
  import opened Witness
  import opened Necessity

  // { u { p { a } p { b } } }, where p is subgraph 1's

  const SIBLINGS := Branch("u", "U", [F(PA), F(PB)])

  lemma {:induction false} SiblingsFit()
    ensures Typed(SCHEMA, QUERY, [F(SIBLINGS)]) && Clean([F(SIBLINGS)]) && Plain(SAME, [F(SIBLINGS)]) && !IsMeta("u")
  {
    Types("P", "a");
    Types("P", "b");
    Types("U", "p");
    Types(QUERY, "u");
    Kinds("P");
    Kinds("U");
    LeafShape("P", "a");
    LeafShape("P", "b");
    BranchShape("U", PA, SAME);
    BranchShape("U", PB, SAME);
    assert SIBLINGS.sels == [F(PA)] + [F(PB)];
    BranchShape(QUERY, SIBLINGS, SAME);
  }

  lemma {:induction false} SiblingsSplit()
    ensures RootOwner(ENGINE, "u") == Some(0) && Splits(ALL, SUP, 0, "U", SIBLINGS.sels)
  {
    TornSplits();
    PartSplits(ALL, "a");
    PartSplits(ALL, "b");
    assert forall x :: x in SIBLINGS.sels ==> x == F(PA) || x == F(PB);
  }

  lemma {:induction false} SiblingsCut()
    ensures Cuts(ENGINE, 0, "U", SIBLINGS.sels) == [PA, PB]
    ensures LocalNodes(ENGINE, 0, "U", SIBLINGS.sels) == []
  {
    PartSplits({}, "a");
    PartSplits({}, "b");
    PartCut("b");
    assert SIBLINGS.sels[1..] == [F(PB)];
    assert Cuts(ENGINE, 0, "U", SIBLINGS.sels) == [PA] + [PB];
    assert LocalNodes(ENGINE, 0, "U", SIBLINGS.sels) == SelNodes(ENGINE, 0, "U", F(PA)) + LocalNodes(ENGINE, 0, "U", [F(PB)]);
  }

  /** Both fields go to subgraph 1, in one group. */
  lemma {:induction false} SiblingsGroup()
    ensures Groups(ENGINE, "U", [PA, PB]) == [Group(1, [PA, PB])]
  {
    var gs := Groups(ENGINE, "U", [PA, PB]);
    PartSplits({}, "a");
    PartSplits({}, "b");
    GroupsExact(ENGINE, "U", [PA, PB]);
    SentBoth();
    forall i | 0 <= i < |gs| ensures gs[i].target == 1 && gs[i] == Group(1, [PA, PB]) {
      assert GroupHolds(ENGINE, "U", [PA, PB], gs[i]);
      assert gs[i].fields[0] in gs[i].fields;
    }
    assert PA in [PA, PB];
    assert |gs| == 1;
  }

  lemma {:induction false} SentBoth()
    ensures SentTo(ENGINE, "U", [PA, PB], 1) == [PA, PB]
  {
    PartSplits({}, "a");
    PartSplits({}, "b");
    assert [PA, PB][1..] == [PB] && [PB][1..] == [];
    assert SentTo(ENGINE, "U", [PB], 1) == [PB] + [];
  }

  lemma {:induction false} SiblingsNodes()
    ensures |FieldsNodes(ENGINE, 0, [SIBLINGS])| == 1
  {
    SiblingsCut();
    SiblingsGroup();
    NodesOfGroups(ENGINE, "U", [Group(1, [PA, PB])]);
    var ns := Nodes(ENGINE, 0, "U", SIBLINGS.sels);
    assert ns == [] + CutNodes(ENGINE, "U", [Group(1, [PA, PB])]) && |ns| == 1;
    assert ns[1..] == [] && Prefix(Key("u"), ns) == [ns[0].(path := [Key("u")] + ns[0].path)] + [];
    assert [SIBLINGS][1..] == [] && FieldsNodes(ENGINE, 0, [SIBLINGS]) == Prefix(Key("u"), ns) + [];
  }

  // the query keeps the rule on double cuts

  lemma {:induction false} SiblingsGroups()
    ensures AllGroups(ENGINE, SCHEMA.ps, 0, "U", [SIBLINGS]) == [Group(1, [PA, PB])]
    ensures Collect(SCHEMA.ps, "U", Subs([SIBLINGS])) == [PA, PB]
  {
    SiblingsCut();
    SiblingsGroup();
    assert [SIBLINGS][1..] == [] && Subs([SIBLINGS]) == SIBLINGS.sels + Subs([]) && SIBLINGS.sels + [] == SIBLINGS.sels;
    CollectTwo(SCHEMA.ps, "U", PA, PB);
    assert OwnLocal(ENGINE, SCHEMA.ps, 0, "U", [F(PB)]) == [];
    assert SIBLINGS.sels[1..] == [F(PB)] && OwnLocal(ENGINE, SCHEMA.ps, 0, "U", SIBLINGS.sels) == [];
    assert OwnGroups(ENGINE, SCHEMA.ps, 0, "U", "U", SIBLINGS.sels) == [] + [Group(1, [PA, PB])];
    assert AllGroups(ENGINE, SCHEMA.ps, 0, "U", [SIBLINGS]) == [Group(1, [PA, PB])] + [];
  }

  lemma {:induction false} PartsOnce()
    ensures SingleCutFields(SUP, 1, [PA, PB])
  {
    Types("P", "a");
    Types("P", "b");
    LeafShape("P", "a");
    LeafShape("P", "b");
    forall k ensures SingleCut(SUP, 1, With([PA, PB], k)) {
      LeafCutsOnce(SUP, 1, With([PA, PB], k));
    }
  }

  lemma {:induction false} SiblingsOnce()
    ensures SingleCut(SUP, 0, [SIBLINGS])
  {
    forall t | PossibleFor(SUP, 0, [SIBLINGS], t)
      ensures CutOnce(AllGroups(ENGINE, SCHEMA.ps, 0, t, [SIBLINGS]))
      ensures forall k :: SingleCut(SUP, 0, LocalsWith(SUP, 0, t, Subs([SIBLINGS]), k))
      ensures forall g :: g in AllGroups(ENGINE, SCHEMA.ps, 0, t, [SIBLINGS]) ==> SingleCutFields(SUP, g.target, g.fields)
    {
      Kinds("U");
      assert SIBLINGS in [SIBLINGS] && t == "U";
      SiblingsGroups();
      PartSplits({}, "a");
      PartSplits({}, "b");
      PartsOnce();
      forall k ensures SingleCut(SUP, 0, LocalsWith(SUP, 0, t, Subs([SIBLINGS]), k)) {
        NoneLocal(With([PA, PB], k));
      }
    }
  }

  // what the store answers

  /** Execution of two leaves. */
  lemma {:induction false} EvalPair(c: Ctx, o: Oid, f: Field, g: Field)
    requires f.Key() != g.Key() && f.sels == [] && g.sels == []
    ensures EvalObj(c, o, [f, g]) ==
            map[f.Key() := Complete(c, Resolve(c, o, f), []), g.Key() := Complete(c, Resolve(c, o, g), [])]
  {
    WithTwo(f, g);
    assert [f][1..] == [] && Subs([f]) == [] && [g][1..] == [] && Subs([g]) == [];
    var m := EvalObj(c, o, [f, g]);
    assert m.Keys == {f.Key(), g.Key()};
  }

  lemma PartLeaves()
    ensures Resolve(CTX, 2, Leaf("a")) == RLeaf(Str("x")) && Resolve(CTX, 2, Leaf("b")) == RLeaf(Str("x")) && "a" != "b"
  {
    Letters();
  }

  lemma {:induction false} PartsStored()
    ensures Complete(CTX, RRef(2), [F(Leaf("a")), F(Leaf("b"))]) == Obj(map["a" := Str("x"), "b" := Str("x")])
  {
    PartLeaves();
    PairSubs();
    EvalPair(CTX, 2, Leaf("a"), Leaf("b"));
  }

  lemma {:induction false} SiblingsStored()
    ensures Complete(CTX, RRef(1), SIBLINGS.sels) == Obj(map["p" := Obj(map["a" := Str("x"), "b" := Str("x")])])
  {
    CollectTwo(SCHEMA.ps, "U", PA, PB);
    PartResolved();
    PartsStored();
    SharedEval(CTX, 1, PA, PB);
    PairSubs();
    assert CTX.w.typeOf(1) == "U";
  }

  /** Execution of two fields under one key. */
  lemma {:induction false} SharedEval(c: Ctx, o: Oid, f: Field, g: Field)
    requires f.Key() == g.Key()
    ensures EvalObj(c, o, [f, g]) == map[f.Key() := Complete(c, Resolve(c, o, f), Subs([f, g]))]
  {
    assert [f, g][1..] == [g] && [g][1..] == [] && With([g], f.Key()) == [g] + [] && With([f, g], f.Key()) == [f] + [g];
    var m := EvalObj(c, o, [f, g]);
    assert f in [f, g] && m.Keys == {f.Key()};
  }

  /** One fetch for both, and the client gets both. */
  lemma {:induction false} SiblingsAnswered(ft: Fetch)
    requires Served(ft, SUP, STORE, 0)
    ensures Setting(ALL, RUN, 0, ft, OP, REPS_VAR, [F(SIBLINGS)])
    ensures |FieldsNodes(ENGINE, 0, [SIBLINGS])| == 1
    ensures Execute(ft, SUP, OP, REPS_VAR, [F(SIBLINGS)]) ==
            map["u" := Obj(map["p" := Obj(map["a" := Str("x"), "b" := Str("x")])])]
  {
    SiblingsFit();
    SiblingsSplit();
    forall k ensures SingleCut(SUP, 0, With([SIBLINGS], k)) {
      CollectOne(SCHEMA.ps, "U", SIBLINGS);
      SiblingsOnce();
    }
    OneHosted(ALL, SAME, SIBLINGS, 0);
    OpFacts();
    SiblingsNodes();
    FederationPreservesMeaning(RUN, 0, ft, OP, REPS_VAR, [F(SIBLINGS)]);
    CompleteOne(CTX, 0, SIBLINGS);
    RootResolved(SIBLINGS);
    SiblingsStored();
  }
}
