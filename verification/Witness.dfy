/** A supergraph of two subgraphs and a store, on which each shape the
    end-to-end theorem excludes goes wrong. Subgraph 0 serves `u` and, as
    interface `N`, `n`; subgraph 1 serves `v` and owns `e`, `h` and `p` of the
    entity `U` they share by `i`. */
module Witness {
  import opened Basics
  import opened GraphQl
  import opened Plan
  import opened PlanFacts
  import opened Exec
  import opened Federation
  import opened Resolver
  import opened Subqueries
  import opened Variables
  import opened EndToEnd

  const SCHEMA := Schema(
    map["Query" := {"Query"}, "U" := {"U"}, "N" := {"U"}, "P" := {"P"}],
    map[("Query", "u") := "U", ("Query", "n") := "N", ("Query", "v") := "U",
        ("N", "e") := "ID", ("N", "f") := "U", ("N", "h") := "U",
        ("U", "i") := "ID", ("U", "e") := "ID", ("U", "f") := "U", ("U", "h") := "U", ("U", "q") := "Query", ("U", "p") := "P",
        ("P", "a") := "ID", ("P", "b") := "ID"])

  const ENGINE := Engine(
    map[("Query", "u") := [0], ("Query", "n") := [0], ("Query", "v") := [1],
        ("U", "i") := [0, 1], ("U", "e") := [1], ("U", "f") := [0], ("U", "h") := [1], ("U", "q") := [0], ("U", "p") := [1]],
    map["U" := [Some(["i"]), Some(["i"])]])

  /** Subgraph 0 declares `e` and `h` of `U` too, as external. */
  const FIRST: map<(Name, Name), Name> :=
    map[("Query", "u") := "U", ("Query", "n") := "N", ("N", "e") := "ID", ("N", "f") := "U", ("N", "h") := "U",
        ("U", "i") := "ID", ("U", "e") := "ID", ("U", "f") := "U", ("U", "h") := "U", ("U", "q") := "Query"]

  const SECOND: map<(Name, Name), Name> :=
    map[("Query", "v") := "U", ("U", "i") := "ID", ("U", "e") := "ID", ("U", "h") := "U", ("U", "p") := "P",
        ("P", "a") := "ID", ("P", "b") := "ID"]

  const SUP := Sup(ENGINE, SCHEMA, [FIRST, SECOND], [{"Query", "U", "N"}, {"Query", "U", "P"}])

  /** Object 0 is the query root, 1 the only `U`, all others are `P`s. */
  const STORE := World(
    (o: Oid) => if o == 0 then "Query" else if o == 1 then "U" else "P",
    (o: Oid, f: Name, args: ArgVals) =>
      if f in {"u", "n", "v", "f", "h"} then RRef(1) else if f == "q" then RRef(0) else if f == "p" then RRef(2)
      else RLeaf(Str("x")))

  const CTX := Ctx(SCHEMA.ps, STORE, map[])

  const RUN := Run(SUP, CTX)

  const OP := Operation([], map[])

  /** The names differ by their first characters. */
  lemma Letters()
    ensures "Query"[0] == 'Q' && "U"[0] == 'U' && "N"[0] == 'N' && "P"[0] == 'P' && "ID"[0] == 'I' && "Mutation"[0] == 'M'
    ensures "u"[0] == 'u' && "n"[0] == 'n' && "v"[0] == 'v' && "e"[0] == 'e' && "f"[0] == 'f' && "i"[0] == 'i'
    ensures "h"[0] == 'h' && "q"[0] == 'q' && "p"[0] == 'p' && "a"[0] == 'a' && "b"[0] == 'b'
    ensures TYPENAME[0] == '_' && "__"[0] == '_' && "g2__"[0] == 'g' && "g2__i"[0] == 'g'
  {
  }

  predicate HasField(t: Name, f: Name) {
    || (t == "Query" && f in ["u", "n", "v"])
    || (t == "N" && f in ["e", "f", "h"])
    || (t == "U" && f in ["i", "e", "f", "h", "q", "p"])
    || (t == "P" && f in ["a", "b"])
  }

  lemma {:induction false} SchemaFields(t: Name, f: Name)
    ensures (t, f) in SCHEMA.fieldTy <==> HasField(t, f)
    ensures (t, f) in ENGINE.owners <==> HasField(t, f) && t in ["Query", "U"]
  {
    Letters();
  }

  lemma {:induction false} Fields(t: Name, f: Name)
    ensures (t, f) in SCHEMA.fieldTy <==> HasField(t, f)
    ensures (t, f) in FIRST <==> HasField(t, f) && t != "P" && f !in ["v", "p"]
    ensures (t, f) in SECOND <==> HasField(t, f) && t != "N" && f !in ["u", "n", "f", "q"]
    ensures (t, f) in ENGINE.owners <==> HasField(t, f) && t in ["Query", "U"]
  {
    Letters();
    SchemaFields(t, f);
  }

  function TypeOf(f: Name): Name {
    if f in ["u", "v", "f", "h"] then "U" else if f == "n" then "N" else if f == "q" then "Query" else if f == "p" then "P" else "ID"
  }

  lemma {:induction false} SchemaType(t: Name, f: Name)
    requires HasField(t, f)
    ensures (t, f) in SCHEMA.fieldTy && SCHEMA.fieldTy[(t, f)] == TypeOf(f)
  {
    Letters();
  }

  lemma {:induction false} FirstType(t: Name, f: Name)
    requires (t, f) in FIRST
    ensures FIRST[(t, f)] == TypeOf(f)
  {
    Letters();
  }

  lemma {:induction false} SecondType(t: Name, f: Name)
    requires (t, f) in SECOND
    ensures SECOND[(t, f)] == TypeOf(f)
  {
    Letters();
  }

  lemma {:induction false} Types(t: Name, f: Name)
    requires HasField(t, f)
    ensures (t, f) in SCHEMA.fieldTy && SCHEMA.fieldTy[(t, f)] == TypeOf(f)
    ensures (t, f) in FIRST ==> FIRST[(t, f)] == TypeOf(f)
    ensures (t, f) in SECOND ==> SECOND[(t, f)] == TypeOf(f)
  {
    SchemaType(t, f);
    if (t, f) in FIRST {
      FirstType(t, f);
    }
    if (t, f) in SECOND {
      SecondType(t, f);
    }
  }

  lemma Owners(f: Name)
    requires HasField("U", f)
    ensures ("U", f) in ENGINE.owners
    ensures ENGINE.owners[("U", f)] == if f == "i" then [0, 1] else if f in ["e", "h", "p"] then [1] else [0]
  {
    Letters();
  }

  lemma Kinds(t: Name)
    ensures t in SCHEMA.ps <==> t in ["Query", "U", "N", "P"]
    ensures t in SCHEMA.ps ==> SCHEMA.ps[t] == if t == "N" then {"U"} else {t}
    ensures SCHEMA.IsObject(t) <==> t in ["Query", "U", "P"]
  {
    Letters();
  }

  lemma {:induction false} Narrowed(p: Name, t: Name, f: Name)
    requires p in SCHEMA.ps && t in SCHEMA.ps[p] && (p, f) in SCHEMA.fieldTy
    ensures (t, f) in SCHEMA.fieldTy && SCHEMA.Narrower(SCHEMA.fieldTy[(t, f)], SCHEMA.fieldTy[(p, f)])
  {
    Kinds(p);
    Fields(p, f);
    if p == "N" {
      Letters();
      assert t == "U" && HasField("U", f);
      Types("N", f);
      Types("U", f);
    }
  }

  lemma {:induction false} SchemaCoherent()
    ensures SCHEMA.Coherent()
  {
    forall p, t | p in SCHEMA.ps && t in SCHEMA.ps[p] ensures SCHEMA.IsObject(t) {
      Kinds(p);
      Kinds(t);
    }
    forall p, t, f | p in SCHEMA.ps && t in SCHEMA.ps[p] && (p, f) in SCHEMA.fieldTy
      ensures (t, f) in SCHEMA.fieldTy && SCHEMA.Narrower(SCHEMA.fieldTy[(t, f)], SCHEMA.fieldTy[(p, f)])
    {
      Narrowed(p, t, f);
    }
  }

  lemma {:induction false} TablesDeclare()
    ensures OwnersDeclare(SUP) && DeclaredTypes(SUP)
  {
    forall t, f, sg: nat | t in ENGINE.keys && (t, f) in ENGINE.owners && sg in ENGINE.owners[(t, f)]
      ensures SUP.Declares(sg, t, f) && SUP.Defines(sg, t)
    {
      Letters();
      Fields(t, f);
      Owners(f);
    }
    forall sg: nat, t, f | SUP.Declares(sg, t, f)
      ensures (t, f) in SCHEMA.fieldTy && SUP.decl[sg][(t, f)] == SCHEMA.fieldTy[(t, f)]
      ensures SCHEMA.Composite(SCHEMA.fieldTy[(t, f)]) ==> SUP.Defines(sg, SCHEMA.fieldTy[(t, f)])
    {
      Letters();
      Fields(t, f);
      Types(t, f);
      Kinds(SCHEMA.fieldTy[(t, f)]);
    }
  }

  lemma {:induction false} EntityFields(sg: nat, f: Name)
    requires sg < 2 && HasField("U", f)
    ensures sg in ENGINE.owners[("U", f)] || Reachable(SUP, sg, "U", f)
  {
    Letters();
    Owners(f);
    Fields("U", "i");
    if sg !in ENGINE.owners[("U", f)] {
      var os := ENGINE.owners[("U", f)];
      assert ENGINE.HasKey("U", os[0]) && ENGINE.PickTarget("U", os) == Some(os[0]);
      assert ENGINE.KeysOf("U", os[0]) == ["i"];
    }
  }

  lemma {:induction false} FieldsCovered()
    ensures Covered(SUP)
  {
    forall sg: nat, t, f | SUP.Defines(sg, t) && t !in ROOTS && (t, f) in SCHEMA.fieldTy && !IsMeta(f)
      ensures if t in ENGINE.keys then (t, f) in ENGINE.owners && (sg in ENGINE.owners[(t, f)] || Reachable(SUP, sg, t, f))
              else SUP.Declares(sg, t, f)
    {
      Letters();
      Fields(t, f);
      if t == "U" {
        EntityFields(sg, f);
      }
    }
  }

  lemma {:induction false} RootsFit()
    ensures RootsOwned(SUP)
  {
    Kinds("Query");
    forall f | ("Query", f) in SCHEMA.fieldTy
      ensures RootOwner(ENGINE, f).Some? && SUP.Declares(RootOwner(ENGINE, f).value, "Query", f)
    {
      Letters();
      Fields("Query", f);
    }
  }

  lemma {:induction false} EntitiesPlain()
    ensures SUP.EntitiesAreObjects() && RootsArePlain(SUP)
  {
    Letters();
    Kinds("U");
  }

  lemma {:induction false} TablesSound()
    ensures Sound(SUP) && RootsOwned(SUP)
  {
    SchemaCoherent();
    EntitiesPlain();
    TablesDeclare();
    FieldsCovered();
    RootsFit();
  }

  lemma {:induction false} ValueTyped(o: Oid, f: Name, args: ArgVals)
    requires (STORE.typeOf(o), f) in SCHEMA.fieldTy
    ensures Conforms(SCHEMA, STORE, STORE.resolve(o, f, args), SCHEMA.fieldTy[(STORE.typeOf(o), f)])
  {
    var t := STORE.typeOf(o);
    Letters();
    Fields(t, f);
    Types(t, f);
    Kinds(SCHEMA.fieldTy[(t, f)]);
    assert STORE.typeOf(0) == "Query" && STORE.typeOf(1) == "U" && STORE.typeOf(2) == "P";
  }

  lemma {:induction false} ValueOwned(sg: nat, o: Oid, f: Name, args: ArgVals)
    requires SUP.Declares(sg, STORE.typeOf(o), f)
    ensures RefsIn(SUP, sg, STORE, STORE.resolve(o, f, args))
  {
    Letters();
    Fields(STORE.typeOf(o), f);
    assert STORE.typeOf(0) == "Query" && STORE.typeOf(1) == "U" && STORE.typeOf(2) == "P";
  }

  lemma {:induction false} StoreTyped()
    ensures WorldTyped(SCHEMA, STORE) && ReturnsOwnTypes(SUP, STORE)
  {
    forall o: Oid, f, args: ArgVals | (STORE.typeOf(o), f) in SCHEMA.fieldTy
      ensures Conforms(SCHEMA, STORE, STORE.resolve(o, f, args), SCHEMA.fieldTy[(STORE.typeOf(o), f)])
    {
      ValueTyped(o, f, args);
    }
    forall sg: nat, o: Oid, f, args: ArgVals | CanResolve(SUP, sg, STORE.typeOf(o), f)
      ensures RefsIn(SUP, sg, STORE, STORE.resolve(o, f, args))
    {
      ValueOwned(sg, o, f, args);
    }
  }

  lemma {:induction false} KeysFit()
    ensures KeysIdentify(RUN)
  {
    Letters();
    forall t, sg: nat, k | k in ENGINE.KeysOf(t, sg) ensures KeyLeaf(RUN, t, k) {
      assert t == "U" && k == "i";
      Fields(t, k);
      Types(t, k);
      Kinds("ID");
    }
    forall t, sg: nat, o: Oid, o': Oid | ENGINE.HasKey(t, sg) && SameKey(RUN, t, sg, o, o') ensures o == o' {
      assert t == "U";
    }
  }

  lemma {:induction false} RunReady()
    ensures Ready(RUN) && RootsOwned(SUP)
  {
    TablesSound();
    StoreTyped();
    KeysFit();
  }
}
