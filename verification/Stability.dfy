/** Responses to planned sub-queries are stable: no merge of the resolver
    disturbs the representations a sibling fetch collected. */
module Stability {
  import opened Basics
  import opened GraphQl
  import opened Plan
  import opened PlanFacts
  import opened Exec
  import opened Federation
  import opened Meaning
  import opened Refinement

  lemma StableNothing(x: Run, j: Json)
    ensures Stable(x, j, [])
  {
  }

  lemma {:induction false} StableValue(x: Run, sg: nat, fs: seq<Field>, r: Name, v: RVal)
    requires Given(x, sg, fs, r, v)
    ensures Stable(x, Complete(SubCtx(x, sg), v, Subs(PrintedAll(x.s.e, sg, fs))), SubNodes(x.s.e, sg, fs))
    decreases FieldsDepth(fs), 3, v
  {
    var text := Subs(PrintedAll(x.s.e, sg, fs));
    var ns := SubNodes(x.s.e, sg, fs);
    if !x.s.schema.Composite(r) {
      forall f | f in fs ensures f.sels == [] {
        assert Occurrence(x.s, sg, f, r);
      }
      NoSelections(x.s.e, sg, fs);
      StableNothing(x, Complete(SubCtx(x, sg), v, text));
    } else {
      match v
      case RNull => StableScalar(x, Null, ns);
      case RRef(o) => StableRef(x, sg, fs, r, o);
      case RList(items) =>
        var js := Complete(SubCtx(x, sg), v, text).items;
        forall i | 0 <= i < |js| ensures Stable(x, js[i], ns) {
          assert items[i] in items;
          StableValue(x, sg, fs, r, items[i]);
        }
        StableList(x, js, ns);
    }
  }

  lemma {:induction false} StableRef(x: Run, sg: nat, fs: seq<Field>, r: Name, o: Oid)
    requires Given(x, sg, fs, r, RRef(o)) && x.s.schema.Composite(r)
    ensures Stable(x, Obj(Fetched(x, sg, o, fs)), SubNodes(x.s.e, sg, fs))
    decreases FieldsDepth(fs), 2
  {
    var m := Fetched(x, sg, o, fs);
    var ns := SubNodes(x.s.e, sg, fs);
    ObjectSteady(x, sg, fs, r, o);
    forall k | k in m ensures Stable(x, m[k], Deriv(TypeNameOf(m), k, ns)) {
      StableMember(x, sg, fs, r, o, k);
    }
    forall n, rep | n in Own(TypeNameOf(m), ns) && RepOf(m, n.cut) == Some(rep) ensures EntityStable(x, n.cut, rep) {
      StableCut(x, sg, fs, r, o, n, rep);
    }
    StableObject(x, m, ns);
  }

  lemma {:induction false} StableMember(x: Run, sg: nat, fs: seq<Field>, r: Name, o: Oid, k: Name)
    requires Given(x, sg, fs, r, RRef(o)) && x.s.schema.Composite(r) && k in Fetched(x, sg, o, fs)
    ensures Stable(x, Fetched(x, sg, o, fs)[k], Deriv(TypeNameOf(Fetched(x, sg, o, fs)), k, SubNodes(x.s.e, sg, fs)))
    decreases FieldsDepth(fs), 1
  {
    var t := x.c.w.typeOf(o);
    var m := Fetched(x, sg, o, fs);
    var gs := LocalsWith(x.s, sg, t, Subs(fs), k);
    ReachedAt(x, sg, fs, r, o);
    FetchedTypename(x, sg, fs, o);
    AllDeriv(x.s, sg, t, fs, k);
    if (forall g :: g in gs ==> g.sels == []) {
      NoSelections(x.s.e, sg, gs);
      StableNothing(x, m[k]);
    } else {
      var f :| f in gs && f.sels != [];
      LocalComposite(x, sg, fs, r, o, k, f);
      FetchedLocal(x, sg, fs, o, k);
      LocalValue(x, sg, fs, r, o, k, f);
      LocalsDepth(x.s, sg, t, fs, k);
      StableValue(x, sg, gs, x.s.schema.fieldTy[(t, f.name)], Resolve(x.c, o, f));
    }
  }

  lemma {:induction false} LocalComposite(x: Run, sg: nat, fs: seq<Field>, r: Name, o: Oid, k: Name, f: Field)
    requires Given(x, sg, fs, r, RRef(o)) && x.s.schema.Composite(r)
    requires f in LocalsWith(x.s, sg, x.c.w.typeOf(o), Subs(fs), k) && f.sels != []
    ensures ClientKey(k)
    ensures (x.c.w.typeOf(o), f.name) in x.s.schema.fieldTy
    ensures Given(x, sg, LocalsWith(x.s, sg, x.c.w.typeOf(o), Subs(fs), k),
                  x.s.schema.fieldTy[(x.c.w.typeOf(o), f.name)], Resolve(x.c, o, f))
  {
    var t := x.c.w.typeOf(o);
    CollectedAsked(x.s, sg, fs, r, t, f);
    AliasFacts("");
    forall g | g in LocalsWith(x.s, sg, t, Subs(fs), k) ensures g.name == f.name {
      CollectedMergeable(x.s.schema.ps, t, fs, f, g);
    }
    LocalGiven(x, sg, fs, r, o, k, f);
  }

  lemma {:induction false} StableCut(x: Run, sg: nat, fs: seq<Field>, r: Name, o: Oid, n: FetchNode, rep: map<Name, Json>)
    requires Given(x, sg, fs, r, RRef(o)) && x.s.schema.Composite(r)
    requires n in Own(TypeNameOf(Fetched(x, sg, o, fs)), SubNodes(x.s.e, sg, fs)) && RepOf(Fetched(x, sg, o, fs), n.cut) == Some(rep)
    ensures EntityStable(x, n.cut, rep)
    decreases FieldsDepth(fs), 1
  {
    var t := x.c.w.typeOf(o);
    var gs := AllGroups(x.s.e, x.s.schema.ps, sg, t, fs);
    ReachedAt(x, sg, fs, r, o);
    FetchedTypename(x, sg, fs, o);
    AllOwn(x.s, sg, t, fs);
    CutNodesAt(x.s.e, t, gs);
    var i :| 0 <= i < |gs| && n == CutNode(x.s.e, t, gs[i]);
    StableGroup(x, sg, fs, r, o, gs[i]);
    FetchedRep(x, sg, fs, o, gs[i]);
  }

  lemma {:induction false} StableGroup(x: Run, sg: nat, fs: seq<Field>, r: Name, o: Oid, g: Group)
    requires Given(x, sg, fs, r, RRef(o)) && x.s.schema.Composite(r)
    requires g in AllGroups(x.s.e, x.s.schema.ps, sg, x.c.w.typeOf(o), fs)
    ensures KeysReady(x, sg, o, g)
    ensures Stable(x, Obj(EvalObj(SubCtx(x, g.target), o, PrintedAll(x.s.e, g.target, g.fields))), FieldsNodes(x.s.e, g.target, g.fields))
    decreases FieldsDepth(fs), 0
  {
    var t := x.c.w.typeOf(o);
    ReachedAt(x, sg, fs, r, o);
    AllNonempty(x.s.e, x.s.schema.ps, sg, t, fs);
    GroupReady(x, sg, fs, r, o, g);
    GroupAsks(x, sg, fs, o, g);
    GroupsDepthMember(AllGroups(x.s.e, x.s.schema.ps, sg, t, fs), g);
    StableFields(x, g.target, o, g.fields);
  }

  lemma {:induction false} StableFields(x: Run, sg: nat, o: Oid, fs: seq<Field>)
    requires Ready(x)
    requires forall f :: f in fs ==> Asked(x.s, sg, x.c.w.typeOf(o), f)
    requires SameKeyMergeable(x.s.schema.ps, fs) && SingleCutFields(x.s, sg, fs)
    ensures Stable(x, Obj(EvalObj(SubCtx(x, sg), o, PrintedAll(x.s.e, sg, fs))), FieldsNodes(x.s.e, sg, fs))
    decreases FieldsDepth(fs), 4
  {
    var m := EvalObj(SubCtx(x, sg), o, PrintedAll(x.s.e, sg, fs));
    var ns := FieldsNodes(x.s.e, sg, fs);
    forall f | f in fs ensures ClientKey(f.Key()) {
      AliasFacts("");
      assert Asked(x.s, sg, x.c.w.typeOf(o), f);
    }
    NothingOnTop(x.s.e, sg, TypeNameOf(m), fs);
    forall k | k in m ensures Stable(x, m[k], Deriv(TypeNameOf(m), k, ns)) {
      StableFieldsMember(x, sg, o, fs, k);
    }
    StableObject(x, m, ns);
  }

  lemma {:induction false} StableFieldsMember(x: Run, sg: nat, o: Oid, fs: seq<Field>, k: Name)
    requires Ready(x)
    requires forall f :: f in fs ==> Asked(x.s, sg, x.c.w.typeOf(o), f)
    requires SameKeyMergeable(x.s.schema.ps, fs) && SingleCutFields(x.s, sg, fs)
    requires k in EvalObj(SubCtx(x, sg), o, PrintedAll(x.s.e, sg, fs))
    ensures var m := EvalObj(SubCtx(x, sg), o, PrintedAll(x.s.e, sg, fs));
            Stable(x, m[k], Deriv(TypeNameOf(m), k, FieldsNodes(x.s.e, sg, fs)))
    decreases FieldsDepth(fs), 3
  {
    var t := x.c.w.typeOf(o);
    var m := EvalObj(SubCtx(x, sg), o, PrintedAll(x.s.e, sg, fs));
    PrintedKeys(x.s.e, sg, fs, k);
    DerivFields(x.s.e, sg, TypeNameOf(m), k, fs);
    EvalAt(SubCtx(x, sg), o, PrintedAll(x.s.e, sg, fs), k);
    var f :| f in fs && f.Key() == k;
    FieldsGiven(x, sg, o, fs, f);
    assert Resolve(SubCtx(x, sg), o, Printed(x.s.e, sg, With(fs, k)[0])) == Resolve(x.c, o, f);
    StableValue(x, sg, With(fs, k), x.s.schema.fieldTy[(t, f.name)], Resolve(x.c, o, f));
  }
}
