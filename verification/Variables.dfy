/** Variables: a sub-operation carries exactly the definitions and values it
    needs, under which its selections mean what they mean to the client. */
module Variables {
  import opened Basics
  import opened GraphQl
  import opened Plan
  import opened Resolver

  /** The value of variable `x`: given, defaulted or absent. */
  function Lookup(defs: seq<VarDef>, raw: map<Name, Json>, x: Name): Option<Json> {
    if defs == [] then None
    else if defs[0].name == x then
      if x in raw then Some(raw[x]) else defs[0].default
    else Lookup(defs[1..], raw, x)
  }

  /** The environment an operation executes with. */
  function Bind(defs: seq<VarDef>, raw: map<Name, Json>): Env {
    map x | x in DefNames(defs) && Lookup(defs, raw, x).Some? :: Lookup(defs, raw, x).value
  }

  /** Under distinct declarations a variable is what the client gave, else
      its own default, else unset. */
  lemma {:induction false} BindExact(defs: seq<VarDef>, raw: map<Name, Json>, i: nat)
    requires i < |defs| && forall j, k :: 0 <= j < k < |defs| ==> defs[j].name != defs[k].name
    ensures var x := defs[i].name;
            && (x in raw ==> x in Bind(defs, raw) && Bind(defs, raw)[x] == raw[x])
            && (x !in raw && defs[i].default.Some? ==> x in Bind(defs, raw) && Bind(defs, raw)[x] == defs[i].default.value)
            && (x !in raw && defs[i].default.None? ==> x !in Bind(defs, raw))
  {
    LookupAt(defs, raw, i);
    assert defs[i] in defs;
  }

  lemma {:induction false} LookupAt(defs: seq<VarDef>, raw: map<Name, Json>, i: nat)
    requires i < |defs| && forall j, k :: 0 <= j < k < |defs| ==> defs[j].name != defs[k].name
    ensures Lookup(defs, raw, defs[i].name) == if defs[i].name in raw then Some(raw[defs[i].name]) else defs[i].default
  {
    if i > 0 {
      assert defs[0].name != defs[i].name;
      LookupAt(defs[1..], raw, i - 1);
    }
  }

  ghost predicate AgreeOn(a: Env, b: Env, vs: set<Name>) {
    forall x :: x in vs ==> (x in a <==> x in b) && (x in a ==> a[x] == b[x])
  }

  lemma {:induction false} LookupUsed(defs: seq<VarDef>, raw: map<Name, Json>, used: set<Name>, x: Name)
    requires x in used
    ensures Lookup(UsedDefs(defs, used), UsedValues(raw, used), x) == Lookup(defs, raw, x)
  {
    if defs != [] {
      LookupUsed(defs[1..], raw, used, x);
    }
  }

  lemma {:induction false} LookupDeclared(defs: seq<VarDef>, raw: map<Name, Json>, x: Name)
    requires Lookup(defs, raw, x).Some?
    ensures x in DefNames(defs)
  {
    if defs[0].name == x {
      assert defs[0] in defs;
    } else {
      LookupDeclared(defs[1..], raw, x);
    }
  }

  /** Filtering definitions and values to the used variables, and adding a
      fresh one, keeps every used variable's value. */
  lemma {:induction false} UsedAgree(defs: seq<VarDef>, raw: map<Name, Json>, used: set<Name>, rv: Name, reps: Json)
    requires rv !in used
    ensures AgreeOn(Bind(defs, raw), Bind(UsedDefs(defs, used), UsedValues(raw, used)), used)
    ensures AgreeOn(Bind(defs, raw), Bind([VarDef(rv, None)] + UsedDefs(defs, used), UsedValues(raw, used)[rv := reps]), used)
  {
    forall x | x in used
      ensures Lookup(UsedDefs(defs, used), UsedValues(raw, used), x) == Lookup(defs, raw, x)
      ensures Lookup([VarDef(rv, None)] + UsedDefs(defs, used), UsedValues(raw, used)[rv := reps], x) == Lookup(defs, raw, x)
      ensures forall ds, vs :: Lookup(ds, vs, x).Some? ==> x in DefNames(ds)
    {
      LookupUsed(defs, raw, used, x);
      var ds := UsedDefs(defs, used);
      assert ([VarDef(rv, None)] + ds)[1..] == ds;
      LookupOther(ds, UsedValues(raw, used), rv, reps, x);
      forall ds, vs | Lookup(ds, vs, x).Some? ensures x in DefNames(ds) {
        LookupDeclared(ds, vs, x);
      }
    }
  }

  lemma {:induction false} LookupOther(defs: seq<VarDef>, raw: map<Name, Json>, rv: Name, v: Json, x: Name)
    requires x != rv
    ensures Lookup(defs, raw[rv := v], x) == Lookup(defs, raw, x)
  {
    if defs != [] {
      LookupOther(defs[1..], raw, rv, v, x);
    }
  }

  // ----- execution depends on used variables only

  lemma {:induction false} SubstEnv(v: Value, a: Env, b: Env)
    requires AgreeOn(a, b, ValueVars(v))
    ensures Subst(v, a) == Subst(v, b)
    decreases v
  {
    match v
    case Var(_) =>
    case Lit(_) =>
    case ListV(items) => SubstItemsEnv(items, a, b);
    case ObjV(members) => SubstArgsEnv(members, a, b);
  }

  lemma {:induction false} SubstItemsEnv(items: seq<Value>, a: Env, b: Env)
    requires AgreeOn(a, b, ItemsVars(items))
    ensures SubstItems(items, a) == SubstItems(items, b)
    decreases items
  {
    if items != [] {
      SubstEnv(items[0], a, b);
      SubstItemsEnv(items[1..], a, b);
    }
  }

  lemma {:induction false} SubstArgsEnv(args: seq<Arg>, a: Env, b: Env)
    requires AgreeOn(a, b, ArgsVars(args))
    ensures SubstArgs(args, a) == SubstArgs(args, b)
    decreases args
  {
    if args != [] {
      SubstEnv(args[0].value, a, b);
      SubstArgsEnv(args[1..], a, b);
    }
  }

  lemma {:induction false} CollectVars(ps: Poss, t: Name, sels: seq<Sel>, f: Field)
    requires f in Collect(ps, t, sels)
    ensures FieldVars(f) <= SelsVars(sels)
    decreases DepthOf(sels), |sels|
  {
    if f in Collect(ps, t, sels[1..]) {
      CollectVars(ps, t, sels[1..], f);
    } else {
      match sels[0]
      case F(g) => assert SelVars(sels[0]) == FieldVars(f);
      case Frag(_, dirs, sub) =>
        assert Depth(sels[0]) == 1 + DepthOf(sub);
        CollectVars(ps, t, sub, f);
        assert SelVars(sels[0]) == DirsVars(dirs) + SelsVars(sub);
    }
  }

  lemma {:induction false} SubsVars(fs: seq<Field>, vs: set<Name>)
    requires forall f :: f in fs ==> FieldVars(f) <= vs
    ensures SelsVars(Subs(fs)) <= vs
  {
    if fs != [] {
      assert fs[0] in fs;
      SubsVars(fs[1..], vs);
      SelsVarsAppend(fs[0].sels, Subs(fs[1..]));
    }
  }

  lemma {:induction false} FieldsVarsMember(fs: seq<Field>, f: Field)
    requires f in fs
    ensures FieldVars(f) <= FieldsVars(fs)
  {
    if fs[0] != f {
      FieldsVarsMember(fs[1..], f);
    }
  }

  lemma {:induction false} CompleteEnv(c: Ctx, d: Ctx, v: RVal, sels: seq<Sel>)
    requires c.ps == d.ps && c.w == d.w && AgreeOn(c.env, d.env, SelsVars(sels))
    ensures Complete(c, v, sels) == Complete(d, v, sels)
    decreases DepthOf(sels), 2, v
  {
    match v
    case RNull =>
    case RLeaf(_) =>
    case RList(items) =>
      forall i | 0 <= i < |items| ensures Complete(c, items[i], sels) == Complete(d, items[i], sels) {
        CompleteEnv(c, d, items[i], sels);
      }
    case RRef(o) =>
      var fs := Collect(c.ps, c.w.typeOf(o), sels);
      forall f | f in fs ensures FieldVars(f) <= SelsVars(sels) {
        CollectVars(c.ps, c.w.typeOf(o), sels, f);
      }
      EvalEnv(c, d, o, fs, SelsVars(sels));
  }

  /** Two environments that agree on the used variables give one response. */
  lemma {:induction false} EvalEnv(c: Ctx, d: Ctx, o: Oid, fs: seq<Field>, vs: set<Name>)
    requires c.ps == d.ps && c.w == d.w && AgreeOn(c.env, d.env, vs)
    requires forall f :: f in fs ==> FieldVars(f) <= vs
    ensures EvalObj(c, o, fs) == EvalObj(d, o, fs)
    decreases FieldsDepth(fs), 1
  {
    forall k | k in Keys(fs)
      ensures Complete(c, Resolve(c, o, With(fs, k)[0]), Subs(With(fs, k))) ==
              Complete(d, Resolve(d, o, With(fs, k)[0]), Subs(With(fs, k)))
    {
      var g := With(fs, k)[0];
      assert g in With(fs, k);
      SubstArgsEnv(g.args, c.env, d.env);
      SubsVars(With(fs, k), vs);
      CompleteEnv(c, d, Resolve(c, o, g), Subs(With(fs, k)));
    }
  }
}
