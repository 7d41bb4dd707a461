/** The whole execution of a query against a supergraph, and the theorem
    that it answers as one server holding the whole store would. */
module EndToEnd {
  import opened Basics
  import opened GraphQl
  import opened Plan
  import opened PlanFacts
  import opened Exec
  import opened Federation
  import opened Meaning
  import opened Resolver
  import opened Refinement
  import opened Stability
  import opened Subqueries
  import opened Variables

  const QUERY: Name := "Query"

  // ----- a faithful subgraph

  /** The checks a GraphQL server makes before it executes a request. */
  ghost predicate Accepts(s: Sup, req: Request) {
    var ty := if req.reps.Some? then req.reps.value.0 else QUERY;
    && WellFormedFields(s, req.subgraph, ty, req.text)
    && SameKeyMergeable(s.schema.ps, req.text)
    && VariablesOk(req)
  }

  /** Every used variable is declared, every declared one is used, and no
      name is declared twice (sections 5.8.1, 5.8.3 and 5.8.4). */
  ghost predicate VariablesOk(req: Request) {
    && (forall x :: x in FieldsVars(req.text) ==> x in DefNames(req.defs))
    && (forall d :: d in req.defs ==> d.name in FieldsVars(req.text) || (req.reps.Some? && d.name == req.reps.value.1))
    && DistinctNames(req.defs)
  }

  ghost predicate DistinctNames(defs: seq<VarDef>) {
    forall i, j :: 0 <= i < j < |defs| ==> defs[i].name != defs[j].name
  }

  ghost function ServeEntity(c: Ctx, w: World, t: Name, ks: seq<Name>, text: seq<Field>, rep: Json): Json {
    if !rep.Obj? then Null
    else
      var o := Find(w, t, ks, rep.fields);
      if o.None? then Null else Obj(EvalObj(c, o.value, text))
  }

  /** Executes an accepted request on the subgraph's view of the store. */
  ghost function Serve(s: Sup, w: World, root: Oid, req: Request): Reply {
    if !Accepts(s, req) then Answer(None, 1)
    else
      var c := Ctx(s.schema.ps, SubWorld(s, w, req.subgraph), Bind(req.defs, req.vars));
      if req.reps.None? then Answer(Some(EvalObj(c, root, req.text)), 0)
      else
        var (t, rv) := req.reps.value;
        if rv !in req.vars || !req.vars[rv].Arr? then Answer(None, 1)
        else
          var reps := req.vars[rv].items;
          var ks := s.e.KeysOf(t, req.subgraph);
          Answer(Some(map["_entities" := Arr(seq(|reps|, i requires 0 <= i < |reps| =>
            ServeEntity(c, w, t, ks, req.text, reps[i])))]), 0)
  }

  /** Every request is served from one store. */
  ghost predicate Served(ft: Fetch, s: Sup, w: World, root: Oid) {
    forall req :: ft(req) == Serve(s, w, root, req)
  }

  /** Such subgraphs exist, whatever the tables and the store. */
  lemma {:induction false} ServedExists(s: Sup, w: World, root: Oid)
    ensures exists ft: Fetch :: Served(ft, s, w, root)
  {
    ghost var ft: Fetch := (req: Request) => Serve(s, w, root, req);
    assert Served(ft, s, w, root);
  }

  // ----- the gateway

  datatype RootValue = Value(j: Json) | FieldError

  function RootOwner(e: Engine, name: Name): Option<nat> {
    if (QUERY, name) in e.owners && e.owners[(QUERY, name)] != [] then Some(e.owners[(QUERY, name)][0]) else None
  }

  function RootRequest(op: Operation, owner: nat, text: seq<Field>): Request {
    Request(owner, None, text, UsedDefs(op.defs, FieldsVars(text)), UsedValues(op.raw, FieldsVars(text)))
  }

  /** Plans, fetches and fully resolves the root field answering under `k`. */
  function RunRoot(ft: Fetch, e: Engine, op: Operation, rv: Name, k: Name, fs: seq<Field>): RootValue
    requires fs != []
  {
    var owner := RootOwner(e, fs[0].name);
    if owner.None? then FieldError
    else
      match ft(RootRequest(op, owner.value, PrintedAll(e, owner.value, fs)))
      case Failed => FieldError
      case Answer(data, errors) =>
        var root := Obj(if data.Some? then data.value else map[]);
        var out := ResolveNodes(ft, op, rv, [root], FieldsNodes(e, owner.value, fs)).values;
        if |out| == 1 && out[0].Obj? && k in out[0].fields then Value(out[0].fields[k])
        else if errors > 0 then FieldError
        else Value(Null)
  }

  function ExecuteKey(ft: Fetch, s: Sup, op: Operation, rv: Name, fs: seq<Field>, k: Name): Json
    requires k in Keys(fs)
  {
    var gs := With(fs, k);
    if gs[0].name == TYPENAME then Str(QUERY)
    else
      match RunRoot(ft, s.e, op, rv, k, gs)
      case FieldError => Null
      case Value(j) =>
        if (QUERY, gs[0].name) in s.schema.fieldTy
        then Project(s.schema, j, s.schema.fieldTy[(QUERY, gs[0].name)], Subs(gs))
        else Null
  }

  /** Executes a query: every root field on its own, then the stitch pass. */
  function Execute(ft: Fetch, s: Sup, op: Operation, rv: Name, sels: seq<Sel>): map<Name, Json> {
    var fs := Collect(s.schema.ps, QUERY, sels);
    map k | k in Keys(fs) :: ExecuteKey(ft, s, op, rv, fs, k)
  }

  // ----- what the theorem asks of the query

  /** Every root field has an owning subgraph that declares it. */
  ghost predicate RootsOwned(s: Sup) {
    && s.schema.IsObject(QUERY)
    && forall f :: (QUERY, f) in s.schema.fieldTy ==>
         RootOwner(s.e, f).Some? && s.Declares(RootOwner(s.e, f).value, QUERY, f)
  }

  /** A valid query in the shapes federation supports, as far as `rules`
      ask for them. */
  ghost predicate Query(rules: set<Rule>, s: Sup, op: Operation, sels: seq<Sel>) {
    && Typed(s.schema, QUERY, sels)
    && MergesEverywhere(s.schema.ps, sels)
    && (ClientKeys in rules ==> Clean(sels))
    && SelsVars(sels) <= DefNames(op.defs)
    && DistinctNames(op.defs)
    && forall k :: RootSupported(rules, s, With(Collect(s.schema.ps, QUERY, sels), k))
  }

  /** The occurrences of one root field split as the planner can. */
  ghost predicate RootSupported(rules: set<Rule>, s: Sup, fs: seq<Field>) {
    && (forall f :: f in fs && !IsMeta(f.name) ==> RootSelection(rules, s, f))
    && (OneCut in rules && fs != [] && RootOwner(s.e, fs[0].name).Some? ==>
          SingleCutFields(s, RootOwner(s.e, fs[0].name).value, fs))
  }

  ghost predicate RootSelection(rules: set<Rule>, s: Sup, f: Field) {
    && TypedSel(s.schema, QUERY, F(f))
    && MergesEverywhere(s.schema.ps, f.sels)
    && (RootOwner(s.e, f.name).Some? ==> Splits(rules, s, RootOwner(s.e, f.name).value, f.ty, f.sels))
  }

  // ----- requests are accepted and answered faithfully

  lemma {:induction false} UsedNames(defs: seq<VarDef>, used: set<Name>)
    requires used <= DefNames(defs)
    ensures used <= DefNames(UsedDefs(defs, used))
  {
    forall x | x in used ensures x in DefNames(UsedDefs(defs, used)) {
      var d :| d in defs && d.name == x;
    }
  }

  lemma {:induction false} UsedDistinct(defs: seq<VarDef>, used: set<Name>)
    requires DistinctNames(defs)
    ensures DistinctNames(UsedDefs(defs, used))
  {
    if defs != [] {
      assert forall i :: 0 <= i < |defs[1..]| ==> defs[1..][i] == defs[i + 1];
      UsedDistinct(defs[1..], used);
    }
  }

  /** A sub-operation declares exactly the variables it uses, plus the
      representations, each once. */
  lemma {:induction false} EntityVariables(op: Operation, rv: Name, cut: Cut, reps: seq<map<Name, Json>>)
    requires cut.vars == FieldsVars(cut.text) && cut.vars <= DefNames(op.defs)
    requires DistinctNames(op.defs) && rv !in DefNames(op.defs)
    ensures VariablesOk(EntityRequest(op, rv, cut, reps))
  {
    var ds := UsedDefs(op.defs, cut.vars);
    UsedNames(op.defs, cut.vars);
    UsedDistinct(op.defs, cut.vars);
    assert forall d :: d in ds ==> d.name in DefNames(op.defs);
    OneMore(VarDef(rv, None), ds);
  }

  lemma OneMore(d: VarDef, ds: seq<VarDef>)
    requires DistinctNames(ds) && forall e :: e in ds ==> e.name != d.name
    ensures DistinctNames([d] + ds)
    ensures DefNames([d] + ds) == DefNames(ds) + {d.name}
  {
    var all := [d] + ds;
    forall i, j | 0 <= i < j < |all| ensures all[i].name != all[j].name {
      assert all[j] == ds[j - 1] && ds[j - 1] in ds;
    }
    assert d in all && forall e :: e in ds ==> e in all;
  }

  lemma {:induction false} RootVariables(op: Operation, owner: nat, text: seq<Field>)
    requires FieldsVars(text) <= DefNames(op.defs) && DistinctNames(op.defs)
    ensures VariablesOk(RootRequest(op, owner, text))
  {
    UsedNames(op.defs, FieldsVars(text));
    UsedDistinct(op.defs, FieldsVars(text));
  }

  lemma {:induction false} EntityServed(x: Run, op: Operation, rv: Name, cut: Cut, reps: seq<map<Name, Json>>, i: nat)
    requires cut.vars == FieldsVars(cut.text) && rv !in cut.vars && i < |reps|
    requires x.c == Ctx(x.s.schema.ps, x.c.w, Bind(op.defs, op.raw))
    ensures var req := EntityRequest(op, rv, cut, reps);
            var c := Ctx(x.s.schema.ps, SubWorld(x.s, x.c.w, cut.subgraph), Bind(req.defs, req.vars));
            ServeEntity(c, x.c.w, cut.typeName, cut.keyFields, cut.text, Obj(reps[i])) == RawEntity(x, cut, reps[i])
  {
    var req := EntityRequest(op, rv, cut, reps);
    var c := Ctx(x.s.schema.ps, SubWorld(x.s, x.c.w, cut.subgraph), Bind(req.defs, req.vars));
    var o := Find(x.c.w, cut.typeName, cut.keyFields, reps[i]);
    if o.Some? {
      UsedAgree(op.defs, op.raw, cut.vars, rv, Arr(Objects(reps)));
      forall f | f in cut.text ensures FieldVars(f) <= cut.vars {
        FieldsVarsMember(cut.text, f);
      }
      EvalEnv(SubCtx(x, cut.subgraph), c, o.value, cut.text, cut.vars);
    }
  }

  lemma {:induction false} CutServed(x: Run, root: Oid, op: Operation, rv: Name, cut: Cut, reps: seq<map<Name, Json>>)
    requires CutOk(x.s, DefNames(op.defs), cut) && DistinctNames(op.defs) && rv !in DefNames(op.defs)
    requires x.c == Ctx(x.s.schema.ps, x.c.w, Bind(op.defs, op.raw))
    ensures Serve(x.s, x.c.w, root, EntityRequest(op, rv, cut, reps)) ==
            Answer(Some(map["_entities" := Arr(RawEntities(x, cut, reps))]), 0)
  {
    EntityVariables(op, rv, cut, reps);
    var req := EntityRequest(op, rv, cut, reps);
    var c := Ctx(x.s.schema.ps, SubWorld(x.s, x.c.w, cut.subgraph), Bind(req.defs, req.vars));
    assert Accepts(x.s, req);
    assert req.vars[rv] == Arr(Objects(reps));
    forall i: nat | i < |reps|
      ensures ServeEntity(c, x.c.w, cut.typeName, cut.keyFields, cut.text, Objects(reps)[i]) == RawEntity(x, cut, reps[i])
    {
      EntityServed(x, op, rv, cut, reps, i);
    }
    var items := Objects(reps);
    assert seq(|items|, i requires 0 <= i < |items| => ServeEntity(c, x.c.w, cut.typeName, cut.keyFields, cut.text, items[i]))
        == RawEntities(x, cut, reps);
  }

  lemma {:induction false} ServedFaithfully(x: Run, root: Oid, ft: Fetch, op: Operation, rv: Name, ns: seq<FetchNode>)
    requires NodesOk(x.s, DefNames(op.defs), ns) && DistinctNames(op.defs) && rv !in DefNames(op.defs)
    requires x.c == Ctx(x.s.schema.ps, x.c.w, Bind(op.defs, op.raw))
    requires Served(ft, x.s, x.c.w, root)
    ensures Faithful(x, ft, op, rv, ns)
    decreases ns
  {
    forall n | n in ns ensures FaithfulCut(x, ft, op, rv, n.cut) {
      forall reps: seq<map<Name, Json>>
        ensures ft(EntityRequest(op, rv, n.cut, reps)) == Answer(Some(map["_entities" := Arr(RawEntities(x, n.cut, reps))]), 0)
      {
        CutServed(x, root, op, rv, n.cut, reps);
      }
      ServedFaithfully(x, root, ft, op, rv, n.cut.children);
    }
  }

  // ----- the theorem

  /** Sound tables, a fitting store and a query that keeps `rules`. */
  ghost predicate Hosted(rules: set<Rule>, x: Run, root: Oid, op: Operation, sels: seq<Sel>) {
    && Ready(x)
    && RootsOwned(x.s)
    && x.c == Ctx(x.s.schema.ps, x.c.w, Bind(op.defs, op.raw))
    && x.c.w.typeOf(root) == QUERY
    && Query(rules, x.s, op, sels)
  }

  /** The hypotheses of the end-to-end theorem, which asks for all rules. */
  ghost predicate Setting(rules: set<Rule>, x: Run, root: Oid, ft: Fetch, op: Operation, rv: Name, sels: seq<Sel>) {
    && Hosted(rules, x, root, op, sels)
    && rv !in DefNames(op.defs)
    && Served(ft, x.s, x.c.w, root)
  }

  lemma {:induction false} KeysLeaves(x: Run)
    requires KeysIdentify(x)
    ensures KeysAreLeaves(x.s)
  {
    forall t, sg: nat, k | k in x.s.e.KeysOf(t, sg) ensures LeafKey(x.s, t, k) {
      assert KeyLeaf(x, t, k);
    }
  }

  /** The occurrences of one root field, as the planner receives them. */
  ghost predicate RootFields(x: Run, op: Operation, k: Name, fs: seq<Field>, owner: nat) {
    && fs != []
    && (forall f :: f in fs ==> f.Key() == k)
    && (forall f :: f in fs ==> f.name == fs[0].name && f.args == fs[0].args)
    && RootOwner(x.s.e, fs[0].name) == Some(owner)
    && (QUERY, fs[0].name) in x.s.schema.fieldTy && fs[0].name != TYPENAME
    && (forall f :: f in fs ==> Asked(x.s, owner, QUERY, f) && AskedField(x.s, owner, QUERY, f))
    && (forall f :: f in fs ==> FieldVars(f) <= DefNames(op.defs))
    && PairwiseMergeable(x.s.schema.ps, fs)
    && SingleCutFields(x.s, owner, fs)
  }

  lemma {:induction false} RootFieldsReady(x: Run, root: Oid, ft: Fetch, op: Operation, rv: Name, sels: seq<Sel>, k: Name)
    requires Setting(ALL, x, root, ft, op, rv, sels)
    requires k in Keys(Collect(x.s.schema.ps, QUERY, sels))
    ensures var gs := With(Collect(x.s.schema.ps, QUERY, sels), k);
            gs[0].name == TYPENAME || exists owner :: RootFields(x, op, k, gs, owner)
  {
    var gs := With(Collect(x.s.schema.ps, QUERY, sels), k);
    assert gs[0] in gs;
    if gs[0].name != TYPENAME {
      RootTyped(x, sels, gs[0]);
      var owner := RootOwner(x.s.e, gs[0].name).value;
      forall f | f in gs
        ensures f.name == gs[0].name && f.args == gs[0].args
        ensures Asked(x.s, owner, QUERY, f) && AskedField(x.s, owner, QUERY, f) && FieldVars(f) <= DefNames(op.defs)
      {
        RootFieldReady(x, op, sels, gs, f);
      }
      forall f, g | f in gs && g in gs ensures Mergeable(x.s.schema.ps, f, g) {
      }
      assert RootFields(x, op, k, gs, owner);
    }
  }

  lemma {:induction false} RootFieldReady(x: Run, op: Operation, sels: seq<Sel>, gs: seq<Field>, f: Field)
    requires Ready(x) && RootsOwned(x.s) && Query(ALL, x.s, op, sels)
    requires f in gs && gs[0].name != TYPENAME && gs == With(Collect(x.s.schema.ps, QUERY, sels), f.Key())
    ensures f.name == gs[0].name && f.args == gs[0].args && RootOwner(x.s.e, f.name).Some?
    ensures Asked(x.s, RootOwner(x.s.e, f.name).value, QUERY, f)
    ensures AskedField(x.s, RootOwner(x.s.e, f.name).value, QUERY, f) && FieldVars(f) <= DefNames(op.defs)
  {
    assert gs[0] in gs && Mergeable(x.s.schema.ps, f, gs[0]);
    CollectVars(x.s.schema.ps, QUERY, sels, f);
    RootTyped(x, sels, f);
    CleanCollect(x.s.schema.ps, QUERY, sels, f);
    assert RootSupported(ALL, x.s, gs);
    RootAsked(x, gs, f, RootOwner(x.s.e, f.name).value);
  }

  /** A root field is typed at the query root, even inside a fragment. */
  lemma {:induction false} RootTyped(x: Run, sels: seq<Sel>, f: Field)
    requires x.s.schema.Coherent() && x.s.schema.IsObject(QUERY) && Typed(x.s.schema, QUERY, sels)
    requires f in Collect(x.s.schema.ps, QUERY, sels)
    ensures RunTypedField(x.s.schema, QUERY, f)
  {
    TypedCollect(x.s.schema, QUERY, QUERY, sels, f);
  }

  lemma {:induction false} RootAsked(x: Run, gs: seq<Field>, f: Field, owner: nat)
    requires Ready(x) && RootsOwned(x.s) && RootSupported(ALL, x.s, gs) && f in gs
    requires RunTypedField(x.s.schema, QUERY, f) && !IsMeta(f.name) && CleanKey(f) && Clean(f.sels)
    requires RootOwner(x.s.e, f.name) == Some(owner)
    ensures Asked(x.s, owner, QUERY, f) && AskedField(x.s, owner, QUERY, f)
  {
    assert RootSelection(ALL, x.s, f);
  }

  lemma {:induction false} RootServed(x: Run, root: Oid, op: Operation, owner: nat, text: seq<Field>)
    requires WellFormedFields(x.s, owner, QUERY, text) && SameKeyMergeable(x.s.schema.ps, text)
    requires FieldsVars(text) <= DefNames(op.defs) && DistinctNames(op.defs)
    requires x.c == Ctx(x.s.schema.ps, x.c.w, Bind(op.defs, op.raw))
    ensures Serve(x.s, x.c.w, root, RootRequest(op, owner, text)) == Answer(Some(EvalObj(SubCtx(x, owner), root, text)), 0)
  {
    RootVariables(op, owner, text);
    var req := RootRequest(op, owner, text);
    var c := Ctx(x.s.schema.ps, SubWorld(x.s, x.c.w, owner), Bind(req.defs, req.vars));
    assert Accepts(x.s, req);
    RootEnv(op, FieldsVars(text));
    forall f | f in text ensures FieldVars(f) <= FieldsVars(text) {
      FieldsVarsMember(text, f);
    }
    EvalEnv(SubCtx(x, owner), c, root, text, FieldsVars(text));
  }

  lemma {:induction false} RootEnv(op: Operation, used: set<Name>)
    ensures AgreeOn(Bind(op.defs, op.raw), Bind(UsedDefs(op.defs, used), UsedValues(op.raw, used)), used)
  {
    forall x | x in used
      ensures Lookup(UsedDefs(op.defs, used), UsedValues(op.raw, used), x) == Lookup(op.defs, op.raw, x)
      ensures Lookup(op.defs, op.raw, x).Some? ==> x in DefNames(op.defs) && x in DefNames(UsedDefs(op.defs, used))
    {
      LookupUsed(op.defs, op.raw, used, x);
      if Lookup(op.defs, op.raw, x).Some? {
        LookupDeclared(op.defs, op.raw, x);
        LookupDeclared(UsedDefs(op.defs, used), UsedValues(op.raw, used), x);
      }
    }
  }

  lemma {:induction false} RootRun(x: Run, root: Oid, ft: Fetch, op: Operation, rv: Name, k: Name, fs: seq<Field>, owner: nat)
    requires fs != [] && RootOwner(x.s.e, fs[0].name) == Some(owner)
    requires ft(RootRequest(op, owner, PrintedAll(x.s.e, owner, fs))) ==
             Answer(Some(EvalObj(SubCtx(x, owner), root, PrintedAll(x.s.e, owner, fs))), 0)
    requires Faithful(x, ft, op, rv, FieldsNodes(x.s.e, owner, fs))
    requires Stable(x, Obj(EvalObj(SubCtx(x, owner), root, PrintedAll(x.s.e, owner, fs))), FieldsNodes(x.s.e, owner, fs))
    requires FieldsAnswered(x, owner, root, fs) && k in Keys(fs)
    ensures RunRoot(ft, x.s.e, op, rv, k, fs) ==
            Value(ApplyNodes(x, Obj(EvalObj(SubCtx(x, owner), root, PrintedAll(x.s.e, owner, fs))), FieldsNodes(x.s.e, owner, fs)).fields[k])
  {
    var data := Obj(EvalObj(SubCtx(x, owner), root, PrintedAll(x.s.e, owner, fs)));
    var ns := FieldsNodes(x.s.e, owner, fs);
    Refines(x, ft, op, rv, [data], ns);
    assert ApplyEach(x, [data], ns) == [ApplyNodes(x, data, ns)];
  }

  /** One root field, planned, fetched, resolved and merged, yields JSON
      that answers every occurrence of it. */
  lemma {:induction false} RootAnswered(x: Run, root: Oid, ft: Fetch, op: Operation, rv: Name, k: Name, fs: seq<Field>, owner: nat)
    requires Ready(x) && x.c == Ctx(x.s.schema.ps, x.c.w, Bind(op.defs, op.raw)) && x.c.w.typeOf(root) == QUERY
    requires DistinctNames(op.defs) && rv !in DefNames(op.defs)
    requires Served(ft, x.s, x.c.w, root)
    requires RootFields(x, op, k, fs, owner)
    ensures var r := RunRoot(ft, x.s.e, op, rv, k, fs);
            r.Value? && forall f :: f in fs ==> Answers(x.c, r.j, Resolve(x.c, root, f), f.sels)
  {
    RootFetched(x, root, ft, op, rv, k, fs, owner);
    StableFields(x, owner, root, fs);
    FieldsOk(x, owner, root, fs);
    assert fs[0] in fs && fs[0].Key() == k;
    RootRun(x, root, ft, op, rv, k, fs, owner);
    FieldsAnswer(x, root, fs, owner, k);
  }

  lemma {:induction false} RootFetched(x: Run, root: Oid, ft: Fetch, op: Operation, rv: Name, k: Name, fs: seq<Field>, owner: nat)
    requires Ready(x) && x.c == Ctx(x.s.schema.ps, x.c.w, Bind(op.defs, op.raw))
    requires DistinctNames(op.defs) && rv !in DefNames(op.defs) && Served(ft, x.s, x.c.w, root)
    requires RootFields(x, op, k, fs, owner)
    ensures ft(RootRequest(op, owner, PrintedAll(x.s.e, owner, fs))) ==
            Answer(Some(EvalObj(SubCtx(x, owner), root, PrintedAll(x.s.e, owner, fs))), 0)
    ensures Faithful(x, ft, op, rv, FieldsNodes(x.s.e, owner, fs))
  {
    KeysLeaves(x);
    FieldsValid(x.s, owner, QUERY, fs, DefNames(op.defs));
    RootServed(x, root, op, owner, PrintedAll(x.s.e, owner, fs));
    ServedFaithfully(x, root, ft, op, rv, FieldsNodes(x.s.e, owner, fs));
  }

  lemma FieldsAnswer(x: Run, root: Oid, fs: seq<Field>, owner: nat, k: Name)
    requires FieldsAnswered(x, owner, root, fs) && k in Keys(fs) && forall f :: f in fs ==> f.Key() == k
    ensures var j := ApplyNodes(x, Obj(EvalObj(SubCtx(x, owner), root, PrintedAll(x.s.e, owner, fs))), FieldsNodes(x.s.e, owner, fs));
            forall f :: f in fs ==> Answers(x.c, j.fields[k], Resolve(x.c, root, f), f.sels)
  {
    var j := ApplyNodes(x, Obj(EvalObj(SubCtx(x, owner), root, PrintedAll(x.s.e, owner, fs))), FieldsNodes(x.s.e, owner, fs));
    forall f | f in fs ensures Answers(x.c, j.fields[k], Resolve(x.c, root, f), f.sels) {
      assert AnswersField(x.c, j.fields, root, f);
    }
  }

  lemma {:induction false} RootProjected(x: Run, root: Oid, fs: seq<Field>, j: Json, k: Name, op: Operation, owner: nat)
    requires Ready(x) && x.c.w.typeOf(root) == QUERY && RootFields(x, op, k, fs, owner)
    requires forall f :: f in fs ==> Answers(x.c, j, Resolve(x.c, root, f), f.sels)
    ensures Project(x.s.schema, j, x.s.schema.fieldTy[(QUERY, fs[0].name)], Subs(fs)) ==
            Complete(x.c, Resolve(x.c, root, fs[0]), Subs(fs))
  {
    var v := Resolve(x.c, root, fs[0]);
    var r := x.s.schema.fieldTy[(QUERY, fs[0].name)];
    assert fs[0] in fs;
    forall f | f in fs ensures Resolve(x.c, root, f) == v && RunTyped(x.s.schema, r, f.sels) {
      assert Asked(x.s, owner, QUERY, f);
    }
    AnswersSubs(x.c, j, v, fs);
    RunTypedSubs(x.s.schema, r, fs);
    MergeSubs(x.s.schema.ps, fs);
    assert Conforms(x.s.schema, x.c.w, v, r);
    ProjectAnswers(x.c, x.s.schema, j, v, r, Subs(fs));
  }

  /** Federated execution preserves meaning: for every supergraph, store and
      supported query, planning, fetching from faithful subgraphs, resolving
      entities, merging and stitching give exactly the response of direct
      execution on the store. */
  lemma {:induction false} FederationPreservesMeaning(x: Run, root: Oid, ft: Fetch, op: Operation, rv: Name, sels: seq<Sel>)
    requires Setting(ALL, x, root, ft, op, rv, sels)
    ensures Obj(Execute(ft, x.s, op, rv, sels)) == Complete(x.c, RRef(root), sels)
  {
    var fs := Collect(x.s.schema.ps, QUERY, sels);
    forall k | k in Keys(fs)
      ensures ExecuteKey(ft, x.s, op, rv, fs, k) == Complete(x.c, Resolve(x.c, root, With(fs, k)[0]), Subs(With(fs, k)))
    {
      ExecutedKey(x, root, ft, op, rv, sels, k);
    }
    ExecutedAll(ft, x, root, op, rv, sels);
  }

  lemma {:induction false} ExecutedAll(ft: Fetch, x: Run, root: Oid, op: Operation, rv: Name, sels: seq<Sel>)
    requires x.c.ps == x.s.schema.ps && x.c.w.typeOf(root) == QUERY
    requires var fs := Collect(x.s.schema.ps, QUERY, sels);
             forall k :: k in Keys(fs) ==>
               ExecuteKey(ft, x.s, op, rv, fs, k) == Complete(x.c, Resolve(x.c, root, With(fs, k)[0]), Subs(With(fs, k)))
    ensures Obj(Execute(ft, x.s, op, rv, sels)) == Complete(x.c, RRef(root), sels)
  {
    assert Execute(ft, x.s, op, rv, sels) == EvalObj(x.c, root, Collect(x.s.schema.ps, QUERY, sels));
  }

  /** Against faithful subgraphs, resolving a planned root field never
      reports a merge walk that missed its objects. */
  lemma {:induction false} FaithfulConverges(x: Run, root: Oid, ft: Fetch, op: Operation, rv: Name, k: Name, fs: seq<Field>, owner: nat)
    requires Ready(x) && x.c == Ctx(x.s.schema.ps, x.c.w, Bind(op.defs, op.raw)) && x.c.w.typeOf(root) == QUERY
    requires DistinctNames(op.defs) && rv !in DefNames(op.defs)
    requires Served(ft, x.s, x.c.w, root)
    requires RootFields(x, op, k, fs, owner)
    ensures var data := Obj(EvalObj(SubCtx(x, owner), root, PrintedAll(x.s.e, owner, fs)));
            Converged(ResolveNodes(ft, op, rv, [data], FieldsNodes(x.s.e, owner, fs)).problems)
  {
    KeysLeaves(x);
    FieldsValid(x.s, owner, QUERY, fs, DefNames(op.defs));
    ServedFaithfully(x, root, ft, op, rv, FieldsNodes(x.s.e, owner, fs));
    StableFields(x, owner, root, fs);
    Refines(x, ft, op, rv, [Obj(EvalObj(SubCtx(x, owner), root, PrintedAll(x.s.e, owner, fs)))], FieldsNodes(x.s.e, owner, fs));
  }

  lemma {:induction false} ExecutedKey(x: Run, root: Oid, ft: Fetch, op: Operation, rv: Name, sels: seq<Sel>, k: Name)
    requires Setting(ALL, x, root, ft, op, rv, sels)
    requires k in Keys(Collect(x.s.schema.ps, QUERY, sels))
    ensures var fs := Collect(x.s.schema.ps, QUERY, sels);
            ExecuteKey(ft, x.s, op, rv, fs, k) == Complete(x.c, Resolve(x.c, root, With(fs, k)[0]), Subs(With(fs, k)))
  {
    var gs := With(Collect(x.s.schema.ps, QUERY, sels), k);
    RootFieldsReady(x, root, ft, op, rv, sels, k);
    if gs[0].name != TYPENAME {
      var owner :| RootFields(x, op, k, gs, owner);
      RootAnswered(x, root, ft, op, rv, k, gs, owner);
      RootProjected(x, root, gs, RunRoot(ft, x.s.e, op, rv, k, gs).j, k, op, owner);
    }
  }
}
