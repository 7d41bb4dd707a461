/** The gateway's run over a client document: every root field is planned
    from the document, its text posted, the fetch tree resolved in place and
    the result stitched. Proved equal to the specification of `EndToEnd` on
    the document with its spreads inlined, and so to direct execution. */
module Gateway {
  import opened Basics
  import opened GraphQl
  import opened Plan
  import opened PlanFacts
  import opened Exec
  import opened Federation
  import opened Resolver
  import opened Wire
  import opened EndToEnd
  import opened Executor
  import opened Replies
  import Subqueries
  import Serving
  import Totality
  import P = Planner

  // ----- inlining does not depend on the rank it is bounded by

  lemma {:induction false} FitsAbove(pl: P.Planner, r: nat, r': nat, sels: seq<P.DocSel>)
    requires pl.Fits(r, sels) && r <= r'
    ensures pl.Fits(r', sels) && pl.Expand(r', sels) == pl.Expand(r, sels)
    ensures Totality.Defined(pl, r', sels) <==> Totality.Defined(pl, r, sels)
    decreases sels
  {
    forall i | 0 <= i < |sels|
      ensures P.WithinSel(pl.doc, pl.rank, r', sels[i]) && pl.ExpandSel(r', sels[i]) == pl.ExpandSel(r, sels[i])
      ensures Totality.DefinedSel(pl, r', sels[i]) <==> Totality.DefinedSel(pl, r, sels[i])
    {
      SelFitsAbove(pl, r, r', sels[i]);
    }
  }

  lemma {:induction false} SelFitsAbove(pl: P.Planner, r: nat, r': nat, x: P.DocSel)
    requires P.Acyclic(pl.doc, pl.rank) && P.WithinSel(pl.doc, pl.rank, r, x) && r <= r'
    ensures P.WithinSel(pl.doc, pl.rank, r', x) && pl.ExpandSel(r', x) == pl.ExpandSel(r, x)
    ensures Totality.DefinedSel(pl, r', x) <==> Totality.DefinedSel(pl, r, x)
    decreases x
  {
    match x
    case DF(f) => FitsAbove(pl, r, r', f.sels);
    case Inline(_, _, sub) => FitsAbove(pl, r, r', sub);
    case Named(_, _) =>
  }

  // ----- the root fields of a document

  /** The fields a document selects on type `t`, through its fragments. */
  function CollectDoc(pl: P.Planner, ghost r: nat, ps: Poss, t: Name, sels: seq<P.DocSel>): (fs: seq<P.DocField>)
    requires pl.Fits(r, sels)
    decreases r, sels
  {
    if sels == [] then []
    else
      assert forall i :: 0 <= i < |sels[1..]| ==> sels[1..][i] == sels[i + 1];
      assert P.WithinSel(pl.doc, pl.rank, r, sels[0]);
      var rest := CollectDoc(pl, r, ps, t, sels[1..]);
      match sels[0]
      case DF(f) => [f] + rest
      case Inline(cond, _, sub) => if Applies(ps, t, cond) then CollectDoc(pl, r, ps, t, sub) + rest else rest
      case Named(n, _) =>
        if n in pl.doc && Applies(ps, t, pl.doc[n].cond)
        then CollectDoc(pl, pl.rank[n], ps, t, pl.doc[n].sels) + rest
        else rest
  }

  ghost predicate AllFit(pl: P.Planner, r: nat, fs: seq<P.DocField>) {
    forall i :: 0 <= i < |fs| ==> pl.Fits(r, fs[i].sels)
  }

  lemma {:induction false} ExpandAppend(pl: P.Planner, r: nat, a: seq<P.DocField>, b: seq<P.DocField>)
    requires AllFit(pl, r, a) && AllFit(pl, r, b)
    ensures AllFit(pl, r, a + b) && pl.ExpandFields(r, a + b) == pl.ExpandFields(r, a) + pl.ExpandFields(r, b)
  {
  }

  lemma {:induction false} AllFitAbove(pl: P.Planner, r: nat, r': nat, fs: seq<P.DocField>)
    requires AllFit(pl, r, fs) && r <= r'
    ensures AllFit(pl, r', fs) && pl.ExpandFields(r', fs) == pl.ExpandFields(r, fs)
  {
    forall i | 0 <= i < |fs| ensures pl.Fits(r', fs[i].sels) && pl.ExpandField(r', fs[i]) == pl.ExpandField(r, fs[i]) {
      FitsAbove(pl, r, r', fs[i].sels);
    }
  }

  lemma {:induction false} ExpandCons(pl: P.Planner, r: nat, sels: seq<P.DocSel>)
    requires pl.Fits(r, sels) && sels != []
    ensures pl.Fits(r, sels[1..]) && P.WithinSel(pl.doc, pl.rank, r, sels[0])
    ensures pl.Expand(r, sels)[0] == pl.ExpandSel(r, sels[0]) && pl.Expand(r, sels)[1..] == pl.Expand(r, sels[1..])
  {
    assert forall i :: 0 <= i < |sels[1..]| ==> sels[1..][i] == sels[i + 1];
  }

  /** Collecting from the document and inlining commute. */
  lemma {:induction false} CollectExpanded(pl: P.Planner, r: nat, ps: Poss, t: Name, sels: seq<P.DocSel>)
    requires pl.Fits(r, sels)
    ensures AllFit(pl, r, CollectDoc(pl, r, ps, t, sels))
    ensures pl.ExpandFields(r, CollectDoc(pl, r, ps, t, sels)) == Collect(ps, t, pl.Expand(r, sels))
    decreases r, sels
  {
    if sels != [] {
      ExpandCons(pl, r, sels);
      var rest := CollectDoc(pl, r, ps, t, sels[1..]);
      CollectExpanded(pl, r, ps, t, sels[1..]);
      match sels[0]
      case DF(f) => ExpandAppend(pl, r, [f], rest);
      case Inline(cond, _, sub) =>
        if Applies(ps, t, cond) {
          CollectExpanded(pl, r, ps, t, sub);
          ExpandAppend(pl, r, CollectDoc(pl, r, ps, t, sub), rest);
        }
      case Named(n, _) =>
        if n in pl.doc && Applies(ps, t, pl.doc[n].cond) {
          var inner := CollectDoc(pl, pl.rank[n], ps, t, pl.doc[n].sels);
          CollectExpanded(pl, pl.rank[n], ps, t, pl.doc[n].sels);
          AllFitAbove(pl, pl.rank[n], r, inner);
          ExpandAppend(pl, r, inner, rest);
        }
    }
  }

  /** Collected fields keep their fragments defined. */
  lemma {:induction false} CollectDefined(pl: P.Planner, r: nat, ps: Poss, t: Name, sels: seq<P.DocSel>)
    requires pl.Fits(r, sels) && Totality.Defined(pl, r, sels)
    ensures AllFit(pl, r, CollectDoc(pl, r, ps, t, sels))
    ensures forall f <- CollectDoc(pl, r, ps, t, sels) :: pl.Fits(r, f.sels) && Totality.Defined(pl, r, f.sels)
    decreases r, sels
  {
    CollectExpanded(pl, r, ps, t, sels);
    if sels != [] {
      ExpandCons(pl, r, sels);
      assert Totality.DefinedSel(pl, r, sels[0]);
      assert Totality.Defined(pl, r, sels[1..]);
      CollectDefined(pl, r, ps, t, sels[1..]);
      match sels[0]
      case DF(f) =>
      case Inline(cond, _, sub) =>
        if Applies(ps, t, cond) {
          CollectDefined(pl, r, ps, t, sub);
        }
      case Named(n, _) =>
        if Applies(ps, t, pl.doc[n].cond) {
          CollectDefined(pl, pl.rank[n], ps, t, pl.doc[n].sels);
          forall f | f in CollectDoc(pl, pl.rank[n], ps, t, pl.doc[n].sels)
            ensures pl.Fits(r, f.sels) && Totality.Defined(pl, r, f.sels)
          {
            FitsAbove(pl, pl.rank[n], r, f.sels);
          }
        }
    }
  }

  function DocKey(f: P.DocField): Name {
    if f.alias.Some? then f.alias.value else f.name
  }

  /** The fields that answer under response key `k`, in order. */
  function WithDoc(fs: seq<P.DocField>, k: Name): (gs: seq<P.DocField>)
    ensures forall g <- gs :: g in fs
  {
    if fs == [] then []
    else if DocKey(fs[0]) == k then [fs[0]] + WithDoc(fs[1..], k)
    else WithDoc(fs[1..], k)
  }

  lemma {:induction false} WithExpanded(pl: P.Planner, r: nat, fs: seq<P.DocField>, k: Name)
    requires AllFit(pl, r, fs)
    ensures AllFit(pl, r, WithDoc(fs, k))
    ensures pl.ExpandFields(r, WithDoc(fs, k)) == With(pl.ExpandFields(r, fs), k)
  {
    if fs != [] {
      assert AllFit(pl, r, fs[1..]) && pl.ExpandFields(r, fs)[1..] == pl.ExpandFields(r, fs[1..]);
      WithExpanded(pl, r, fs[1..], k);
      assert pl.ExpandFields(r, fs)[0].Key() == DocKey(fs[0]);
      if DocKey(fs[0]) == k {
        ExpandAppend(pl, r, [fs[0]], WithDoc(fs[1..], k));
        assert pl.ExpandFields(r, [fs[0]]) == [pl.ExpandField(r, fs[0])];
      }
    }
  }

  // ----- one root field

  /** The owner exists and everything below can be planned. */
  ghost predicate RootPlannable(pl: P.Planner, r: nat, fs: seq<P.DocField>)
    requires fs != [] && AllFit(pl, r, fs)
  {
    && RootOwner(pl.e, fs[0].name).Some?
    && forall i :: 0 <= i < |fs| ==> pl.CanPlan(r, RootOwner(pl.e, fs[0].name).value, fs[i].ty, fs[i].sels)
  }

  /** The reply of the root field's owner. */
  ghost function RootPosted(post: Post, pl: P.Planner, r: nat, op: Operation, fs: seq<P.DocField>): Reply
    requires fs != [] && AllFit(pl, r, fs) && RootPlannable(pl, r, fs)
  {
    ReplyFor(Via(post), pl.e, op, pl.ExpandFields(r, fs), RootOwner(pl.e, fs[0].name).value)
  }

  /** A member the reply's data has is the value, with all fetches below it
      merged, whatever errors came with it; a value otherwise is null. */
  ghost predicate HoldsMember(post: Post, pl: P.Planner, r: nat, op: Operation, rv: Name, k: Name, fs: seq<P.DocField>,
                              data: map<Name, Json>, v: RootValue)
    requires fs != [] && AllFit(pl, r, fs) && RootPlannable(pl, r, fs)
  {
    var nodes := FieldsNodes(pl.e, RootOwner(pl.e, fs[0].name).value, pl.ExpandFields(r, fs));
    var out := ResolveNodes(Via(post), op, rv, [Obj(data)], nodes).values;
    && |out| == 1 && out[0].Obj?
    && (k in data ==> k in out[0].fields && v == Value(out[0].fields[k]))
    && (k !in data && v.Value? ==> v == Value(Null))
  }

  /** `run_root`: plans a root field from the document, posts its text,
      resolves the children in place and extracts the field's value. */
  method RunRootField(post: Post, pl: P.Planner, ghost r: nat, op: Operation, ghost rv: Name, k: Name, fs: seq<P.DocField>)
    returns (v: RootValue)
    requires fs != [] && AllFit(pl, r, fs) && IsRepsVar(op, rv)
    ensures v == if RootPlannable(pl, r, fs) then RunRoot(Via(post), pl.e, op, rv, k, pl.ExpandFields(r, fs)) else FieldError
    ensures v.FieldError? <==> !RootPlannable(pl, r, fs) || Missing(RootPosted(post, pl, r, op, fs), k)
    ensures RootPlannable(pl, r, fs) && RootPosted(post, pl, r, op, fs).Answer? ==>
              HoldsMember(post, pl, r, op, rv, k, fs, ReplyData(RootPosted(post, pl, r, op, fs)), v)
  {
    if RootPlannable(pl, r, fs) {
      RootValueExact(Via(post), pl.e, op, rv, k, pl.ExpandFields(r, fs));
    }
    var plan := pl.PlanRoot(r, QUERY, fs[0].name, fs);
    if plan.None? {
      return FieldError;
    }
    var RootPlan(owner, text, vars, children) := plan.value;
    ghost var gs := pl.ExpandFields(r, fs);
    var req := WireRequest(owner, None, text, UsedDefs(op.defs, vars), UsedValues(op.raw, vars));
    assert req == OnWire(RootRequest(op, owner, PrintedAll(pl.e, owner, gs)));
    match post(req)
    case Failed => v := FieldError;
    case Answer(data, errors) =>
      var values := new Json[1](_ => Obj(if data.Some? then data.value else map[]));
      assert values[..] == [Obj(if data.Some? then data.value else map[])];
      var _, _ := ResolveChildren(post, op, rv, values, children, FieldsNodes(pl.e, owner, gs));
      v := if values[0].Obj? && k in values[0].fields then Value(values[0].fields[k])
           else if errors > 0 then FieldError
           else Value(Null);
  }

  // ----- a whole document

  /** Every root field of the document can be planned. */
  ghost predicate AllPlannable(pl: P.Planner, r: nat, fs: seq<P.DocField>)
    requires AllFit(pl, r, fs)
  {
    forall k :: PlannableUnder(pl, r, fs, k)
  }

  ghost predicate PlannableUnder(pl: P.Planner, r: nat, fs: seq<P.DocField>, k: Name)
    requires AllFit(pl, r, fs)
  {
    WithExpanded(pl, r, fs, k);
    WithDoc(fs, k) != [] && WithDoc(fs, k)[0].name != TYPENAME ==> RootPlannable(pl, r, WithDoc(fs, k))
  }

  /** One response key: the root field's value, stitched. */
  method AnswerKey(post: Post, pl: P.Planner, ghost r: nat, s: Sup, op: Operation, ghost rv: Name, fs: seq<P.DocField>, k: Name)
    returns (j: Json)
    requires pl.e == s.e && AllFit(pl, r, fs) && AllPlannable(pl, r, fs) && IsRepsVar(op, rv)
    requires k in Keys(pl.ExpandFields(r, fs))
    ensures Right(Via(post), s, op, rv, pl.ExpandFields(r, fs), k, j)
  {
    WithExpanded(pl, r, fs, k);
    assert PlannableUnder(pl, r, fs, k);
    var gs := WithDoc(fs, k);
    if gs[0].name == TYPENAME {
      return Str(QUERY);
    }
    var v := RunRootField(post, pl, r, op, rv, k, gs);
    if v.FieldError? || (QUERY, gs[0].name) !in s.schema.fieldTy {
      return Null;
    }
    j := Project(s.schema, v.j, s.schema.fieldTy[(QUERY, gs[0].name)], Subs(pl.ExpandFields(r, gs)));
  }

  /** `data` holds the specified value of the first `i` fields' keys. */
  ghost predicate Answered(ft: Fetch, s: Sup, op: Operation, rv: Name, gs: seq<Field>, i: nat, data: map<Name, Json>)
    requires i <= |gs|
  {
    && data.Keys == Keys(gs[..i])
    && forall k :: k in data ==> Right(ft, s, op, rv, gs, k, data[k])
  }

  /** `j` is what the specification says under `k`. */
  ghost predicate Right(ft: Fetch, s: Sup, op: Operation, rv: Name, gs: seq<Field>, k: Name, j: Json) {
    k in Keys(gs) && j == ExecuteKey(ft, s, op, rv, gs, k)
  }

  lemma {:induction false} KeysNext(gs: seq<Field>, i: nat)
    requires i < |gs|
    ensures gs[i].Key() in Keys(gs) && Keys(gs[..i + 1]) == Keys(gs[..i]) + {gs[i].Key()}
  {
    assert gs[..i + 1] == gs[..i] + [gs[i]] && gs[i] in gs;
  }

  lemma {:induction false} AnsweredAlready(ft: Fetch, s: Sup, op: Operation, rv: Name, gs: seq<Field>, i: nat, data: map<Name, Json>)
    requires i < |gs| && Answered(ft, s, op, rv, gs, i, data) && gs[i].Key() in data
    ensures Answered(ft, s, op, rv, gs, i + 1, data)
  {
    KeysNext(gs, i);
  }

  lemma {:induction false} AnsweredNow(ft: Fetch, s: Sup, op: Operation, rv: Name, gs: seq<Field>, i: nat, data: map<Name, Json>, j: Json)
    requires i < |gs| && Answered(ft, s, op, rv, gs, i, data)
    requires Right(ft, s, op, rv, gs, gs[i].Key(), j)
    ensures Answered(ft, s, op, rv, gs, i + 1, data[gs[i].Key() := j])
  {
    KeysNext(gs, i);
    Grown(data, gs[i].Key(), j);
    var now := data[gs[i].Key() := j];
    forall k | k in now ensures Right(ft, s, op, rv, gs, k, now[k]) {
      if k != gs[i].Key() {
        assert Right(ft, s, op, rv, gs, k, data[k]);
      }
    }
  }

  lemma Grown(data: map<Name, Json>, k: Name, j: Json)
    ensures data[k := j].Keys == data.Keys + {k}
  {
  }

  lemma {:induction false} AnsweredAll(ft: Fetch, s: Sup, op: Operation, rv: Name, sels: seq<Sel>, data: map<Name, Json>)
    requires var gs := Collect(s.schema.ps, QUERY, sels); Answered(ft, s, op, rv, gs, |gs|, data)
    ensures data == Execute(ft, s, op, rv, sels)
  {
    var gs := Collect(s.schema.ps, QUERY, sels);
    assert gs[..|gs|] == gs;
    forall k | k in data ensures k in Keys(gs) && data[k] == ExecuteKey(ft, s, op, rv, gs, k) {
      assert Right(ft, s, op, rv, gs, k, data[k]);
    }
  }

  /** Every response key, answered once. */
  method RunFields(post: Post, pl: P.Planner, ghost r: nat, s: Sup, op: Operation, ghost rv: Name, fs: seq<P.DocField>, ghost gs: seq<Field>)
    returns (data: map<Name, Json>)
    requires pl.e == s.e && AllFit(pl, r, fs) && gs == pl.ExpandFields(r, fs) && AllPlannable(pl, r, fs) && IsRepsVar(op, rv)
    ensures Answered(Via(post), s, op, rv, gs, |gs|, data)
  {
    data := map[];
    assert Keys(gs[..0]) == {};
    for i := 0 to |fs|
      invariant Answered(Via(post), s, op, rv, gs, i, data)
    {
      var k := DocKey(fs[i]);
      KeysNext(gs, i);
      if k in data {
        AnsweredAlready(Via(post), s, op, rv, gs, i, data);
      } else {
        var j := AnswerKey(post, pl, r, s, op, rv, fs, k);
        AnsweredNow(Via(post), s, op, rv, gs, i, data, j);
        data := data[k := j];
      }
    }
  }

  /** Runs a document whose root fields can be planned. */
  method RunDocument(post: Post, pl: P.Planner, ghost r: nat, s: Sup, op: Operation, ghost rv: Name, sels: seq<P.DocSel>)
    returns (data: map<Name, Json>)
    requires pl.e == s.e && pl.Fits(r, sels) && IsRepsVar(op, rv)
    requires AllFit(pl, r, CollectDoc(pl, r, s.schema.ps, QUERY, sels)) && AllPlannable(pl, r, CollectDoc(pl, r, s.schema.ps, QUERY, sels))
    ensures data == Execute(Via(post), s, op, rv, pl.Expand(r, sels))
  {
    CollectExpanded(pl, r, s.schema.ps, QUERY, sels);
    var fs := CollectDoc(pl, r, s.schema.ps, QUERY, sels);
    data := RunFields(post, pl, r, s, op, rv, fs, pl.ExpandFields(r, fs));
    AnsweredAll(Via(post), s, op, rv, pl.Expand(r, sels), data);
  }

  // ----- faithful subgraphs on the wire

  /** Every posted text is read and served from one store. */
  ghost predicate Serves(post: Post, s: Sup, w: World, root: Oid) {
    forall req :: post(req) == Serving.ServeText(s, w, root, req)
  }

  lemma {:induction false} ServesRequests(post: Post, s: Sup, w: World, root: Oid)
    requires Serves(post, s, w, root)
    ensures Served(Via(post), s, w, root)
  {
    forall req ensures Via(post)(req) == Serve(s, w, root, req) {
      Serving.ServedText(s, w, root, req);
    }
  }

  /** Supported selections stay on types their subgraphs define. */
  lemma {:induction false} SplitsDefined(s: Sup, sg: nat, p: Name, sels: seq<Sel>)
    requires Sound(s) && s.Defines(sg, p) && Typed(s.schema, p, sels) && SplitOk(s, sg, p, sels)
    ensures Totality.TypesDefined(s, sg, p, sels)
    decreases DepthOf(sels), 1
  {
    forall i | 0 <= i < |sels| ensures Totality.TypesDefinedSel(s, sg, p, sels[i]) {
      DepthMember(sels, sels[i]);
      assert TypedSel(s.schema, p, sels[i]) && SplitSel(s, sg, p, sels[i]);
      SelDefined(s, sg, p, sels[i]);
    }
  }

  lemma {:induction false} SelDefined(s: Sup, sg: nat, p: Name, x: Sel)
    requires Sound(s) && s.Defines(sg, p) && TypedSel(s.schema, p, x) && SplitSel(s, sg, p, x)
    ensures Totality.TypesDefinedSel(s, sg, p, x)
    decreases Depth(x), 0
  {
    match x
    case F(f) =>
      assert Depth(x) == DepthF(f);
      if f.sels != [] {
        Totality.SoundHop(s, sg, p, f);
        SplitsDefined(s, if s.e.Local(sg, p, f) then sg else s.e.Target(p, f), f.ty, f.sels);
      }
    case Frag(cond, _, sub) =>
      assert Depth(x) == 1 + DepthOf(sub);
      SplitsDefined(s, sg, cond, sub);
  }

  /** A supported query over defined fragments can be planned. */
  lemma {:induction false} QueryPlannable(x: Run, root: Oid, ft: Fetch, pl: P.Planner, r: nat, op: Operation, rv: Name, sels: seq<P.DocSel>)
    requires pl.e == x.s.e && pl.Fits(r, sels) && Totality.Defined(pl, r, sels)
    requires Setting(ALL, x, root, ft, op, rv, pl.Expand(r, sels))
    ensures var fs := CollectDoc(pl, r, x.s.schema.ps, QUERY, sels);
            AllFit(pl, r, fs) && AllPlannable(pl, r, fs)
  {
    var fs := CollectDoc(pl, r, x.s.schema.ps, QUERY, sels);
    CollectExpanded(pl, r, x.s.schema.ps, QUERY, sels);
    CollectDefined(pl, r, x.s.schema.ps, QUERY, sels);
    forall k ensures PlannableUnder(pl, r, fs, k) {
      WithExpanded(pl, r, fs, k);
      if WithDoc(fs, k) != [] && WithDoc(fs, k)[0].name != TYPENAME {
        KeyPlannable(x, root, ft, pl, r, op, rv, sels, k);
      }
    }
  }

  lemma {:induction false} KeyPlannable(x: Run, root: Oid, ft: Fetch, pl: P.Planner, r: nat, op: Operation, rv: Name, sels: seq<P.DocSel>, k: Name)
    requires pl.e == x.s.e && pl.Fits(r, sels) && Totality.Defined(pl, r, sels)
    requires Setting(ALL, x, root, ft, op, rv, pl.Expand(r, sels))
    requires var gs := WithDoc(CollectDoc(pl, r, x.s.schema.ps, QUERY, sels), k);
             gs != [] && gs[0].name != TYPENAME && AllFit(pl, r, gs)
    ensures RootPlannable(pl, r, WithDoc(CollectDoc(pl, r, x.s.schema.ps, QUERY, sels), k))
  {
    var fs := CollectDoc(pl, r, x.s.schema.ps, QUERY, sels);
    var gs := WithDoc(fs, k);
    CollectExpanded(pl, r, x.s.schema.ps, QUERY, sels);
    CollectDefined(pl, r, x.s.schema.ps, QUERY, sels);
    WithExpanded(pl, r, fs, k);
    var hs := pl.ExpandFields(r, gs);
    assert hs[0] in hs && hs[0].Key() == k;
    RootFieldsReady(x, root, ft, op, rv, pl.Expand(r, sels), k);
    var owner :| RootFields(x, op, k, hs, owner);
    forall i | 0 <= i < |gs| ensures pl.CanPlan(r, owner, gs[i].ty, gs[i].sels) {
      assert gs[i] in gs && hs[i] in hs && Subqueries.AskedField(x.s, owner, QUERY, hs[i]);
      FieldPlannable(x.s, pl, r, owner, gs[i]);
    }
  }

  lemma {:induction false} FieldPlannable(s: Sup, pl: P.Planner, r: nat, owner: nat, f: P.DocField)
    requires Sound(s) && pl.e == s.e && pl.Fits(r, f.sels) && Totality.Defined(pl, r, f.sels)
    requires Subqueries.AskedField(s, owner, QUERY, pl.ExpandField(r, f))
    ensures pl.CanPlan(r, owner, f.ty, f.sels)
  {
    if f.sels != [] {
      var sels := pl.Expand(r, f.sels);
      SplitsDefined(s, owner, f.ty, sels);
      Totality.SoundPlans(s, owner, f.ty, sels);
      Totality.PlansExactly(pl, r, owner, f.ty, f.sels);
    }
  }

  /** The gateway answers documents as one server holding the whole store
      would: planned from the document as text, posted to subgraphs that
      read and serve that text, resolved and merged in place, stitched. */
  method AnswerDocument(post: Post, pl: P.Planner, ghost r: nat, ghost x: Run, s: Sup, ghost root: Oid, op: Operation, sels: seq<P.DocSel>)
    returns (data: map<Name, Json>)
    requires s == x.s && pl.e == s.e && pl.Fits(r, sels) && Totality.Defined(pl, r, sels)
    requires Serves(post, s, x.c.w, root) && Hosted(ALL, x, root, op, pl.Expand(r, sels))
    ensures Obj(data) == Complete(x.c, RRef(root), pl.Expand(r, sels))
  {
    var rv, rounds := RepsVarName(op);
    assert ChosenAt(op, rv, rounds);
    ServesRequests(post, s, x.c.w, root);
    QueryPlannable(x, root, Via(post), pl, r, op, rv, sels);
    data := RunDocument(post, pl, r, s, op, rv, sels);
    FederationPreservesMeaning(x, root, Via(post), op, rv, pl.Expand(r, sels));
  }
}
