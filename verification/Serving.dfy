/** What goes over the wire is text: a subgraph reads the tokens it is sent
    back into selections, and what it answers depends on nothing the text
    does not show. */
module Serving {
  import opened Basics
  import opened GraphQl
  import opened Plan
  import opened PlanFacts
  import opened Printing
  import opened Federation
  import opened Subqueries
  import opened Resolver
  import opened Wire
  import opened EndToEnd
  import Exec
  import Variables

  // ----- selections without their types

  function EraseFields(fs: seq<Field>): (gs: seq<Field>)
    ensures |gs| == |fs|
  {
    if fs == [] then [] else [EraseField(fs[0])] + EraseFields(fs[1..])
  }

  lemma {:induction false} EraseAppend(a: seq<Sel>, b: seq<Sel>)
    ensures Erase(a + b) == Erase(a) + Erase(b)
  {
    if a == [] {
      assert a + b == b;
    } else {
      assert (a + b)[1..] == a[1..] + b;
      EraseAppend(a[1..], b);
    }
  }

  lemma {:induction false} EraseFieldsAppend(a: seq<Field>, b: seq<Field>)
    ensures EraseFields(a + b) == EraseFields(a) + EraseFields(b)
  {
    if a == [] {
      assert a + b == b;
    } else {
      assert (a + b)[1..] == a[1..] + b;
      EraseFieldsAppend(a[1..], b);
    }
  }

  lemma {:induction false} EraseMember(ss: seq<Sel>, x: Sel)
    ensures x in ss ==> EraseSel(x) in Erase(ss)
    ensures x in Erase(ss) ==> exists y :: y in ss && EraseSel(y) == x
  {
    if ss != [] {
      EraseMember(ss[1..], x);
      if x in Erase(ss) && x == EraseSel(ss[0]) {
        assert ss[0] in ss;
      }
    }
  }

  lemma {:induction false} EraseFieldsMember(fs: seq<Field>, f: Field)
    ensures f in fs ==> EraseField(f) in EraseFields(fs)
    ensures f in EraseFields(fs) ==> exists g :: g in fs && EraseField(g) == f
  {
    if fs != [] {
      EraseFieldsMember(fs[1..], f);
      if f in EraseFields(fs) && f == EraseField(fs[0]) {
        assert fs[0] in fs;
      }
    }
  }

  lemma {:induction false} EraseEmpty(ss: seq<Sel>)
    ensures Erase(ss) == [] <==> ss == []
  {
  }

  // ----- execution does not see the types

  lemma {:induction false} CollectErased(ps: Poss, t: Name, ss: seq<Sel>)
    ensures Collect(ps, t, Erase(ss)) == EraseFields(Collect(ps, t, ss))
    decreases DepthOf(ss), |ss|
  {
    if ss != [] {
      assert Erase(ss)[1..] == Erase(ss[1..]) && Erase(ss)[0] == EraseSel(ss[0]);
      CollectErased(ps, t, ss[1..]);
      match ss[0]
      case F(f) => assert EraseFields([f] + Collect(ps, t, ss[1..])) == [EraseField(f)] + EraseFields(Collect(ps, t, ss[1..]));
      case Frag(cond, _, sub) =>
        assert Depth(ss[0]) == 1 + DepthOf(sub);
        CollectErased(ps, t, sub);
        EraseFieldsAppend(Collect(ps, t, sub), Collect(ps, t, ss[1..]));
    }
  }

  lemma {:induction false} WithErased(fs: seq<Field>, k: Name)
    ensures With(EraseFields(fs), k) == EraseFields(With(fs, k))
    ensures k in Keys(EraseFields(fs)) <==> k in Keys(fs)
  {
    if fs != [] {
      WithErased(fs[1..], k);
      assert EraseFields(fs)[1..] == EraseFields(fs[1..]) && EraseFields(fs)[0].Key() == fs[0].Key();
      assert fs == [fs[0]] + fs[1..] && EraseFields(fs) == [EraseField(fs[0])] + EraseFields(fs[1..]);
      assert Keys(fs) == {fs[0].Key()} + Keys(fs[1..]);
      assert Keys(EraseFields(fs)) == {fs[0].Key()} + Keys(EraseFields(fs[1..]));
      if fs[0].Key() == k {
        assert With(fs, k)[1..] == With(fs[1..], k);
      }
    }
  }

  lemma {:induction false} SubsErased(fs: seq<Field>)
    ensures Subs(EraseFields(fs)) == Erase(Subs(fs))
  {
    if fs != [] {
      SubsErased(fs[1..]);
      assert EraseFields(fs)[1..] == EraseFields(fs[1..]);
      EraseAppend(fs[0].sels, Subs(fs[1..]));
    }
  }

  lemma {:induction false} CompleteErased(c: Ctx, v: RVal, ss: seq<Sel>)
    ensures Complete(c, v, Erase(ss)) == Complete(c, v, ss)
    decreases DepthOf(ss), 2, v
  {
    match v
    case RRef(o) =>
      CollectErased(c.ps, c.w.typeOf(o), ss);
      EvalErased(c, o, Collect(c.ps, c.w.typeOf(o), ss));
    case RList(items) =>
      forall i | 0 <= i < |items| ensures Complete(c, items[i], Erase(ss)) == Complete(c, items[i], ss) {
        CompleteErased(c, items[i], ss);
      }
    case _ =>
  }

  lemma {:induction false} EvalErased(c: Ctx, o: Oid, fs: seq<Field>)
    ensures EvalObj(c, o, EraseFields(fs)) == EvalObj(c, o, fs)
    decreases FieldsDepth(fs), 1
  {
    forall k ensures k in Keys(EraseFields(fs)) <==> k in Keys(fs) {
      WithErased(fs, k);
    }
    forall k | k in Keys(fs) ensures EvalObj(c, o, EraseFields(fs))[k] == EvalObj(c, o, fs)[k] {
      var gs := With(fs, k);
      WithErased(fs, k);
      SubsErased(gs);
      assert EraseFields(gs)[0] == EraseField(gs[0]);
      CompleteErased(c, Resolve(c, o, gs[0]), Subs(gs));
    }
  }

  // ----- nor does validation

  lemma {:induction false} WellFormedErased(s: Sup, sg: nat, p: Name, ss: seq<Sel>)
    ensures WellFormed(s, sg, p, Erase(ss)) <==> WellFormed(s, sg, p, ss)
    decreases DepthOf(ss), 1
  {
    forall x | x in ss
      ensures EraseSel(x) in Erase(ss)
      ensures WellFormedSel(s, sg, p, EraseSel(x)) <==> WellFormedSel(s, sg, p, x)
    {
      EraseMember(ss, x);
      DepthMember(ss, x);
      SelErased(s, sg, p, x);
    }
    forall y | y in Erase(ss) ensures exists x :: x in ss && EraseSel(x) == y {
      EraseMember(ss, y);
    }
  }

  lemma {:induction false} SelErased(s: Sup, sg: nat, p: Name, x: Sel)
    ensures WellFormedSel(s, sg, p, EraseSel(x)) <==> WellFormedSel(s, sg, p, x)
    decreases Depth(x), 0
  {
    match x
    case F(f) =>
      assert Depth(x) == DepthF(f);
      EraseEmpty(f.sels);
      if s.Declares(sg, p, f.name) {
        WellFormedErased(s, sg, s.decl[sg][(p, f.name)], f.sels);
      }
    case Frag(cond, _, sub) => WellFormedErased(s, sg, cond, sub);
  }

  /** Two fields merge with their types exactly when they do without. */
  ghost predicate PairAgrees(ps: Poss, f: Field, g: Field) {
    Mergeable(ps, EraseField(f), EraseField(g)) <==> Mergeable(ps, f, g)
  }

  ghost predicate PairsAgree(ps: Poss, ss: seq<Sel>) {
    forall t, f, g :: f in Collect(ps, t, ss) && g in Collect(ps, t, ss) ==> PairAgrees(ps, f, g)
  }

  lemma {:induction false} MergeErased(ps: Poss, ss: seq<Sel>)
    ensures MergeOk(ps, Erase(ss)) <==> MergeOk(ps, ss)
    decreases DepthOf(ss), 1
  {
    forall t, f, g | f in Collect(ps, t, ss) && g in Collect(ps, t, ss) ensures PairAgrees(ps, f, g) {
      FieldsDepthMember(Collect(ps, t, ss), f);
      FieldsDepthMember(Collect(ps, t, ss), g);
      PairErased(ps, f, g);
    }
    if MergeOk(ps, ss) {
      StillMerges(ps, ss);
    }
    if MergeOk(ps, Erase(ss)) {
      MergedBefore(ps, ss);
    }
  }

  lemma {:induction false} StillMerges(ps: Poss, ss: seq<Sel>)
    requires PairsAgree(ps, ss) && MergeOk(ps, ss)
    ensures MergeOk(ps, Erase(ss))
  {
    forall t, f, g | f in Collect(ps, t, Erase(ss)) && g in Collect(ps, t, Erase(ss)) && f.Key() == g.Key()
      ensures Mergeable(ps, f, g)
    {
      CollectErased(ps, t, ss);
      EraseFieldsMember(Collect(ps, t, ss), f);
      EraseFieldsMember(Collect(ps, t, ss), g);
      var f0 :| f0 in Collect(ps, t, ss) && EraseField(f0) == f;
      var g0 :| g0 in Collect(ps, t, ss) && EraseField(g0) == g;
      assert f0.Key() == g0.Key() && PairAgrees(ps, f0, g0);
    }
  }

  lemma {:induction false} MergedBefore(ps: Poss, ss: seq<Sel>)
    requires PairsAgree(ps, ss) && MergeOk(ps, Erase(ss))
    ensures MergeOk(ps, ss)
  {
    forall t, f, g | f in Collect(ps, t, ss) && g in Collect(ps, t, ss) && f.Key() == g.Key()
      ensures Mergeable(ps, f, g)
    {
      CollectErased(ps, t, ss);
      EraseFieldsMember(Collect(ps, t, ss), f);
      EraseFieldsMember(Collect(ps, t, ss), g);
      assert EraseField(f).Key() == EraseField(g).Key() && PairAgrees(ps, f, g);
    }
  }

  lemma {:induction false} PairErased(ps: Poss, f: Field, g: Field)
    ensures Mergeable(ps, EraseField(f), EraseField(g)) <==> Mergeable(ps, f, g)
    decreases Max(DepthF(f), DepthF(g)), 0
  {
    DepthAppend(f.sels, g.sels);
    EraseAppend(f.sels, g.sels);
    MergeErased(ps, f.sels + g.sels);
  }

  lemma {:induction false} VarsErased(ss: seq<Sel>)
    ensures SelsVars(Erase(ss)) == SelsVars(ss)
    decreases DepthOf(ss), 2, |ss|
  {
    if ss != [] {
      assert Erase(ss)[1..] == Erase(ss[1..]) && Erase(ss)[0] == EraseSel(ss[0]);
      VarsErased(ss[1..]);
      assert Depth(ss[0]) <= DepthOf(ss) && (ss[0].F? ==> Depth(ss[0]) == DepthF(ss[0].f));
      match ss[0]
      case F(f) => FieldVarsErased(f);
      case Frag(_, _, sub) => VarsErased(sub);
    }
  }

  lemma {:induction false} FieldVarsErased(f: Field)
    ensures FieldVars(EraseField(f)) == FieldVars(f)
    decreases DepthF(f), 0
  {
    VarsErased(f.sels);
  }

  lemma {:induction false} FieldsVarsErased(fs: seq<Field>)
    ensures FieldsVars(EraseFields(fs)) == FieldsVars(fs)
  {
    if fs != [] {
      FieldVarsErased(fs[0]);
      FieldsVarsErased(fs[1..]);
      assert EraseFields(fs)[1..] == EraseFields(fs[1..]);
    }
  }

  lemma {:induction false} FieldsErased(s: Sup, sg: nat, t: Name, fs: seq<Field>)
    ensures WellFormedFields(s, sg, t, EraseFields(fs)) <==> WellFormedFields(s, sg, t, fs)
    ensures SameKeyMergeable(s.schema.ps, EraseFields(fs)) <==> SameKeyMergeable(s.schema.ps, fs)
  {
    forall f | f in fs
      ensures EraseField(f) in EraseFields(fs)
      ensures WellFormedSel(s, sg, t, F(EraseField(f))) <==> WellFormedSel(s, sg, t, F(f))
    {
      EraseFieldsMember(fs, f);
      SelErased(s, sg, t, F(f));
      assert EraseSel(F(f)) == F(EraseField(f));
    }
    forall f, g | f in fs && g in fs
      ensures Mergeable(s.schema.ps, EraseField(f), EraseField(g)) <==> Mergeable(s.schema.ps, f, g)
    {
      PairErased(s.schema.ps, f, g);
    }
    forall f | f in EraseFields(fs) ensures exists g :: g in fs && EraseField(g) == f {
      EraseFieldsMember(fs, f);
    }
    if SameKeyMergeable(s.schema.ps, fs) {
      forall f, g | f in EraseFields(fs) && g in EraseFields(fs) && f.Key() == g.Key() ensures Mergeable(s.schema.ps, f, g) {
        var f0 :| f0 in fs && EraseField(f0) == f;
        var g0 :| g0 in fs && EraseField(g0) == g;
        assert f0.Key() == g0.Key();
      }
    }
  }

  /** A subgraph answers by what the text shows. */
  lemma {:induction false} ServeErased(s: Sup, w: World, root: Oid, req: Request)
    ensures Serve(s, w, root, req.(text := EraseFields(req.text))) == Serve(s, w, root, req)
  {
    var erased := req.(text := EraseFields(req.text));
    FieldsErased(s, req.subgraph, if req.reps.Some? then req.reps.value.0 else QUERY, req.text);
    FieldsVarsErased(req.text);
    assert Accepts(s, erased) <==> Accepts(s, req);
    var c := Ctx(s.schema.ps, Exec.SubWorld(s, w, req.subgraph), Variables.Bind(req.defs, req.vars));
    EvalErased(c, root, req.text);
    if req.reps.Some? && req.reps.value.1 in req.vars && req.vars[req.reps.value.1].Arr? {
      var (t, rv) := req.reps.value;
      var reps := req.vars[rv].items;
      var ks := s.e.KeysOf(t, req.subgraph);
      forall i | 0 <= i < |reps|
        ensures ServeEntity(c, w, t, ks, erased.text, reps[i]) == ServeEntity(c, w, t, ks, req.text, reps[i])
      {
        EntityErased(c, w, t, ks, req.text, reps[i]);
      }
      assert seq(|reps|, i requires 0 <= i < |reps| => ServeEntity(c, w, t, ks, erased.text, reps[i]))
          == seq(|reps|, i requires 0 <= i < |reps| => ServeEntity(c, w, t, ks, req.text, reps[i]));
    }
  }

  lemma {:induction false} EntityErased(c: Ctx, w: World, t: Name, ks: seq<Name>, text: seq<Field>, rep: Json)
    ensures ServeEntity(c, w, t, ks, EraseFields(text), rep) == ServeEntity(c, w, t, ks, text, rep)
  {
    if rep.Obj? && Exec.Find(w, t, ks, rep.fields).Some? {
      EvalErased(c, Exec.Find(w, t, ks, rep.fields).value, text);
    }
  }

  // ----- reading the text

  /** The fields of a parsed selection set that holds nothing else. */
  function OnlyFields(ss: seq<Sel>): Option<seq<Field>> {
    if ss == [] then Some([])
    else
      var rest := OnlyFields(ss[1..]);
      if ss[0].F? && rest.Some? then Some([ss[0].f] + rest.value) else None
  }

  /** The fields a text selects; none when it is no list of fields. */
  function ReadFields(ts: seq<Tok>): Option<seq<Field>> {
    var r := ParseSels(ts);
    if r.Some? && r.value.1 == [] then OnlyFields(r.value.0) else None
  }

  function AsSels(fs: seq<Field>): seq<Sel> {
    if fs == [] then [] else [F(fs[0])] + AsSels(fs[1..])
  }

  lemma {:induction false} RenderedFields(fs: seq<Field>)
    ensures RenderFields(fs) == RenderSels(AsSels(fs)) && OnlyFields(Erase(AsSels(fs))) == Some(EraseFields(fs))
  {
    if fs != [] {
      RenderedFields(fs[1..]);
      assert AsSels(fs)[1..] == AsSels(fs[1..]) && AsSels(fs)[0] == F(fs[0]);
      assert Erase(AsSels(fs))[1..] == Erase(AsSels(fs[1..])) && Erase(AsSels(fs))[0] == F(EraseField(fs[0]));
    }
  }

  lemma {:induction false} FieldsTrip(fs: seq<Field>)
    ensures ReadFields(RenderFields(fs)) == Some(EraseFields(fs))
  {
    RenderedFields(fs);
    SelsTrip(AsSels(fs), []);
    assert RenderSels(AsSels(fs)) + [] == RenderSels(AsSels(fs));
  }

  /** A subgraph on the wire: it reads the text, then serves it. */
  ghost function ServeText(s: Sup, w: World, root: Oid, req: WireRequest): Reply {
    var fs := ReadFields(req.text);
    if fs.None? then Answer(None, 1)
    else Serve(s, w, root, Request(req.subgraph, req.reps, fs.value, req.defs, req.vars))
  }

  /** Printing a request and reading it back changes no answer. */
  lemma {:induction false} ServedText(s: Sup, w: World, root: Oid, req: Request)
    ensures ServeText(s, w, root, OnWire(req)) == Serve(s, w, root, req)
  {
    FieldsTrip(req.text);
    ServeErased(s, w, root, req);
  }
}
