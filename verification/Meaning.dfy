/** The central induction: fetched and merged JSON answers the client. */
module Meaning {
  import opened Basics
  import opened GraphQl
  import opened Plan
  import opened PlanFacts
  import opened Exec
  import opened Federation

  // ----- leaves

  lemma {:induction false} LeafValue(x: Run, sg: nat, r: Name, v: RVal)
    requires !x.s.schema.Composite(r) && Conforms(x.s.schema, x.c.w, v, r)
    ensures Answers(x.c, Complete(SubCtx(x, sg), v, []), v, [])
    ensures Complete(SubCtx(x, sg), v, []) == LeafJson(v)
    decreases v
  {
    if v.RList? {
      forall i | 0 <= i < |v.items|
        ensures Answers(x.c, Complete(SubCtx(x, sg), v.items[i], []), v.items[i], [])
        ensures Complete(SubCtx(x, sg), v.items[i], []) == LeafJson(v.items[i])
      {
        assert v.items[i] in v.items;
        LeafValue(x, sg, r, v.items[i]);
      }
    }
  }

  lemma {:induction false} NoSelections(e: Engine, sg: nat, fs: seq<Field>)
    requires forall f :: f in fs ==> f.sels == []
    ensures PrintedAll(e, sg, fs) == fs && Subs(fs) == [] && SubNodes(e, sg, fs) == []
  {
    if fs != [] {
      assert fs[0] in fs;
      NoSelections(e, sg, fs[1..]);
      assert Printed(e, sg, fs[0]) == fs[0];
      assert Nodes(e, sg, fs[0].ty, []) == [];
    }
  }

  lemma {:induction false} PrintedKeys(e: Engine, sg: nat, fs: seq<Field>, k: Name)
    ensures With(PrintedAll(e, sg, fs), k) == PrintedAll(e, sg, With(fs, k))
    ensures Keys(PrintedAll(e, sg, fs)) == Keys(fs)
  {
    if fs != [] {
      PrintedKeys(e, sg, fs[1..], k);
      assert PrintedAll(e, sg, fs)[1..] == PrintedAll(e, sg, fs[1..]);
      if fs[0].Key() == k {
        assert With(fs, k)[1..] == With(fs[1..], k);
      }
      KeysCons(fs);
      KeysCons(PrintedAll(e, sg, fs));
    }
  }

  lemma EvalAt(c: Ctx, o: Oid, fs: seq<Field>, k: Name)
    requires k in Keys(fs)
    ensures k in EvalObj(c, o, fs)
    ensures EvalObj(c, o, fs)[k] == Complete(c, Resolve(c, o, With(fs, k)[0]), Subs(With(fs, k)))
  {
  }

  lemma KeysCons(fs: seq<Field>)
    requires fs != []
    ensures Keys(fs) == {fs[0].Key()} + Keys(fs[1..])
  {
    assert fs == [fs[0]] + fs[1..];
  }

  // ----- the response object of one sub-query at one entity

  /** The fields a sub-query collects on object `o`. */
  function Asking(x: Run, sg: nat, o: Oid, fs: seq<Field>): seq<Field> {
    Collect(x.s.schema.ps, x.c.w.typeOf(o), Subs(PrintedAll(x.s.e, sg, fs)))
  }

  function Fetched(x: Run, sg: nat, o: Oid, fs: seq<Field>): map<Name, Json> {
    EvalObj(SubCtx(x, sg), o, Asking(x, sg, o, fs))
  }

  /** Object `o`, returned by `sg` where the occurrences `fs` select. */
  ghost predicate Reached(x: Run, sg: nat, fs: seq<Field>, r: Name, o: Oid) {
    && Ready(x)
    && fs != []
    && x.s.Defines(sg, x.c.w.typeOf(o))
    && Occurrences(x.s, sg, fs, r)
    && x.s.schema.Composite(r)
    && x.c.w.typeOf(o) in x.s.schema.ps[r]
    && PairwiseMergeable(x.s.schema.ps, fs)
    && SingleCut(x.s, sg, fs)
  }

  /** Collected client fields keep to client response keys. */
  ghost predicate CleanAt(ps: Poss, t: Name, fs: seq<Field>) {
    forall f :: f in Collect(ps, t, Subs(fs)) ==> CleanKey(f)
  }

  lemma {:induction false} ReachedAt(x: Run, sg: nat, fs: seq<Field>, r: Name, o: Oid)
    requires Reached(x, sg, fs, r, o)
    ensures AllAt(x.s, sg, fs, x.c.w.typeOf(o)) && PossibleFor(x.s, sg, fs, x.c.w.typeOf(o))
    ensures CleanAt(x.s.schema.ps, x.c.w.typeOf(o), fs)
  {
    var t := x.c.w.typeOf(o);
    OccurrencesAt(x.s, sg, fs, r, t);
    forall f | f in Collect(x.s.schema.ps, t, Subs(fs)) ensures CleanKey(f) {
      CollectedAsked(x.s, sg, fs, r, t, f);
    }
  }

  lemma AliasFacts(k: Name)
    ensures IsKeyAlias(KeyAlias(k)) && KeyAlias(k) != TYPENAME && KeyAlias(k)[4..] == k && IsMeta(TYPENAME)
  {
    assert KeyAlias(k)[0] == 'g' && TYPENAME[0] == '_';
  }

  lemma {:induction false} TypenameAsked(s: Sup, sg: nat, t: Name, fs: seq<Field>, h: Field)
    requires AllAt(s, sg, fs, t) && CleanAt(s.schema.ps, t, fs)
    requires h in Collect(s.schema.ps, t, Subs(PrintedAll(s.e, sg, fs))) && h.Key() == TYPENAME
    ensures h.name == TYPENAME
  {
    AllTextField(s.e, s.schema.ps, sg, t, fs, h);
    AliasFacts(h.name);
    if !Added(h) {
      var f :| f in Collect(s.schema.ps, t, Subs(fs)) && h == Printed(s.e, sg, f);
      assert CleanKey(f);
    }
  }

  lemma {:induction false} FetchedTypename(x: Run, sg: nat, fs: seq<Field>, o: Oid)
    requires AllAt(x.s, sg, fs, x.c.w.typeOf(o)) && CleanAt(x.s.schema.ps, x.c.w.typeOf(o), fs) && fs != []
    ensures TypeNameOf(Fetched(x, sg, o, fs)) == Some(x.c.w.typeOf(o))
  {
    var t := x.c.w.typeOf(o);
    var tf := Asking(x, sg, o, fs);
    TypenameInText(x.s, sg, t, fs);
    assert TypenameField.Key() in Keys(tf);
    var h := With(tf, TYPENAME)[0];
    TypenameAsked(x.s, sg, t, fs, h);
    assert Resolve(SubCtx(x, sg), o, h) == RLeaf(Str(t));
    EvalAt(SubCtx(x, sg), o, tf, TYPENAME);
  }

  lemma {:induction false} AliasAsked(s: Sup, sg: nat, t: Name, fs: seq<Field>, h: Field, k: Name)
    requires AllAt(s, sg, fs, t) && CleanAt(s.schema.ps, t, fs)
    requires h in Collect(s.schema.ps, t, Subs(PrintedAll(s.e, sg, fs))) && h.Key() == KeyAlias(k)
    ensures h == KeyField(k)
  {
    AllTextField(s.e, s.schema.ps, sg, t, fs, h);
    AliasFacts(k);
    AliasFacts(h.name);
  }

  /** Key field `k` of object `o` is a non-null leaf that `sg` supplies. */
  ghost predicate KeyReady(x: Run, sg: nat, o: Oid, k: Name) {
    var t := x.c.w.typeOf(o);
    && k != TYPENAME
    && CanResolve(x.s, sg, t, k)
    && (t, k) in x.s.schema.fieldTy
    && !x.s.schema.Composite(x.s.schema.fieldTy[(t, k)])
    && Conforms(x.s.schema, x.c.w, Resolve(x.c, o, KeyField(k)), x.s.schema.fieldTy[(t, k)])
    && KeyValue(x.c.w, o, k) != Null
  }

  /** An injected key alias carries the key value of the object. */
  lemma {:induction false} FetchedKey(x: Run, sg: nat, fs: seq<Field>, o: Oid, g: Group, k: Name)
    requires AllAt(x.s, sg, fs, x.c.w.typeOf(o)) && CleanAt(x.s.schema.ps, x.c.w.typeOf(o), fs)
    requires g in AllGroups(x.s.e, x.s.schema.ps, sg, x.c.w.typeOf(o), fs)
    requires k in x.s.e.KeysOf(x.c.w.typeOf(o), g.target) && KeyReady(x, sg, o, k)
    ensures KeyAlias(k) in Fetched(x, sg, o, fs)
    ensures Fetched(x, sg, o, fs)[KeyAlias(k)] == KeyValue(x.c.w, o, k)
  {
    var t := x.c.w.typeOf(o);
    var tf := Asking(x, sg, o, fs);
    AllKeysInText(x.s, sg, t, fs, g, k);
    assert KeyField(k).Key() in Keys(tf);
    var hs := With(tf, KeyAlias(k));
    forall h | h in hs ensures h == KeyField(k) {
      AliasAsked(x.s, sg, t, fs, h, k);
    }
    NoSelections(x.s.e, sg, hs);
    assert hs[0] in hs;
    assert Resolve(SubCtx(x, sg), o, KeyField(k)) == Resolve(x.c, o, KeyField(k));
    LeafValue(x, sg, x.s.schema.fieldTy[(t, k)], Resolve(x.c, o, KeyField(k)));
  }

  lemma {:induction false} MembersFound(m: map<Name, Json>, ks: seq<Name>)
    requires forall k :: k in ks ==> KeyAlias(k) in m && m[KeyAlias(k)] != Null
    ensures KeyMembers(m, ks).Some?
    ensures forall k :: k in ks ==> k in KeyMembers(m, ks).value && KeyMembers(m, ks).value[k] == m[KeyAlias(k)]
  {
    if ks != [] {
      var n := |ks| - 1;
      assert ks == ks[..n] + [ks[n]];
      assert ks[n] in ks;
      MembersFound(m, ks[..n]);
    }
  }

  /** The entity fetch of group `g` is well founded at object `o`. */
  ghost predicate KeysReady(x: Run, sg: nat, o: Oid, g: Group) {
    && (forall k :: k in x.s.e.KeysOf(x.c.w.typeOf(o), g.target) ==> KeyReady(x, sg, o, k))
    && (forall o' :: SameKey(x, x.c.w.typeOf(o), g.target, o, o') ==> o == o')
  }

  lemma {:induction false} GroupReady(x: Run, sg: nat, fs: seq<Field>, r: Name, o: Oid, g: Group)
    requires Reached(x, sg, fs, r, o)
    requires g in AllGroups(x.s.e, x.s.schema.ps, sg, x.c.w.typeOf(o), fs) && g.fields != []
    ensures KeysReady(x, sg, o, g)
    ensures x.s.Defines(g.target, x.c.w.typeOf(o))
    ensures forall f :: f in g.fields ==> Asked(x.s, g.target, x.c.w.typeOf(o), f)
  {
    var t := x.c.w.typeOf(o);
    OccurrencesAt(x.s, sg, fs, r, t);
    forall f | f in g.fields
      ensures Asked(x.s, g.target, t, f) && x.s.e.HasKey(t, g.target) && x.s.Defines(g.target, t)
      ensures forall k :: k in x.s.e.KeysOf(t, g.target) ==> CanResolve(x.s, sg, t, k)
    {
      GroupFields(x.s, sg, t, fs, g, f);
      CollectedAsked(x.s, sg, fs, r, t, f);
    }
    assert g.fields[0] in g.fields;
    KeysReadyFor(x, sg, o, g);
  }

  lemma {:induction false} KeysReadyFor(x: Run, sg: nat, o: Oid, g: Group)
    requires KeysIdentify(x) && WorldTyped(x.s.schema, x.c.w)
    requires x.s.e.HasKey(x.c.w.typeOf(o), g.target)
    requires forall k :: k in x.s.e.KeysOf(x.c.w.typeOf(o), g.target) ==> CanResolve(x.s, sg, x.c.w.typeOf(o), k)
    ensures KeysReady(x, sg, o, g)
  {
    var t := x.c.w.typeOf(o);
    AliasFacts("");
    forall k | k in x.s.e.KeysOf(t, g.target) ensures KeyReady(x, sg, o, k) {
      assert KeyLeaf(x, t, k);
      assert Resolve(x.c, o, KeyField(k)) == x.c.w.resolve(o, k, SubstArgs([], x.c.env));
    }
  }

  /** The representation of a fetched object identifies exactly it. */
  lemma {:induction false} FetchedRep(x: Run, sg: nat, fs: seq<Field>, o: Oid, g: Group)
    requires AllAt(x.s, sg, fs, x.c.w.typeOf(o)) && CleanAt(x.s.schema.ps, x.c.w.typeOf(o), fs) && fs != []
    requires g in AllGroups(x.s.e, x.s.schema.ps, sg, x.c.w.typeOf(o), fs) && KeysReady(x, sg, o, g)
    ensures var cut := CutNode(x.s.e, x.c.w.typeOf(o), g).cut;
            var rep := RepOf(Fetched(x, sg, o, fs), cut);
            rep.Some? && Find(x.c.w, cut.typeName, cut.keyFields, rep.value) == Some(o)
    ensures forall k :: k in x.s.e.KeysOf(x.c.w.typeOf(o), g.target) ==> KeyAlias(k) in Fetched(x, sg, o, fs)
  {
    var cut := CutNode(x.s.e, x.c.w.typeOf(o), g).cut;
    var m := Fetched(x, sg, o, fs);
    FetchedTypename(x, sg, fs, o);
    forall k | k in cut.keyFields
      ensures KeyAlias(k) in m && m[KeyAlias(k)] == KeyValue(x.c.w, o, k) && m[KeyAlias(k)] != Null && k != TYPENAME
    {
      FetchedKey(x, sg, fs, o, g, k);
    }
    RepFinds(x, cut, g.target, m, o);
  }

  lemma {:induction false} RepFinds(x: Run, cut: Cut, sg: nat, m: map<Name, Json>, o: Oid)
    requires TypeNameOf(m) == Some(x.c.w.typeOf(o)) && cut.typeName == x.c.w.typeOf(o)
    requires cut.keyFields == x.s.e.KeysOf(cut.typeName, sg)
    requires forall k :: k in cut.keyFields ==>
               KeyAlias(k) in m && m[KeyAlias(k)] == KeyValue(x.c.w, o, k) && m[KeyAlias(k)] != Null && k != TYPENAME
    requires forall o' :: SameKey(x, x.c.w.typeOf(o), sg, o, o') ==> o == o'
    ensures RepOf(m, cut).Some? && Find(x.c.w, cut.typeName, cut.keyFields, RepOf(m, cut).value) == Some(o)
  {
    MembersFound(m, cut.keyFields);
    var rep := RepOf(m, cut).value;
    assert Identifies(x.c.w, cut.typeName, cut.keyFields, rep, o);
    var o' := Find(x.c.w, cut.typeName, cut.keyFields, rep).value;
    assert Identifies(x.c.w, cut.typeName, cut.keyFields, rep, o');
    assert SameKey(x, x.c.w.typeOf(o), sg, o, o');
  }

  // ----- what merging does at one object

  /** Fields collected under one key are mergeable with each other. */
  lemma {:induction false} CollectedMergeable(ps: Poss, t: Name, fs: seq<Field>, f: Field, g: Field)
    requires PairwiseMergeable(ps, fs)
    requires f in Collect(ps, t, Subs(fs)) && g in Collect(ps, t, Subs(fs)) && f.Key() == g.Key()
    ensures Mergeable(ps, f, g)
  {
    MergeSubs(ps, fs);
  }

  /** A local response key: its fetched value and the fetches below it. */
  lemma {:induction false} FetchedLocal(x: Run, sg: nat, fs: seq<Field>, o: Oid, k: Name)
    requires AllAt(x.s, sg, fs, x.c.w.typeOf(o)) && ClientKey(k)
    requires LocalsWith(x.s, sg, x.c.w.typeOf(o), Subs(fs), k) != []
    ensures k in Fetched(x, sg, o, fs)
    ensures var gs := LocalsWith(x.s, sg, x.c.w.typeOf(o), Subs(fs), k);
            Fetched(x, sg, o, fs)[k] ==
            Complete(SubCtx(x, sg), Resolve(SubCtx(x, sg), o, gs[0]), Subs(PrintedAll(x.s.e, sg, gs)))
  {
    var t := x.c.w.typeOf(o);
    var tf := Asking(x, sg, o, fs);
    var gs := LocalsWith(x.s, sg, t, Subs(fs), k);
    AllTextWith(x.s, sg, t, fs, k);
    assert With(tf, k)[0] == Printed(x.s.e, sg, gs[0]);
    assert With(tf, k)[0] in tf && With(tf, k)[0].Key() == k;
    EvalAt(SubCtx(x, sg), o, tf, k);
  }

  lemma {:induction false} NoLocals(s: Sup, sg: nat, t: Name, fs: seq<Field>, f: Field)
    requires PairwiseMergeable(s.schema.ps, fs)
    requires f in Collect(s.schema.ps, t, Subs(fs)) && !s.e.Local(sg, t, f)
    ensures LocalsWith(s, sg, t, Subs(fs), f.Key()) == []
  {
    var gs := LocalsWith(s, sg, t, Subs(fs), f.Key());
    if gs != [] {
      assert gs[0] in gs;
      CollectedMergeable(s.schema.ps, t, fs, f, gs[0]);
    }
  }

  /** The fetch for group `g` merges right answers for exactly its keys. */
  ghost predicate EntityOk(x: Run, m: map<Name, Json>, o: Oid, g: Group) {
    var e := Gain(x, m, CutNode(x.s.e, x.c.w.typeOf(o), g).cut);
    && e.Keys == Keys(g.fields)
    && forall f :: f in g.fields ==> AnswersField(x.c, e, o, f)
  }

  ghost predicate EntitiesOk(x: Run, m: map<Name, Json>, o: Oid, gs: seq<Group>) {
    forall g :: g in gs ==> EntityOk(x, m, o, g)
  }

  /** Planner-added members have no fetches below them. */
  lemma {:induction false} AddedDeriv(s: Sup, sg: nat, fs: seq<Field>, t: Name, k: Name)
    requires AllAt(s, sg, fs, t) && CleanAt(s.schema.ps, t, fs) && !ClientKey(k)
    requires forall f :: f in Collect(s.schema.ps, t, Subs(fs)) && f.name == TYPENAME ==> f.sels == []
    ensures Deriv(Some(t), k, SubNodes(s.e, sg, fs)) == []
  {
    AllDeriv(s, sg, t, fs, k);
    var gs := LocalsWith(s, sg, t, Subs(fs), k);
    forall f | f in gs ensures f.sels == [] {
      assert f in Collect(s.schema.ps, t, Subs(fs));
    }
    NoSelections(s.e, sg, gs);
  }

  /** At a reached object, merging is steady. */
  lemma {:induction false} SteadyAt(x: Run, sg: nat, fs: seq<Field>, o: Oid)
    requires AllAt(x.s, sg, fs, x.c.w.typeOf(o)) && CleanAt(x.s.schema.ps, x.c.w.typeOf(o), fs) && fs != []
    requires PairwiseMergeable(x.s.schema.ps, fs)
    requires forall f :: f in Collect(x.s.schema.ps, x.c.w.typeOf(o), Subs(fs)) && f.name == TYPENAME ==> f.sels == []
    requires EntitiesOk(x, Fetched(x, sg, o, fs), o, AllGroups(x.s.e, x.s.schema.ps, sg, x.c.w.typeOf(o), fs))
    requires forall g :: g in AllGroups(x.s.e, x.s.schema.ps, sg, x.c.w.typeOf(o), fs) ==> KeysReady(x, sg, o, g)
    ensures Steady(x, Fetched(x, sg, o, fs), SubNodes(x.s.e, sg, fs))
  {
    var t := x.c.w.typeOf(o);
    var m := Fetched(x, sg, o, fs);
    var ns := SubNodes(x.s.e, sg, fs);
    var gs := AllGroups(x.s.e, x.s.schema.ps, sg, t, fs);
    FetchedTypename(x, sg, fs, o);
    AllOwn(x.s, sg, t, fs);
    CutNodesAt(x.s.e, t, gs);
    forall n | n in Own(Some(t), ns)
      ensures forall k :: k in Gain(x, m, n.cut) ==> ClientKey(k) && Deriv(Some(t), k, ns) == []
      ensures forall k :: k in n.cut.keyFields ==> KeyAlias(k) in m
    {
      var i :| 0 <= i < |gs| && n == CutNode(x.s.e, t, gs[i]);
      FetchedRep(x, sg, fs, o, gs[i]);
      forall k | k in Gain(x, m, n.cut) ensures ClientKey(k) && Deriv(Some(t), k, ns) == [] {
        GainedKey(x.s, sg, fs, x.c.w.typeOf(o), gs[i], k);
      }
    }
    forall k | !ClientKey(k) ensures Deriv(Some(t), k, ns) == [] {
      AddedDeriv(x.s, sg, fs, t, k);
    }
  }

  lemma {:induction false} GainedKey(s: Sup, sg: nat, fs: seq<Field>, t: Name, g: Group, k: Name)
    requires AllAt(s, sg, fs, t) && CleanAt(s.schema.ps, t, fs)
    requires PairwiseMergeable(s.schema.ps, fs)
    requires g in AllGroups(s.e, s.schema.ps, sg, t, fs) && k in Keys(g.fields)
    ensures ClientKey(k) && Deriv(Some(t), k, SubNodes(s.e, sg, fs)) == []
    ensures LocalsWith(s, sg, t, Subs(fs), k) == []
  {
    var f :| f in g.fields && f.Key() == k;
    GroupFields(s, sg, t, fs, g, f);
    AliasFacts("");
    NoLocals(s, sg, t, fs, f);
    AllDeriv(s, sg, t, fs, k);
  }

  /** The value under a gained key comes from the last group that has it. */
  lemma {:induction false} GainsLast(x: Run, m: map<Name, Json>, t: Name, gs: seq<Group>, i: nat, k: Name) returns (j: nat)
    requires i < |gs| && k in Gain(x, m, CutNode(x.s.e, t, gs[i]).cut)
    ensures i <= j < |gs| && k in Gain(x, m, CutNode(x.s.e, t, gs[j]).cut)
    ensures k in Gains(x, m, CutNodes(x.s.e, t, gs))
    ensures Gains(x, m, CutNodes(x.s.e, t, gs))[k] == Gain(x, m, CutNode(x.s.e, t, gs[j]).cut)[k]
  {
    var n := |gs| - 1;
    var ns := CutNodes(x.s.e, t, gs);
    CutNodesAt(x.s.e, t, gs);
    CutNodesAt(x.s.e, t, gs[..n]);
    assert ns[..n] == CutNodes(x.s.e, t, gs[..n]);
    assert Gains(x, m, ns) == Gains(x, m, ns[..n]) + Gain(x, m, ns[n].cut);
    if k in Gain(x, m, ns[n].cut) {
      j := n;
    } else {
      j := GainsLast(x, m, t, gs[..n], i, k);
    }
  }

  /** A foreign field is answered by what its fetch merged. */
  lemma {:induction false} ForeignAnswer(x: Run, m: map<Name, Json>, o: Oid, gs: seq<Group>, i: nat, f: Field)
    requires EntitiesOk(x, m, o, gs) && CutOnce(gs)
    requires i < |gs| && f in gs[i].fields
    requires forall g, h :: g in gs && h in g.fields && h.Key() == f.Key() ==>
               h.name == f.name && h.args == f.args && (h.sels == [] <==> f.sels == [])
    ensures AnswersField(x.c, Gains(x, m, CutNodes(x.s.e, x.c.w.typeOf(o), gs)), o, f)
  {
    var t := x.c.w.typeOf(o);
    var k := f.Key();
    assert gs[i] in gs && EntityOk(x, m, o, gs[i]);
    var j := GainsLast(x, m, t, gs, i, k);
    assert gs[j] in gs && EntityOk(x, m, o, gs[j]);
    if j != i {
      var h :| h in gs[j].fields && h.Key() == k;
      assert f.sels == [];
      assert AnswersField(x.c, Gain(x, m, CutNode(x.s.e, t, gs[j]).cut), o, h);
    }
  }

  // ----- the induction

  /** Fetching `fs` from `sg`, then resolving and merging everything below:
      the JSON of the store value `v` that answers the occurrences `fs`. */
  ghost function Resolved(x: Run, sg: nat, fs: seq<Field>, v: RVal): Json {
    ApplyNodes(x, Complete(SubCtx(x, sg), v, Subs(PrintedAll(x.s.e, sg, fs))), SubNodes(x.s.e, sg, fs))
  }

  ghost predicate AnswersAll(c: Ctx, j: Json, v: RVal, fs: seq<Field>) {
    forall f :: f in fs ==> Answers(c, j, v, f.sels)
  }

  /** Occurrences `fs` of one response key and a value for them. */
  ghost predicate Given(x: Run, sg: nat, fs: seq<Field>, r: Name, v: RVal) {
    && Ready(x)
    && fs != []
    && Occurrences(x.s, sg, fs, r)
    && PairwiseMergeable(x.s.schema.ps, fs)
    && SingleCut(x.s, sg, fs)
    && Conforms(x.s.schema, x.c.w, v, r)
    && RefsIn(x.s, sg, x.c.w, v)
  }

  lemma {:induction false} ValueOk(x: Run, sg: nat, fs: seq<Field>, r: Name, v: RVal)
    requires Given(x, sg, fs, r, v)
    ensures AnswersAll(x.c, Resolved(x, sg, fs, v), v, fs)
    decreases FieldsDepth(fs), 3, v
  {
    var text := Subs(PrintedAll(x.s.e, sg, fs));
    var ns := SubNodes(x.s.e, sg, fs);
    if !x.s.schema.Composite(r) {
      forall f | f in fs ensures f.sels == [] {
        assert Occurrence(x.s, sg, f, r);
      }
      NoSelections(x.s.e, sg, fs);
      LeafValue(x, sg, r, v);
    } else {
      match v
      case RNull => ApplyScalar(x, Null, ns);
      case RRef(o) => ObjectOk(x, sg, fs, r, o);
      case RList(items) => ListOk(x, sg, fs, r, items);
    }
  }

  lemma {:induction false} ListOk(x: Run, sg: nat, fs: seq<Field>, r: Name, items: seq<RVal>)
    requires Given(x, sg, fs, r, RList(items))
    ensures AnswersAll(x.c, Resolved(x, sg, fs, RList(items)), RList(items), fs)
    decreases FieldsDepth(fs), 3, items
  {
    var text := Subs(PrintedAll(x.s.e, sg, fs));
    var js := Complete(SubCtx(x, sg), RList(items), text).items;
    ApplyList(x, js, SubNodes(x.s.e, sg, fs));
    var out := Resolved(x, sg, fs, RList(items)).items;
    forall i | 0 <= i < |items| ensures AnswersAll(x.c, out[i], items[i], fs) {
      assert items[i] in items;
      ValueOk(x, sg, fs, r, items[i]);
    }
    ListAnswers(x.c, out, items, fs);
  }

  lemma ListAnswers(c: Ctx, js: seq<Json>, items: seq<RVal>, fs: seq<Field>)
    requires |js| == |items|
    requires forall i :: 0 <= i < |items| ==> AnswersAll(c, js[i], items[i], fs)
    ensures AnswersAll(c, Arr(js), RList(items), fs)
  {
  }

  lemma {:induction false} ObjectOk(x: Run, sg: nat, fs: seq<Field>, r: Name, o: Oid)
    requires Given(x, sg, fs, r, RRef(o)) && x.s.schema.Composite(r)
    ensures AnswersAll(x.c, Resolved(x, sg, fs, RRef(o)), RRef(o), fs)
    decreases FieldsDepth(fs), 2
  {
    var t := x.c.w.typeOf(o);
    var m := Fetched(x, sg, o, fs);
    var ns := SubNodes(x.s.e, sg, fs);
    ObjectSteady(x, sg, fs, r, o);
    ApplyObject(x, m, ns);
    ReachedAt(x, sg, fs, r, o);
    FetchedTypename(x, sg, fs, o);
    SteadyMembers(x, m, ns, TYPENAME);
    forall f | f in Collect(x.s.schema.ps, t, Subs(fs)) ensures AnswersField(x.c, Applied(x, m, ns), o, f) {
      FieldOk(x, sg, fs, r, o, f);
    }
    SubsAnswered(x, o, Applied(x, m, ns), fs);
  }

  lemma {:induction false} SubsAnswered(x: Run, o: Oid, m: map<Name, Json>, fs: seq<Field>)
    requires TypeNameOf(m) == Some(x.c.w.typeOf(o)) && x.c.ps == x.s.schema.ps
    requires forall f :: f in Collect(x.c.ps, x.c.w.typeOf(o), Subs(fs)) ==> AnswersField(x.c, m, o, f)
    ensures AnswersAll(x.c, Obj(m), RRef(o), fs)
  {
    if fs != [] {
      CollectAppend(x.c.ps, x.c.w.typeOf(o), fs[0].sels, Subs(fs[1..]));
      SubsAnswered(x, o, m, fs[1..]);
      assert Answers(x.c, Obj(m), RRef(o), fs[0].sels);
    }
  }

  /** Every entity fetch at the object merges right answers. */
  lemma {:induction false} GroupsOk(x: Run, sg: nat, fs: seq<Field>, r: Name, o: Oid)
    requires Given(x, sg, fs, r, RRef(o)) && x.s.schema.Composite(r)
    ensures EntitiesOk(x, Fetched(x, sg, o, fs), o, AllGroups(x.s.e, x.s.schema.ps, sg, x.c.w.typeOf(o), fs))
    ensures forall g :: g in AllGroups(x.s.e, x.s.schema.ps, sg, x.c.w.typeOf(o), fs) ==> KeysReady(x, sg, o, g)
    decreases FieldsDepth(fs), 0, 1
  {
    forall g | g in AllGroups(x.s.e, x.s.schema.ps, sg, x.c.w.typeOf(o), fs)
      ensures EntityOk(x, Fetched(x, sg, o, fs), o, g) && KeysReady(x, sg, o, g)
    {
      GroupOk(x, sg, fs, r, o, g);
    }
  }

  lemma {:induction false} GroupOk(x: Run, sg: nat, fs: seq<Field>, r: Name, o: Oid, g: Group)
    requires Given(x, sg, fs, r, RRef(o)) && x.s.schema.Composite(r)
    requires g in AllGroups(x.s.e, x.s.schema.ps, sg, x.c.w.typeOf(o), fs)
    ensures EntityOk(x, Fetched(x, sg, o, fs), o, g) && KeysReady(x, sg, o, g)
    decreases FieldsDepth(fs), 0, 0
  {
    var t := x.c.w.typeOf(o);
    ReachedAt(x, sg, fs, r, o);
    AllNonempty(x.s.e, x.s.schema.ps, sg, t, fs);
    GroupReady(x, sg, fs, r, o, g);
    GroupAsks(x, sg, fs, o, g);
    GroupsDepthMember(AllGroups(x.s.e, x.s.schema.ps, sg, t, fs), g);
    FieldsOk(x, g.target, o, g.fields);
    EntityFetched(x, sg, fs, o, g);
  }

  lemma {:induction false} EntityFetched(x: Run, sg: nat, fs: seq<Field>, o: Oid, g: Group)
    requires AllAt(x.s, sg, fs, x.c.w.typeOf(o)) && CleanAt(x.s.schema.ps, x.c.w.typeOf(o), fs) && fs != []
    requires g in AllGroups(x.s.e, x.s.schema.ps, sg, x.c.w.typeOf(o), fs) && KeysReady(x, sg, o, g)
    requires FieldsAnswered(x, g.target, o, g.fields)
    ensures EntityOk(x, Fetched(x, sg, o, fs), o, g)
  {
    FetchedRep(x, sg, fs, o, g);
  }

  lemma {:induction false} GroupAsks(x: Run, sg: nat, fs: seq<Field>, o: Oid, g: Group)
    requires AllAt(x.s, sg, fs, x.c.w.typeOf(o)) && PossibleFor(x.s, sg, fs, x.c.w.typeOf(o))
    requires PairwiseMergeable(x.s.schema.ps, fs) && SingleCut(x.s, sg, fs)
    requires g in AllGroups(x.s.e, x.s.schema.ps, sg, x.c.w.typeOf(o), fs)
    ensures SameKeyMergeable(x.s.schema.ps, g.fields)
    ensures SingleCutFields(x.s, g.target, g.fields)
  {
    var t := x.c.w.typeOf(o);
    forall f, h | f in g.fields && h in g.fields && f.Key() == h.Key() ensures Mergeable(x.s.schema.ps, f, h) {
      GroupFields(x.s, sg, t, fs, g, f);
      GroupFields(x.s, sg, t, fs, g, h);
      CollectedMergeable(x.s.schema.ps, t, fs, f, h);
    }
  }

  lemma {:induction false} ObjectSteady(x: Run, sg: nat, fs: seq<Field>, r: Name, o: Oid)
    requires Given(x, sg, fs, r, RRef(o)) && x.s.schema.Composite(r)
    ensures Steady(x, Fetched(x, sg, o, fs), SubNodes(x.s.e, sg, fs))
    decreases FieldsDepth(fs), 0, 5
  {
    var t := x.c.w.typeOf(o);
    GroupsOk(x, sg, fs, r, o);
    ReachedAt(x, sg, fs, r, o);
    forall f | f in Collect(x.s.schema.ps, t, Subs(fs)) && f.name == TYPENAME ensures f.sels == [] {
      AliasFacts("");
      CollectedAsked(x.s, sg, fs, r, t, f);
    }
    SteadyAt(x, sg, fs, o);
  }

  /** One collected client field is answered after merging. */
  lemma {:induction false} FieldOk(x: Run, sg: nat, fs: seq<Field>, r: Name, o: Oid, f: Field)
    requires Given(x, sg, fs, r, RRef(o)) && x.s.schema.Composite(r)
    requires f in Collect(x.s.schema.ps, x.c.w.typeOf(o), Subs(fs))
    ensures AnswersField(x.c, Applied(x, Fetched(x, sg, o, fs), SubNodes(x.s.e, sg, fs)), o, f)
    decreases FieldsDepth(fs), 1
  {
    if f.Key() == TYPENAME {
      ObjectSteady(x, sg, fs, r, o);
      ReachedAt(x, sg, fs, r, o);
      TypenameOk(x, sg, fs, o, f);
    } else if x.s.e.Local(sg, x.c.w.typeOf(o), f) {
      LocalOk(x, sg, fs, r, o, f);
    } else {
      ForeignOk(x, sg, fs, r, o, f);
    }
  }

  lemma {:induction false} TypenameOk(x: Run, sg: nat, fs: seq<Field>, o: Oid, f: Field)
    requires AllAt(x.s, sg, fs, x.c.w.typeOf(o)) && CleanAt(x.s.schema.ps, x.c.w.typeOf(o), fs) && fs != []
    requires Steady(x, Fetched(x, sg, o, fs), SubNodes(x.s.e, sg, fs))
    requires f in Collect(x.s.schema.ps, x.c.w.typeOf(o), Subs(fs)) && f.Key() == TYPENAME
    ensures AnswersField(x.c, Applied(x, Fetched(x, sg, o, fs), SubNodes(x.s.e, sg, fs)), o, f)
  {
    assert CleanKey(f);
    FetchedTypename(x, sg, fs, o);
    SteadyMembers(x, Fetched(x, sg, o, fs), SubNodes(x.s.e, sg, fs), TYPENAME);
  }

  /** Cut fields that share a response key are one and the same field. */
  lemma {:induction false} SameCutField(x: Run, sg: nat, fs: seq<Field>, r: Name, o: Oid, f: Field, g: Group, h: Field)
    requires Given(x, sg, fs, r, RRef(o)) && x.s.schema.Composite(r)
    requires f in Collect(x.s.schema.ps, x.c.w.typeOf(o), Subs(fs)) && !x.s.e.Local(sg, x.c.w.typeOf(o), f)
    requires g in AllGroups(x.s.e, x.s.schema.ps, sg, x.c.w.typeOf(o), fs) && h in g.fields && h.Key() == f.Key()
    ensures h.name == f.name && h.args == f.args && (h.sels == [] <==> f.sels == [])
  {
    var t := x.c.w.typeOf(o);
    OccurrencesAt(x.s, sg, fs, r, t);
    GroupFields(x.s, sg, t, fs, g, h);
    CollectedMergeable(x.s.schema.ps, t, fs, f, h);
    CollectedAsked(x.s, sg, fs, r, t, f);
    CollectedAsked(x.s, sg, fs, r, t, h);
  }

  lemma {:induction false} InSomeGroup(x: Run, sg: nat, fs: seq<Field>, t: Name, f: Field) returns (i: nat)
    requires AllAt(x.s, sg, fs, t)
    requires f in Collect(x.s.schema.ps, t, Subs(fs)) && !x.s.e.Local(sg, t, f)
    ensures i < |AllGroups(x.s.e, x.s.schema.ps, sg, t, fs)|
    ensures f in AllGroups(x.s.e, x.s.schema.ps, sg, t, fs)[i].fields
  {
    var gs := AllGroups(x.s.e, x.s.schema.ps, sg, t, fs);
    AllPairs(x.s, sg, t, fs);
    PairsMember(gs, x.s.e.Target(t, f), f);
    var g :| g in gs && g.target == x.s.e.Target(t, f) && f in g.fields;
    i :| 0 <= i < |gs| && gs[i] == g;
  }

  lemma {:induction false} ForeignOk(x: Run, sg: nat, fs: seq<Field>, r: Name, o: Oid, f: Field)
    requires Given(x, sg, fs, r, RRef(o)) && x.s.schema.Composite(r)
    requires f in Collect(x.s.schema.ps, x.c.w.typeOf(o), Subs(fs)) && !x.s.e.Local(sg, x.c.w.typeOf(o), f)
    ensures AnswersField(x.c, Applied(x, Fetched(x, sg, o, fs), SubNodes(x.s.e, sg, fs)), o, f)
    decreases FieldsDepth(fs), 1, 0
  {
    var t := x.c.w.typeOf(o);
    var m := Fetched(x, sg, o, fs);
    var gs := AllGroups(x.s.e, x.s.schema.ps, sg, t, fs);
    ReachedAt(x, sg, fs, r, o);
    GroupsOk(x, sg, fs, r, o);
    var i := InSomeGroup(x, sg, fs, t, f);
    forall g, h | g in gs && h in g.fields && h.Key() == f.Key()
      ensures h.name == f.name && h.args == f.args && (h.sels == [] <==> f.sels == [])
    {
      SameCutField(x, sg, fs, r, o, f, g, h);
    }
    ForeignAnswer(x, m, o, gs, i, f);
    FetchedTypename(x, sg, fs, o);
    AllOwn(x.s, sg, t, fs);
    MergedAnswer(x, Below(x, m, SubNodes(x.s.e, sg, fs)), Gains(x, m, CutNodes(x.s.e, t, gs)), o, f);
  }

  lemma MergedAnswer(x: Run, a: map<Name, Json>, b: map<Name, Json>, o: Oid, f: Field)
    requires AnswersField(x.c, b, o, f)
    ensures AnswersField(x.c, a + b, o, f)
  {
  }

  lemma {:induction false} LocalOk(x: Run, sg: nat, fs: seq<Field>, r: Name, o: Oid, f: Field)
    requires Given(x, sg, fs, r, RRef(o)) && x.s.schema.Composite(r)
    requires f in Collect(x.s.schema.ps, x.c.w.typeOf(o), Subs(fs)) && x.s.e.Local(sg, x.c.w.typeOf(o), f)
    requires f.Key() != TYPENAME
    ensures AnswersField(x.c, Applied(x, Fetched(x, sg, o, fs), SubNodes(x.s.e, sg, fs)), o, f)
    decreases FieldsDepth(fs), 1, 0
  {
    var t := x.c.w.typeOf(o);
    var m := Fetched(x, sg, o, fs);
    var ns := SubNodes(x.s.e, sg, fs);
    var k := f.Key();
    var gs := LocalsWith(x.s, sg, t, Subs(fs), k);
    ReachedAt(x, sg, fs, r, o);
    assert f in gs;
    FetchedLocal(x, sg, fs, o, k);
    FetchedTypename(x, sg, fs, o);
    AllDeriv(x.s, sg, t, fs, k);
    GroupsOk(x, sg, fs, r, o);
    LocalNotGained(x, sg, fs, o, k);
    assert Applied(x, m, ns)[k] == ApplyNodes(x, m[k], SubNodes(x.s.e, sg, gs));
    LocalValue(x, sg, fs, r, o, k, f);
  }

  lemma {:induction false} LocalNotGained(x: Run, sg: nat, fs: seq<Field>, o: Oid, k: Name)
    requires AllAt(x.s, sg, fs, x.c.w.typeOf(o)) && CleanAt(x.s.schema.ps, x.c.w.typeOf(o), fs) && fs != []
    requires PairwiseMergeable(x.s.schema.ps, fs)
    requires EntitiesOk(x, Fetched(x, sg, o, fs), o, AllGroups(x.s.e, x.s.schema.ps, sg, x.c.w.typeOf(o), fs))
    requires LocalsWith(x.s, sg, x.c.w.typeOf(o), Subs(fs), k) != []
    ensures k !in Gains(x, Fetched(x, sg, o, fs), Own(TypeNameOf(Fetched(x, sg, o, fs)), SubNodes(x.s.e, sg, fs)))
  {
    var t := x.c.w.typeOf(o);
    var m := Fetched(x, sg, o, fs);
    var gs := AllGroups(x.s.e, x.s.schema.ps, sg, t, fs);
    FetchedTypename(x, sg, fs, o);
    AllOwn(x.s, sg, t, fs);
    if k in Gains(x, m, CutNodes(x.s.e, t, gs)) {
      GainsKeys(x, m, CutNodes(x.s.e, t, gs), k);
      var n :| n in CutNodes(x.s.e, t, gs) && k in Gain(x, m, n.cut);
      var i := CutIndex(x.s.e, t, gs, n);
      assert gs[i] in gs && EntityOk(x, m, o, gs[i]);
      GainedKey(x.s, sg, fs, x.c.w.typeOf(o), gs[i], k);
    }
  }

  lemma {:induction false} CutIndex(e: Engine, t: Name, gs: seq<Group>, n: FetchNode) returns (i: nat)
    requires n in CutNodes(e, t, gs)
    ensures i < |gs| && n == CutNode(e, t, gs[i])
  {
    CutNodesAt(e, t, gs);
    i :| 0 <= i < |gs| && n == CutNode(e, t, gs[i]);
  }

  /** The value of a local key, resolved below, answers its fields. */
  lemma {:induction false} LocalValue(x: Run, sg: nat, fs: seq<Field>, r: Name, o: Oid, k: Name, f: Field)
    requires Given(x, sg, fs, r, RRef(o)) && x.s.schema.Composite(r)
    requires f in LocalsWith(x.s, sg, x.c.w.typeOf(o), Subs(fs), k)
    ensures var gs := LocalsWith(x.s, sg, x.c.w.typeOf(o), Subs(fs), k);
            var v := Resolve(SubCtx(x, sg), o, gs[0]);
            v == Resolve(x.c, o, f) && Answers(x.c, Resolved(x, sg, gs, v), v, f.sels)
    decreases FieldsDepth(fs), 0, 1
  {
    var t := x.c.w.typeOf(o);
    var gs := LocalsWith(x.s, sg, t, Subs(fs), k);
    forall g | g in gs ensures g.name == f.name && g.args == f.args && g in Collect(x.s.schema.ps, t, Subs(fs)) {
      CollectedMergeable(x.s.schema.ps, t, fs, f, g);
    }
    assert gs[0] in gs;
    if IsMeta(f.name) {
      forall g | g in gs ensures g.name == TYPENAME && g.sels == [] {
        CollectedAsked(x.s, sg, fs, r, t, g);
      }
      NoSelections(x.s.e, sg, gs);
    } else {
      LocalGiven(x, sg, fs, r, o, k, f);
      LocalsDepth(x.s, sg, t, fs, k);
      ValueOk(x, sg, gs, x.s.schema.fieldTy[(t, f.name)], Resolve(x.c, o, f));
    }
  }

  lemma {:induction false} LocalGiven(x: Run, sg: nat, fs: seq<Field>, r: Name, o: Oid, k: Name, f: Field)
    requires Given(x, sg, fs, r, RRef(o)) && x.s.schema.Composite(r)
    requires f in LocalsWith(x.s, sg, x.c.w.typeOf(o), Subs(fs), k) && !IsMeta(f.name)
    requires forall g :: g in LocalsWith(x.s, sg, x.c.w.typeOf(o), Subs(fs), k) ==> g.name == f.name
    ensures (x.c.w.typeOf(o), f.name) in x.s.schema.fieldTy
    ensures Given(x, sg, LocalsWith(x.s, sg, x.c.w.typeOf(o), Subs(fs), k),
                  x.s.schema.fieldTy[(x.c.w.typeOf(o), f.name)], Resolve(x.c, o, f))
    ensures CanResolve(x.s, sg, x.c.w.typeOf(o), f.name)
  {
    var t := x.c.w.typeOf(o);
    var gs := LocalsWith(x.s, sg, t, Subs(fs), k);
    OccurrencesAt(x.s, sg, fs, r, t);
    forall g | g in gs ensures Asked(x.s, sg, t, g) {
      CollectedAsked(x.s, sg, fs, r, t, g);
    }
    forall g, h | g in gs && h in gs ensures Mergeable(x.s.schema.ps, g, h) {
      CollectedMergeable(x.s.schema.ps, t, fs, g, h);
    }
    AliasFacts("");
  }

  /** A sub-query for fields `fs` of one object, fully resolved: an object
      with exactly their keys, answering every one of them. */
  ghost predicate FieldsAnswered(x: Run, sg: nat, o: Oid, fs: seq<Field>) {
    var j := ApplyNodes(x, Obj(EvalObj(SubCtx(x, sg), o, PrintedAll(x.s.e, sg, fs))), FieldsNodes(x.s.e, sg, fs));
    j.Obj? && j.fields.Keys == Keys(fs) && forall f :: f in fs ==> AnswersField(x.c, j.fields, o, f)
  }

  lemma {:induction false} FieldsOk(x: Run, sg: nat, o: Oid, fs: seq<Field>)
    requires Ready(x)
    requires forall f :: f in fs ==> Asked(x.s, sg, x.c.w.typeOf(o), f)
    requires SameKeyMergeable(x.s.schema.ps, fs) && SingleCutFields(x.s, sg, fs)
    ensures FieldsAnswered(x, sg, o, fs)
    decreases FieldsDepth(fs), 4
  {
    forall f | f in fs ensures ClientKey(f.Key()) {
      AliasFacts("");
      assert Asked(x.s, sg, x.c.w.typeOf(o), f);
    }
    FieldsApplied(x, sg, o, fs);
    forall f | f in fs
      ensures AnswersField(x.c, Below(x, EvalObj(SubCtx(x, sg), o, PrintedAll(x.s.e, sg, fs)), FieldsNodes(x.s.e, sg, fs)), o, f)
    {
      FieldsKeyOk(x, sg, o, fs, f);
    }
  }

  lemma {:induction false} OnlyBelow(x: Run, m: map<Name, Json>, ns: seq<FetchNode>)
    requires Own(TypeNameOf(m), ns) == []
    requires forall k :: !ClientKey(k) ==> Deriv(TypeNameOf(m), k, ns) == []
    ensures ApplyNodes(x, Obj(m), ns) == Obj(Below(x, m, ns))
  {
    ApplyObject(x, m, ns);
    PlusEmpty(Below(x, m, ns));
  }

  lemma PlusEmpty(m: map<Name, Json>)
    ensures m + map[] == m
  {
  }

  lemma {:induction false} FieldsApplied(x: Run, sg: nat, o: Oid, fs: seq<Field>)
    requires forall f :: f in fs ==> ClientKey(f.Key())
    ensures var m := EvalObj(SubCtx(x, sg), o, PrintedAll(x.s.e, sg, fs));
            ApplyNodes(x, Obj(m), FieldsNodes(x.s.e, sg, fs)) == Obj(Below(x, m, FieldsNodes(x.s.e, sg, fs)))
            && m.Keys == Keys(fs)
  {
    var m := EvalObj(SubCtx(x, sg), o, PrintedAll(x.s.e, sg, fs));
    NothingOnTop(x.s.e, sg, TypeNameOf(m), fs);
    OnlyBelow(x, m, FieldsNodes(x.s.e, sg, fs));
    PrintedKeys(x.s.e, sg, fs, "");
  }

  lemma {:induction false} NothingOnTop(e: Engine, sg: nat, tn: Option<Name>, fs: seq<Field>)
    requires forall f :: f in fs ==> ClientKey(f.Key())
    ensures Own(tn, FieldsNodes(e, sg, fs)) == []
    ensures forall k :: !ClientKey(k) ==> Deriv(tn, k, FieldsNodes(e, sg, fs)) == []
  {
    DerivFields(e, sg, tn, "", fs);
    forall k | !ClientKey(k) ensures Deriv(tn, k, FieldsNodes(e, sg, fs)) == [] {
      NoDeriv(e, sg, tn, fs, k);
    }
  }

  lemma {:induction false} NoDeriv(e: Engine, sg: nat, tn: Option<Name>, fs: seq<Field>, k: Name)
    requires forall f :: f in fs ==> f.Key() != k
    ensures Deriv(tn, k, FieldsNodes(e, sg, fs)) == []
  {
    DerivFields(e, sg, tn, k, fs);
    WithNone(fs, k);
  }

  lemma {:induction false} WithNone(fs: seq<Field>, k: Name)
    requires forall f :: f in fs ==> f.Key() != k
    ensures With(fs, k) == []
  {
    if fs != [] {
      WithNone(fs[1..], k);
    }
  }

  lemma {:induction false} FieldsKeyOk(x: Run, sg: nat, o: Oid, fs: seq<Field>, f: Field)
    requires Ready(x)
    requires forall f :: f in fs ==> Asked(x.s, sg, x.c.w.typeOf(o), f)
    requires SameKeyMergeable(x.s.schema.ps, fs) && SingleCutFields(x.s, sg, fs) && f in fs
    ensures AnswersField(x.c, Below(x, EvalObj(SubCtx(x, sg), o, PrintedAll(x.s.e, sg, fs)), FieldsNodes(x.s.e, sg, fs)), o, f)
    decreases FieldsDepth(fs), 3
  {
    var t := x.c.w.typeOf(o);
    var k := f.Key();
    var gs := With(fs, k);
    var m := EvalObj(SubCtx(x, sg), o, PrintedAll(x.s.e, sg, fs));
    PrintedKeys(x.s.e, sg, fs, k);
    DerivFields(x.s.e, sg, TypeNameOf(m), k, fs);
    assert k in Keys(PrintedAll(x.s.e, sg, fs));
    EvalAt(SubCtx(x, sg), o, PrintedAll(x.s.e, sg, fs), k);
    FieldsGiven(x, sg, o, fs, f);
    assert Resolve(SubCtx(x, sg), o, Printed(x.s.e, sg, gs[0])) == Resolve(x.c, o, f);
    ValueOk(x, sg, gs, x.s.schema.fieldTy[(t, f.name)], Resolve(x.c, o, f));
  }

  lemma {:induction false} FieldsGiven(x: Run, sg: nat, o: Oid, fs: seq<Field>, f: Field)
    requires Ready(x)
    requires forall f :: f in fs ==> Asked(x.s, sg, x.c.w.typeOf(o), f)
    requires SameKeyMergeable(x.s.schema.ps, fs) && SingleCutFields(x.s, sg, fs) && f in fs
    ensures With(fs, f.Key()) != []
    ensures With(fs, f.Key())[0].name == f.name && With(fs, f.Key())[0].args == f.args
    ensures (x.c.w.typeOf(o), f.name) in x.s.schema.fieldTy && CanResolve(x.s, sg, x.c.w.typeOf(o), f.name) && f.name != TYPENAME
    ensures Given(x, sg, With(fs, f.Key()), x.s.schema.fieldTy[(x.c.w.typeOf(o), f.name)], Resolve(x.c, o, f))
  {
    var t := x.c.w.typeOf(o);
    var gs := With(fs, f.Key());
    assert Asked(x.s, sg, t, f);
    AliasFacts("");
    forall g | g in gs ensures g.name == f.name && g.args == f.args && Occurrence(x.s, sg, g, x.s.schema.fieldTy[(t, f.name)]) {
      assert Asked(x.s, sg, t, g) && Mergeable(x.s.schema.ps, f, g);
    }
    assert gs[0] in gs;
  }
}
