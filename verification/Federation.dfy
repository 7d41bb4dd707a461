/** Federated execution preserves meaning: splitting a selection over
    subgraphs, fetching, resolving entities and merging yields JSON that
    answers the client's selection as the store itself does. */
module Federation {
  import opened Basics
  import opened GraphQl
  import opened Plan
  import opened PlanFacts
  import opened Exec

  // ----- what composition guarantees about the tables

  /** Foreign field `f` of entity `t` has a reachable owner, and `sg`
      declares every key field that owner needs. */
  ghost predicate Reachable(s: Sup, sg: nat, t: Name, f: Name) {
    && (t, f) in s.e.owners
    && s.e.PickTarget(t, s.e.owners[(t, f)]).Some?
    && forall k :: k in s.e.KeysOf(t, s.e.PickTarget(t, s.e.owners[(t, f)]).value) ==> s.Declares(sg, t, k)
  }

  /** Fields of the types a subgraph defines are its own or reachable. */
  ghost predicate Covered(s: Sup) {
    forall sg: nat, t, f :: s.Defines(sg, t) && t !in ROOTS && (t, f) in s.schema.fieldTy && !IsMeta(f) ==>
      if t in s.e.keys then (t, f) in s.e.owners && (sg in s.e.owners[(t, f)] || Reachable(s, sg, t, f))
      else s.Declares(sg, t, f)
  }

  ghost predicate OwnersDeclare(s: Sup) {
    forall t, f, sg: nat :: t in s.e.keys && (t, f) in s.e.owners && sg in s.e.owners[(t, f)] ==>
      s.Declares(sg, t, f) && s.Defines(sg, t)
  }

  /** A declared field has its composed type, which the subgraph defines. */
  ghost predicate DeclaredTypes(s: Sup) {
    forall sg: nat, t, f :: s.Declares(sg, t, f) ==>
      && (t, f) in s.schema.fieldTy
      && s.decl[sg][(t, f)] == s.schema.fieldTy[(t, f)]
      && (s.schema.Composite(s.schema.fieldTy[(t, f)]) ==> s.Defines(sg, s.schema.fieldTy[(t, f)]))
  }

  /** Root types are owned field by field and never keyed. */
  ghost predicate RootsArePlain(s: Sup) {
    ROOTS !! s.e.keys.Keys
  }

  ghost predicate Sound(s: Sup) {
    && s.schema.Coherent()
    && s.EntitiesAreObjects()
    && RootsArePlain(s)
    && Covered(s)
    && OwnersDeclare(s)
    && DeclaredTypes(s)
  }

  // ----- what the store must satisfy

  ghost predicate RefsIn(s: Sup, sg: nat, w: World, v: RVal)
    decreases v
  {
    match v
    case RRef(o) => s.Defines(sg, w.typeOf(o))
    case RList(items) => forall i :: i in items ==> RefsIn(s, sg, w, i)
    case _ => true
  }

  /** A subgraph returns objects of types it defines. */
  ghost predicate ReturnsOwnTypes(s: Sup, w: World) {
    forall sg: nat, o, f, args :: CanResolve(s, sg, w.typeOf(o), f) ==> RefsIn(s, sg, w, w.resolve(o, f, args))
  }

  /** Key fields are non-null leaves and their values identify an entity. */
  ghost predicate KeysIdentify(x: Run) {
    && (forall t, sg: nat, k :: k in x.s.e.KeysOf(t, sg) ==> KeyLeaf(x, t, k))
    && (forall t, sg: nat, o, o' :: x.s.e.HasKey(t, sg) && SameKey(x, t, sg, o, o') ==> o == o')
  }

  ghost predicate KeyLeaf(x: Run, t: Name, k: Name) {
    && !IsMeta(k)
    && (t, k) in x.s.schema.fieldTy
    && !x.s.schema.Composite(x.s.schema.fieldTy[(t, k)])
    && forall o :: x.c.w.typeOf(o) == t ==> KeyValue(x.c.w, o, k) != Null
  }

  ghost predicate SameKey(x: Run, t: Name, sg: nat, o: Oid, o': Oid) {
    && x.c.w.typeOf(o) == t == x.c.w.typeOf(o')
    && forall k :: k in x.s.e.KeysOf(t, sg) ==> KeyValue(x.c.w, o, k) == KeyValue(x.c.w, o', k)
  }

  ghost predicate Ready(x: Run) {
    && Sound(x.s)
    && x.c.ps == x.s.schema.ps
    && WorldTyped(x.s.schema, x.c.w)
    && ReturnsOwnTypes(x.s, x.c.w)
    && KeysIdentify(x)
  }

  // ----- what the client's selection must satisfy

  /** Response keys stay clear of the names the planner adds. */
  ghost predicate Clean(sels: seq<Sel>)
    decreases DepthOf(sels), 1
  {
    forall x :: x in sels ==> (DepthMember(sels, x); CleanSel(x))
  }

  ghost predicate CleanSel(x: Sel)
    decreases Depth(x), 0
  {
    match x
    case F(f) =>
      assert Depth(x) == DepthF(f);
      CleanKey(f) && Clean(f.sels)
    case Frag(_, _, sub) => Clean(sub)
  }

  predicate CleanKey(f: Field) {
    !IsKeyAlias(f.Key()) && (f.Key() == TYPENAME ==> f.name == TYPENAME && f.args == [] && f.sels == [])
  }

  /** Two cuts at one object share a response key only on leaf fields: the
      merge replaces a member, it does not combine selection sets. */
  ghost predicate CutOnce(gs: seq<Group>) {
    forall i, j, f, g :: 0 <= i < j < |gs| && f in gs[i].fields && g in gs[j].fields && f.Key() == g.Key() ==>
      f.sels == []
  }

  ghost predicate PossibleFor(s: Sup, sg: nat, fs: seq<Field>, t: Name) {
    && s.Defines(sg, t)
    && forall f :: f in fs ==> f.ty in s.schema.ps && t in s.schema.ps[f.ty]
  }

  /** `CutOnce` at every object position below the fields `fs`, which share
      one response key and are answered by `sg`. */
  ghost predicate SingleCut(s: Sup, sg: nat, fs: seq<Field>)
    decreases FieldsDepth(fs), 1
  {
    fs != [] ==>
      forall t :: PossibleFor(s, sg, fs, t) ==>
        && CutOnce(AllGroups(s.e, s.schema.ps, sg, t, fs))
        && (forall k :: (LocalsDepth(s, sg, t, fs, k); SingleCut(s, sg, LocalsWith(s, sg, t, Subs(fs), k))))
        && (forall g :: g in AllGroups(s.e, s.schema.ps, sg, t, fs) ==>
              (GroupsDepthMember(AllGroups(s.e, s.schema.ps, sg, t, fs), g); SingleCutFields(s, g.target, g.fields)))
  }

  ghost predicate SingleCutFields(s: Sup, sg: nat, fs: seq<Field>)
    decreases FieldsDepth(fs), 2
  {
    forall k :: SingleCut(s, sg, With(fs, k))
  }

  lemma {:induction false} LocalsAtDepth(e: Engine, sg: nat, t: Name, fs: seq<Field>)
    ensures FieldsDepth(LocalsAt(e, sg, t, fs)) <= FieldsDepth(fs)
  {
    if fs != [] {
      LocalsAtDepth(e, sg, t, fs[1..]);
      if e.Local(sg, t, fs[0]) {
        assert LocalsAt(e, sg, t, fs)[1..] == LocalsAt(e, sg, t, fs[1..]);
      }
    }
  }

  lemma {:induction false} LocalsDepth(s: Sup, sg: nat, t: Name, fs: seq<Field>, k: Name)
    requires fs != []
    ensures FieldsDepth(LocalsWith(s, sg, t, Subs(fs), k)) < FieldsDepth(fs)
  {
    LocalsAtDepth(s.e, sg, t, With(Collect(s.schema.ps, t, Subs(fs)), k));
  }

  // ----- following a selection to one object

  lemma {:induction false} CleanCollect(ps: Poss, t: Name, sels: seq<Sel>, f: Field)
    requires Clean(sels) && f in Collect(ps, t, sels)
    ensures CleanKey(f) && Clean(f.sels)
    decreases DepthOf(sels), |sels|
  {
    var x := sels[0];
    assert x in sels && CleanSel(x);
    if f in Collect(ps, t, sels[1..]) {
      CleanCollect(ps, t, sels[1..], f);
    } else if x.Frag? {
      assert Depth(x) == 1 + DepthOf(x.fsels);
      CleanCollect(ps, t, x.fsels, f);
    }
  }

  /** The subgraph that answers a collected field goes on with its
      selections, in a shape the planner supports. */
  lemma {:induction false} SplitCollect(s: Sup, sg: nat, p: Name, t: Name, sels: seq<Sel>, f: Field)
    requires At(s, sg, p, t) && SplitOk(s, sg, p, sels) && f in Collect(s.schema.ps, t, sels)
    ensures SplitOk(s, if s.e.Local(sg, t, f) then sg else s.e.Target(t, f), f.ty, f.sels)
    ensures DeclaredAtRoots(s, sg, t, f)
    decreases DepthOf(sels), |sels|
  {
    var x := sels[0];
    assert x in sels && SplitSel(s, sg, p, x);
    if f in Collect(s.schema.ps, t, sels[1..]) {
      SplitCollect(s, sg, p, t, sels[1..], f);
    } else {
      match x
      case F(g) =>
        LocalAgrees(s, sg, p, t, g);
        assert s.schema.IsObject(t) && DeclaredAtRoots(s, sg, p, f);
      case Frag(cond, _, sub) =>
        assert Depth(x) == 1 + DepthOf(sub);
        SplitCollect(s, sg, cond, t, sub, f);
    }
  }

  /** A field occurrence ready to be answered by `sg` with values of named
      type `r`. */
  ghost predicate Occurrence(s: Sup, sg: nat, f: Field, r: Name) {
    && (f.sels == [] <==> !s.schema.Composite(r))
    && s.schema.Narrower(r, f.ty)
    && RunTyped(s.schema, r, f.sels)
    && SplitOk(s, sg, f.ty, f.sels)
    && Clean(f.sels)
  }

  ghost predicate Occurrences(s: Sup, sg: nat, fs: seq<Field>, r: Name) {
    forall f :: f in fs ==> Occurrence(s, sg, f, r)
  }

  /** A field that `sg` is asked for on an object of type `t`. */
  ghost predicate Asked(s: Sup, sg: nat, t: Name, f: Field) {
    && !IsMeta(f.name)
    && (t, f.name) in s.schema.fieldTy
    && CanResolve(s, sg, t, f.name)
    && CleanKey(f)
    && Occurrence(s, sg, f, s.schema.fieldTy[(t, f.name)])
  }

  ghost predicate SameKeyMergeable(ps: Poss, fs: seq<Field>) {
    forall f, g :: f in fs && g in fs && f.Key() == g.Key() ==> Mergeable(ps, f, g)
  }

  lemma {:induction false} OccurrencesAt(s: Sup, sg: nat, fs: seq<Field>, r: Name, t: Name)
    requires Sound(s) && s.Defines(sg, t)
    requires Occurrences(s, sg, fs, r) && s.schema.Composite(r) && t in s.schema.ps[r]
    ensures AllAt(s, sg, fs, t) && PossibleFor(s, sg, fs, t)
  {
    forall f | f in fs ensures At(s, sg, f.ty, t) {
      assert Occurrence(s, sg, f, r);
    }
  }

  /** A field collected at an object is asked of `sg` or of its target. */
  lemma {:induction false} CollectedAsked(s: Sup, sg: nat, fs: seq<Field>, r: Name, t: Name, f: Field)
    requires Sound(s) && s.Defines(sg, t)
    requires Occurrences(s, sg, fs, r) && s.schema.Composite(r) && t in s.schema.ps[r]
    requires f in Collect(s.schema.ps, t, Subs(fs))
    ensures CleanKey(f)
    ensures IsMeta(f.name) ==> f.name == TYPENAME && f.sels == []
    ensures !IsMeta(f.name) ==> Asked(s, if s.e.Local(sg, t, f) then sg else s.e.Target(t, f), t, f)
    ensures !IsMeta(f.name) && !s.e.Local(sg, t, f) ==>
              s.e.HasKey(t, s.e.Target(t, f)) && s.Defines(s.e.Target(t, f), t)
              && forall k :: k in s.e.KeysOf(t, s.e.Target(t, f)) ==> CanResolve(s, sg, t, k)
  {
    CollectSubs(s.schema.ps, t, fs, f);
    var f0 :| f0 in fs && f in Collect(s.schema.ps, t, f0.sels);
    assert Occurrence(s, sg, f0, r);
    OccurrencesAt(s, sg, fs, r, t);
    CleanCollect(s.schema.ps, t, f0.sels, f);
    SplitCollect(s, sg, f0.ty, t, f0.sels, f);
    assert RunTypedField(s.schema, t, f);
    if !IsMeta(f.name) && !s.e.Local(sg, t, f) {
      TargetSupplies(s, sg, t, f);
    }
  }

  lemma {:induction false} PickedOwns(e: Engine, t: Name, os: seq<nat>)
    requires e.PickTarget(t, os).Some?
    ensures e.PickTarget(t, os).value in os && e.HasKey(t, e.PickTarget(t, os).value)
  {
    if !e.HasKey(t, os[0]) {
      PickedOwns(e, t, os[1..]);
    }
  }

  /** The picked target owns the field, has a key for the entity, and the
      asking subgraph holds every field of that key. */
  lemma {:induction false} TargetSupplies(s: Sup, sg: nat, t: Name, f: Field)
    requires Sound(s) && s.Defines(sg, t) && s.schema.IsObject(t)
    requires (t, f.name) in s.schema.fieldTy && !s.e.Local(sg, t, f)
    ensures s.e.HasKey(t, s.e.Target(t, f)) && s.Defines(s.e.Target(t, f), t)
    ensures CanResolve(s, s.e.Target(t, f), t, f.name)
    ensures forall k :: k in s.e.KeysOf(t, s.e.Target(t, f)) ==> CanResolve(s, sg, t, k)
  {
    assert Reachable(s, sg, t, f.name);
    PickedOwns(s.e, t, s.e.owners[(t, f.name)]);
    var tgt := s.e.Target(t, f);
    forall k | k in s.e.KeysOf(t, tgt) ensures CanResolve(s, sg, t, k) {
      assert s.e.keys[t][tgt].Some? && k in s.e.keys[t][tgt].value;
    }
  }
}
