/** GraphQL selections and their meaning over a store of objects: field
    collection, execution with merged response keys, and the projection the
    stitch pass performs on fetched JSON. */
module GraphQl {
  import opened Basics

  datatype Value =
    | Var(name: Name)
    | Lit(json: Json)
    | ListV(items: seq<Value>)
    | ObjV(members: seq<Arg>)

  datatype Arg = Arg(name: Name, value: Value)

  datatype Directive = Directive(name: Name, args: seq<Arg>)

  /** One selected field; `ty` is the named type its selection set is on. */
  datatype Field = Field(alias: Option<Name>, name: Name, args: seq<Arg>, dirs: seq<Directive>,
                         ty: Name, sels: seq<Sel>)
  {
    function Key(): Name {
      if alias.Some? then alias.value else name
    }
  }

  /** A selection with every named spread already inlined. */
  datatype Sel =
    | F(f: Field)
    | Frag(cond: Name, fdirs: seq<Directive>, fsels: seq<Sel>)

  // ----- sizes

  function DepthF(f: Field): nat {
    1 + DepthOf(f.sels)
  }

  function Depth(s: Sel): nat {
    match s
    case F(f) => DepthF(f)
    case Frag(_, _, sub) => 1 + DepthOf(sub)
  }

  function DepthOf(ss: seq<Sel>): nat {
    if ss == [] then 0 else Max(Depth(ss[0]), DepthOf(ss[1..]))
  }

  function FieldsDepth(fs: seq<Field>): nat {
    if fs == [] then 0 else Max(DepthF(fs[0]), FieldsDepth(fs[1..]))
  }

  lemma {:induction false} DepthAppend(a: seq<Sel>, b: seq<Sel>)
    ensures DepthOf(a + b) == Max(DepthOf(a), DepthOf(b))
  {
    if a == [] {
      assert a + b == b;
    } else {
      assert (a + b)[1..] == a[1..] + b;
      DepthAppend(a[1..], b);
    }
  }

  lemma {:induction false} FieldsDepthAppend(a: seq<Field>, b: seq<Field>)
    ensures FieldsDepth(a + b) == Max(FieldsDepth(a), FieldsDepth(b))
  {
    if a == [] {
      assert a + b == b;
    } else {
      assert (a + b)[1..] == a[1..] + b;
      FieldsDepthAppend(a[1..], b);
    }
  }

  lemma {:induction false} DepthMember(ss: seq<Sel>, x: Sel)
    requires x in ss
    ensures Depth(x) <= DepthOf(ss)
  {
    if ss[0] != x {
      DepthMember(ss[1..], x);
    }
  }

  lemma {:induction false} FieldsDepthMember(fs: seq<Field>, f: Field)
    requires f in fs
    ensures DepthF(f) <= FieldsDepth(fs)
  {
    if fs[0] != f {
      FieldsDepthMember(fs[1..], f);
    }
  }

  // ----- field collection (section 6.3.2 of the GraphQL specification)

  /** Composite type -> the object types its values may have. */
  type Poss = map<Name, set<Name>>

  predicate Applies(ps: Poss, t: Name, cond: Name) {
    cond in ps && t in ps[cond]
  }

  /** The fields selected on an object of runtime type `t`. */
  function Collect(ps: Poss, t: Name, sels: seq<Sel>): (fs: seq<Field>)
    ensures FieldsDepth(fs) <= DepthOf(sels)
  {
    if sels == [] then []
    else
      var rest := Collect(ps, t, sels[1..]);
      match sels[0]
      case F(f) => assert ([f] + rest)[1..] == rest; [f] + rest
      case Frag(cond, _, sub) =>
        if Applies(ps, t, cond) then
          var inner := Collect(ps, t, sub);
          FieldsDepthAppend(inner, rest);
          inner + rest
        else rest
  }

  lemma {:induction false} CollectAppend(ps: Poss, t: Name, a: seq<Sel>, b: seq<Sel>)
    ensures Collect(ps, t, a + b) == Collect(ps, t, a) + Collect(ps, t, b)
  {
    if a == [] {
      assert a + b == b;
    } else {
      assert (a + b)[1..] == a[1..] + b;
      CollectAppend(ps, t, a[1..], b);
    }
  }

  function Keys(fs: seq<Field>): set<Name> {
    set f | f in fs :: f.Key()
  }

  /** The fields that answer under response key `k`, in order. */
  function With(fs: seq<Field>, k: Name): (gs: seq<Field>)
    ensures FieldsDepth(gs) <= FieldsDepth(fs)
    ensures forall g <- gs :: g in fs && g.Key() == k
    ensures forall f <- fs :: f.Key() == k ==> f in gs
    ensures k in Keys(fs) ==> gs != []
  {
    if fs == [] then []
    else if fs[0].Key() == k then
      var rest := With(fs[1..], k);
      assert ([fs[0]] + rest)[1..] == rest;
      [fs[0]] + rest
    else With(fs[1..], k)
  }

  lemma {:induction false} WithAppend(a: seq<Field>, b: seq<Field>, k: Name)
    ensures With(a + b, k) == With(a, k) + With(b, k)
  {
    if a == [] {
      assert a + b == b;
    } else {
      assert (a + b)[1..] == a[1..] + b;
      WithAppend(a[1..], b, k);
    }
  }

  /** The merged selection set of fields that share a response key. */
  function Subs(fs: seq<Field>): (ss: seq<Sel>)
    ensures fs != [] ==> DepthOf(ss) < FieldsDepth(fs)
    ensures fs == [] ==> ss == []
  {
    if fs == [] then []
    else
      DepthAppend(fs[0].sels, Subs(fs[1..]));
      fs[0].sels + Subs(fs[1..])
  }

  // ----- the store and execution

  type Oid = nat

  datatype RVal =
    | RNull
    | RLeaf(j: Json)
    | RRef(o: Oid)
    | RList(items: seq<RVal>)

  type ArgVals = map<Name, Json>

  /** A store of typed objects whose fields resolve to values. */
  datatype World = World(typeOf: Oid -> Name, resolve: (Oid, Name, ArgVals) -> RVal)

  /** Variable values an execution runs with. */
  type Env = map<Name, Json>

  /** An argument value; `None` when it is an unset variable. */
  function Subst(v: Value, env: Env): Option<Json> {
    match v
    case Var(x) => if x in env then Some(env[x]) else None
    case Lit(j) => Some(j)
    case ListV(items) => Some(Arr(SubstItems(items, env)))
    case ObjV(members) => Some(Obj(SubstArgs(members, env)))
  }

  function SubstItems(items: seq<Value>, env: Env): seq<Json> {
    if items == [] then []
    else
      var j := Subst(items[0], env);
      [if j.Some? then j.value else Null] + SubstItems(items[1..], env)
  }

  function SubstArgs(args: seq<Arg>, env: Env): ArgVals {
    if args == [] then map[]
    else
      var j := Subst(args[0].value, env);
      var rest := SubstArgs(args[1..], env);
      if j.Some? then rest[args[0].name := j.value] else rest
  }

  datatype Ctx = Ctx(ps: Poss, w: World, env: Env)

  function Resolve(c: Ctx, o: Oid, f: Field): RVal {
    if f.name == TYPENAME then RLeaf(Str(c.w.typeOf(o)))
    else c.w.resolve(o, f.name, SubstArgs(f.args, c.env))
  }

  /** The response for value `v` under selections `sels`. */
  function Complete(c: Ctx, v: RVal, sels: seq<Sel>): Json
    decreases DepthOf(sels), 2, v
  {
    match v
    case RNull => Null
    case RLeaf(j) => j
    case RRef(o) => Obj(EvalObj(c, o, Collect(c.ps, c.w.typeOf(o), sels)))
    case RList(items) => Arr(seq(|items|, i requires 0 <= i < |items| => Complete(c, items[i], sels)))
  }

  /** The response object for `o` under collected fields `fs`: fields that
      share a response key merge their selection sets. */
  function EvalObj(c: Ctx, o: Oid, fs: seq<Field>): map<Name, Json>
    decreases FieldsDepth(fs), 1
  {
    map k | k in Keys(fs) :: Complete(c, Resolve(c, o, With(fs, k)[0]), Subs(With(fs, k)))
  }

  /** A selection of one field collects it, whatever the type. */
  lemma {:induction false} CollectOne(ps: Poss, t: Name, f: Field)
    ensures Collect(ps, t, [F(f)]) == [f]
    ensures forall k :: With([f], k) == if f.Key() == k then [f] else []
  {
    assert [F(f)][1..] == [] && [f][1..] == [];
  }

  /** Execution of a single field. */
  lemma {:induction false} EvalOne(c: Ctx, o: Oid, f: Field)
    ensures EvalObj(c, o, [f]) == map[f.Key() := Complete(c, Resolve(c, o, f), f.sels)]
  {
    CollectOne(c.ps, "", f);
    assert [f][1..] == [] && Subs([f]) == f.sels + Subs([]) && f.sels + [] == f.sels;
    assert forall k :: k in Keys([f]) <==> k == f.Key();
    var m := EvalObj(c, o, [f]);
    assert m.Keys == {f.Key()};
    assert m[f.Key()] == Complete(c, Resolve(c, o, [f][0]), Subs([f]));
  }

  // ----- answers: what a JSON value must hold to serve a selection

  /** `j` holds a correct value for every field that `sels` selects on `v`,
      at any depth, and names the type of every object. It may hold more. */
  ghost predicate Answers(c: Ctx, j: Json, v: RVal, sels: seq<Sel>)
    decreases DepthOf(sels), 1, v
  {
    match v
    case RNull => j == Null
    case RLeaf(l) => j == l
    case RList(items) =>
      && j.Arr?
      && |j.items| == |items|
      && forall i :: 0 <= i < |items| ==> Answers(c, j.items[i], items[i], sels)
    case RRef(o) =>
      var fs := Collect(c.ps, c.w.typeOf(o), sels);
      && j.Obj?
      && TYPENAME in j.fields
      && j.fields[TYPENAME] == Str(c.w.typeOf(o))
      && forall f :: f in fs ==> (FieldsDepthMember(fs, f); AnswersField(c, j.fields, o, f))
  }

  ghost predicate AnswersField(c: Ctx, m: map<Name, Json>, o: Oid, f: Field)
    decreases DepthF(f), 0
  {
    f.Key() in m && Answers(c, m[f.Key()], Resolve(c, o, f), f.sels)
  }

  lemma {:induction false} AnswersAppend(c: Ctx, j: Json, v: RVal, a: seq<Sel>, b: seq<Sel>)
    requires Answers(c, j, v, a) && Answers(c, j, v, b)
    ensures Answers(c, j, v, a + b)
    decreases v
  {
    match v
    case RNull =>
    case RLeaf(_) =>
    case RList(items) =>
      forall i | 0 <= i < |items| ensures Answers(c, j.items[i], items[i], a + b) {
        AnswersAppend(c, j.items[i], items[i], a, b);
      }
    case RRef(o) => CollectAppend(c.ps, c.w.typeOf(o), a, b);
  }

  lemma {:induction false} AnswersSubs(c: Ctx, j: Json, v: RVal, fs: seq<Field>)
    requires fs != []
    requires forall f :: f in fs ==> Answers(c, j, v, f.sels)
    ensures Answers(c, j, v, Subs(fs))
  {
    assert fs[0] in fs;
    if |fs| == 1 {
      assert Subs(fs) == fs[0].sels;
    } else {
      AnswersSubs(c, j, v, fs[1..]);
      AnswersAppend(c, j, v, fs[0].sels, Subs(fs[1..]));
    }
  }

  // ----- field merging (section 5.3.2), judged per runtime type

  ghost predicate MergeOk(ps: Poss, sels: seq<Sel>)
    decreases DepthOf(sels), 1
  {
    forall t, f, g :: f in Collect(ps, t, sels) && g in Collect(ps, t, sels) && f.Key() == g.Key() ==>
      (FieldsDepthMember(Collect(ps, t, sels), f); FieldsDepthMember(Collect(ps, t, sels), g);
       Mergeable(ps, f, g))
  }

  ghost predicate Mergeable(ps: Poss, f: Field, g: Field)
    decreases Max(DepthF(f), DepthF(g)), 0
  {
    DepthAppend(f.sels, g.sels);
    f.name == g.name && f.args == g.args && MergeOk(ps, f.sels + g.sels)
  }

  lemma {:induction false} CollectSubs(ps: Poss, t: Name, fs: seq<Field>, g: Field)
    requires g in Collect(ps, t, Subs(fs))
    ensures exists f :: f in fs && g in Collect(ps, t, f.sels)
  {
    if fs != [] {
      CollectAppend(ps, t, fs[0].sels, Subs(fs[1..]));
      if g in Collect(ps, t, fs[0].sels) {
        assert fs[0] in fs;
      } else {
        CollectSubs(ps, t, fs[1..], g);
      }
    }
  }

  ghost predicate PairwiseMergeable(ps: Poss, fs: seq<Field>) {
    forall f, g :: f in fs && g in fs ==> Mergeable(ps, f, g)
  }

  lemma {:induction false} MergePair(ps: Poss, t: Name, a: Field, b: Field, f: Field, g: Field)
    requires Mergeable(ps, a, b)
    requires f in Collect(ps, t, a.sels) && g in Collect(ps, t, b.sels) && f.Key() == g.Key()
    ensures Mergeable(ps, f, g)
  {
    CollectAppend(ps, t, a.sels, b.sels);
  }

  /** Merging the selection sets of one response key keeps mergeability. */
  lemma {:induction false} MergeSubs(ps: Poss, fs: seq<Field>)
    requires PairwiseMergeable(ps, fs)
    ensures MergeOk(ps, Subs(fs))
  {
    forall t, f, g | f in Collect(ps, t, Subs(fs)) && g in Collect(ps, t, Subs(fs)) && f.Key() == g.Key()
      ensures Mergeable(ps, f, g)
    {
      CollectSubs(ps, t, fs, f);
      CollectSubs(ps, t, fs, g);
      var a :| a in fs && f in Collect(ps, t, a.sels);
      var b :| b in fs && g in Collect(ps, t, b.sels);
      MergePair(ps, t, a, b, f, g);
    }
  }

  // ----- typing

  /** The composed schema: possible types and each field's named type. */
  datatype Schema = Schema(ps: Poss, fieldTy: map<(Name, Name), Name>)
  {
    predicate Composite(ty: Name) {
      ty in ps
    }

    predicate IsObject(ty: Name) {
      ty in ps && ps[ty] == {ty}
    }

    /** Implementing types keep interface fields, with narrower types. */
    ghost predicate Coherent() {
      && (forall p, t :: p in ps && t in ps[p] ==> IsObject(t))
      && (forall p, t, f :: p in ps && t in ps[p] && (p, f) in fieldTy ==>
            (t, f) in fieldTy && Narrower(fieldTy[(t, f)], fieldTy[(p, f)]))
    }

    predicate Narrower(r: Name, r': Name) {
      (r in ps <==> r' in ps) && (r in ps ==> ps[r] <= ps[r'])
    }
  }

  /** `sels` is valid on type `p` (sections 5.3.1 and 5.3.3). */
  ghost predicate Typed(s: Schema, p: Name, sels: seq<Sel>)
    decreases DepthOf(sels), 1
  {
    forall x :: x in sels ==> (DepthMember(sels, x); TypedSel(s, p, x))
  }

  ghost predicate TypedSel(s: Schema, p: Name, x: Sel)
    decreases Depth(x), 0
  {
    match x
    case F(f) =>
      assert Depth(x) == DepthF(f);
      if IsMeta(f.name) then f.name == TYPENAME && f.sels == []
      else
        && (p, f.name) in s.fieldTy
        && f.ty == s.fieldTy[(p, f.name)]
        && (f.sels == [] <==> !s.Composite(f.ty))
        && Typed(s, f.ty, f.sels)
    case Frag(cond, _, sub) => s.Composite(cond) && Typed(s, cond, sub)
  }

  /** Typing as execution sees it: by the runtime types under `r`. */
  ghost predicate RunTyped(s: Schema, r: Name, sels: seq<Sel>)
    decreases DepthOf(sels), 1
  {
    forall t, f :: s.Composite(r) && t in s.ps[r] && f in Collect(s.ps, t, sels) ==>
      (FieldsDepthMember(Collect(s.ps, t, sels), f); RunTypedField(s, t, f))
  }

  ghost predicate RunTypedField(s: Schema, t: Name, f: Field)
    decreases DepthF(f), 0
  {
    if IsMeta(f.name) then f.name == TYPENAME && f.sels == []
    else
      && (t, f.name) in s.fieldTy
      && s.Narrower(s.fieldTy[(t, f.name)], f.ty)
      && (f.sels == [] <==> !s.Composite(s.fieldTy[(t, f.name)]))
      && RunTyped(s, s.fieldTy[(t, f.name)], f.sels)
  }

  lemma {:induction false} TypedRuns(s: Schema, p: Name, r: Name, sels: seq<Sel>)
    requires s.Coherent() && Typed(s, p, sels)
    requires s.Composite(p) && s.Composite(r) && s.ps[r] <= s.ps[p]
    ensures RunTyped(s, r, sels)
    decreases DepthOf(sels), 1
  {
    forall t, f | t in s.ps[r] && f in Collect(s.ps, t, sels) ensures RunTypedField(s, t, f) {
      TypedCollect(s, p, t, sels, f);
    }
  }

  lemma {:induction false} TypedCollect(s: Schema, p: Name, t: Name, sels: seq<Sel>, f: Field)
    requires s.Coherent() && Typed(s, p, sels) && s.Composite(p) && t in s.ps[p]
    requires f in Collect(s.ps, t, sels)
    ensures RunTypedField(s, t, f)
    decreases DepthOf(sels), 0, |sels|
  {
    assert sels[0] in sels && TypedSel(s, p, sels[0]);
    if f in Collect(s.ps, t, sels[1..]) {
      TypedCollect(s, p, t, sels[1..], f);
    } else {
      match sels[0]
      case F(g) =>
        if !IsMeta(g.name) {
          var r := s.fieldTy[(t, g.name)];
          if g.sels != [] {
            TypedRuns(s, g.ty, r, g.sels);
          }
        }
      case Frag(cond, _, sub) =>
        assert Depth(sels[0]) == 1 + DepthOf(sub);
        TypedCollect(s, cond, t, sub, f);
    }
  }

  lemma {:induction false} RunTypedSubs(s: Schema, r: Name, fs: seq<Field>)
    requires forall f :: f in fs ==> RunTyped(s, r, f.sels)
    ensures RunTyped(s, r, Subs(fs))
  {
    forall t, g | s.Composite(r) && t in s.ps[r] && g in Collect(s.ps, t, Subs(fs))
      ensures RunTypedField(s, t, g)
    {
      CollectSubs(s.ps, t, fs, g);
    }
  }

  /** A value fits a named type: leaves for leaf types, possible objects
      for composite types, lists element by element. */
  ghost predicate Conforms(s: Schema, w: World, v: RVal, ty: Name) {
    match v
    case RNull => true
    case RLeaf(_) => !s.Composite(ty)
    case RRef(o) => s.Composite(ty) && w.typeOf(o) in s.ps[ty]
    case RList(items) => forall x :: x in items ==> Conforms(s, w, x, ty)
  }

  ghost predicate WorldTyped(s: Schema, w: World) {
    forall o, f, args :: (w.typeOf(o), f) in s.fieldTy ==>
      Conforms(s, w, w.resolve(o, f, args), s.fieldTy[(w.typeOf(o), f)])
  }

  // ----- the stitch pass

  /** Projects fetched JSON onto the client's selections by response key.
      Object positions take the declared type, abstract positions read
      `__typename`; a missing key is null. */
  function Project(s: Schema, j: Json, ty: Name, sels: seq<Sel>): Json
    decreases DepthOf(sels), 2, j
  {
    if j.Null? || !s.Composite(ty) then j
    else
      match j
      case Arr(items) => Arr(seq(|items|, i requires 0 <= i < |items| => Project(s, items[i], ty, sels)))
      case Obj(m) =>
        if s.IsObject(ty) then Obj(ProjectObj(s, m, ty, Collect(s.ps, ty, sels)))
        else if TYPENAME in m && m[TYPENAME].Str? then
          Obj(ProjectObj(s, m, m[TYPENAME].s, Collect(s.ps, m[TYPENAME].s, sels)))
        else Null
      case _ => Null
  }

  function ProjectObj(s: Schema, m: map<Name, Json>, t: Name, fs: seq<Field>): map<Name, Json>
    decreases FieldsDepth(fs), 1
  {
    map k | k in Keys(fs) :: ProjectKey(s, m, t, fs, k)
  }

  function ProjectKey(s: Schema, m: map<Name, Json>, t: Name, fs: seq<Field>, k: Name): Json
    requires k in Keys(fs)
    decreases FieldsDepth(fs), 0
  {
    var g := With(fs, k)[0];
    if g.name == TYPENAME then Str(t)
    else if k in m && (t, g.name) in s.fieldTy then
      Project(s, m[k], s.fieldTy[(t, g.name)], Subs(With(fs, k)))
    else Null
  }

  lemma {:induction false} ProjectMember(s: Schema, m: map<Name, Json>, ty: Name, sels: seq<Sel>, k: Name)
    requires s.IsObject(ty) && k in Keys(Collect(s.ps, ty, sels))
    ensures var j := Project(s, Obj(m), ty, sels);
            j.Obj? && k in j.fields && j.fields[k] == ProjectKey(s, m, ty, Collect(s.ps, ty, sels), k)
  {
  }

  /** Projection onto a single field of an object. */
  lemma {:induction false} ProjectOne(s: Schema, m: map<Name, Json>, ty: Name, sels: seq<Sel>, g: Field)
    requires s.IsObject(ty) && Collect(s.ps, ty, sels) == [g] && g.name != TYPENAME
    requires g.Key() in m && (ty, g.name) in s.fieldTy
    ensures Project(s, Obj(m), ty, sels) == Obj(map[g.Key() := Project(s, m[g.Key()], s.fieldTy[(ty, g.name)], g.sels)])
  {
    CollectOne(s.ps, ty, g);
    assert [g][1..] == [] && Subs([g]) == g.sels + Subs([]) && g.sels + [] == g.sels;
    assert forall k :: k in Keys([g]) <==> k == g.Key();
    var r := ProjectObj(s, m, ty, [g]);
    assert r.Keys == {g.Key()} && r[g.Key()] == ProjectKey(s, m, ty, [g], g.Key());
  }

  lemma {:induction false} LeafAnswers(c: Ctx, s: Schema, j: Json, v: RVal, ty: Name, sels: seq<Sel>)
    requires !s.Composite(ty) && Conforms(s, c.w, v, ty) && Answers(c, j, v, sels)
    ensures j == Complete(c, v, sels)
    decreases v
  {
    if v.RList? {
      forall i | 0 <= i < |v.items| ensures j.items[i] == Complete(c, v.items[i], sels) {
        assert v.items[i] in v.items;
        LeafAnswers(c, s, j.items[i], v.items[i], ty, sels);
      }
    }
  }

  /** JSON that answers a selection projects to exactly its response. */
  lemma {:induction false} ProjectAnswers(c: Ctx, s: Schema, j: Json, v: RVal, ty: Name, sels: seq<Sel>)
    requires s.Coherent() && WorldTyped(s, c.w) && c.ps == s.ps
    requires Answers(c, j, v, sels) && Conforms(s, c.w, v, ty)
    requires MergeOk(s.ps, sels) && RunTyped(s, ty, sels)
    ensures Project(s, j, ty, sels) == Complete(c, v, sels)
    decreases DepthOf(sels), 3, v
  {
    if !s.Composite(ty) {
      LeafAnswers(c, s, j, v, ty, sels);
    } else {
      match v
      case RNull =>
      case RLeaf(_) =>
      case RList(items) =>
        forall i | 0 <= i < |items| ensures Project(s, j.items[i], ty, sels) == Complete(c, items[i], sels) {
          assert items[i] in items;
          ProjectAnswers(c, s, j.items[i], items[i], ty, sels);
        }
      case RRef(o) => ProjectRef(c, s, j, o, ty, sels);
    }
  }

  lemma {:induction false} ProjectRef(c: Ctx, s: Schema, j: Json, o: Oid, ty: Name, sels: seq<Sel>)
    requires s.Coherent() && WorldTyped(s, c.w) && c.ps == s.ps
    requires Answers(c, j, RRef(o), sels) && Conforms(s, c.w, RRef(o), ty)
    requires MergeOk(s.ps, sels) && RunTyped(s, ty, sels)
    ensures Project(s, j, ty, sels) == Complete(c, RRef(o), sels)
    decreases DepthOf(sels), 2
  {
    var t := c.w.typeOf(o);
    var fs := Collect(s.ps, t, sels);
    forall k | k in Keys(fs)
      ensures ProjectKey(s, j.fields, t, fs, k) == Complete(c, Resolve(c, o, With(fs, k)[0]), Subs(With(fs, k)))
    {
      ProjectKeyAnswers(c, s, j.fields, o, ty, sels, k);
    }
    assert ProjectObj(s, j.fields, t, fs) == EvalObj(c, o, fs);
  }

  lemma {:induction false} ProjectKeyAnswers(c: Ctx, s: Schema, m: map<Name, Json>, o: Oid, ty: Name,
                                             sels: seq<Sel>, k: Name)
    requires s.Coherent() && WorldTyped(s, c.w) && c.ps == s.ps
    requires Answers(c, Obj(m), RRef(o), sels) && Conforms(s, c.w, RRef(o), ty)
    requires MergeOk(s.ps, sels) && RunTyped(s, ty, sels)
    requires k in Keys(Collect(s.ps, c.w.typeOf(o), sels))
    ensures var fs := Collect(s.ps, c.w.typeOf(o), sels);
            ProjectKey(s, m, c.w.typeOf(o), fs, k) == Complete(c, Resolve(c, o, With(fs, k)[0]), Subs(With(fs, k)))
    decreases DepthOf(sels), 1
  {
    var t := c.w.typeOf(o);
    var fs := Collect(s.ps, t, sels);
    var gs := With(fs, k);
    var g := gs[0];
    assert RunTypedField(s, t, g);
    if g.name != TYPENAME {
      var r := s.fieldTy[(t, g.name)];
      forall h | h in gs ensures Answers(c, m[k], Resolve(c, o, g), h.sels) && RunTyped(s, r, h.sels) {
        assert Mergeable(s.ps, h, g);
        assert RunTypedField(s, t, h) && AnswersField(c, m, o, h);
      }
      AnswersSubs(c, m[k], Resolve(c, o, g), gs);
      RunTypedSubs(s, r, gs);
      MergeSubs(s.ps, gs);
      ProjectAnswers(c, s, m[k], Resolve(c, o, g), r, Subs(gs));
    }
  }
}
