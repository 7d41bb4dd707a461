/** Where a merge lands: the k-th entity reaches exactly the object of the
    k-th representation, and merging one fetch leaves the objects every
    sibling fetch walks to in place. */
module Merging {
  import opened Basics
  import opened GraphQl
  import opened Plan
  import opened PlanFacts
  import opened Exec
  import opened Resolver

  // ----- positions in a JSON value

  datatype Step = Idx(i: nat) | Mem(k: Name)

  type Loc = seq<Step>

  function At(j: Json, loc: Loc): Option<Json> {
    if loc == [] then Some(j)
    else
      match loc[0]
      case Idx(i) => if j.Arr? && i < |j.items| then At(j.items[i], loc[1..]) else None
      case Mem(k) => if j.Obj? && k in j.fields then At(j.fields[k], loc[1..]) else None
  }

  function Under(s: Step, locs: seq<Loc>): (r: seq<Loc>)
    ensures |r| == |locs|
    ensures forall i :: 0 <= i < |locs| ==> r[i] == [s] + locs[i]
  {
    if locs == [] then [] else [[s] + locs[0]] + Under(s, locs[1..])
  }

  /** The positions of the objects a path names, in walk order. */
  function Locs(j: Json, path: seq<Seg>): seq<Loc>
    decreases |path|, j, 0
  {
    match j
    case Arr(items) => LocsFrom(items, path, 0)
    case Obj(m) =>
      if path == [] then [[]]
      else (
        match path[0]
        case Key(k) => if k in m then Under(Mem(k), Locs(m[k], path[1..])) else []
        case TypeCond(t) => if TypeNameOf(m) == Some(t) then Locs(j, path[1..]) else [])
    case _ => []
  }

  function LocsFrom(js: seq<Json>, path: seq<Seg>, from: nat): seq<Loc>
    decreases |path|, js, 0
  {
    if js == [] then [] else Under(Idx(from), Locs(js[0], path)) + LocsFrom(js[1..], path, from + 1)
  }

  // ----- alignment

  /** The update of the i-th walked object is the entity whose index is the
      number of representations collected before it. */
  lemma {:induction false} AlignAt(reps: seq<Option<map<Name, Json>>>, es: seq<Json>, i: nat)
    requires i < |reps|
    ensures var r := |Present(reps[..i])|;
            Align(reps, es)[i] ==
            if reps[i].Some? && r < |es| && es[r].Obj? then Some(es[r].fields) else None
  {
    if i == 0 {
      assert reps[..0] == [];
    } else {
      var rest := if reps[0].None? || es == [] then es else es[1..];
      AlignAt(reps[1..], rest, i - 1);
      assert reps[..i][1..] == reps[1..][..i - 1];
    }
  }

  function Updated(m: map<Name, Json>, u: Option<map<Name, Json>>): Json {
    if u.Some? then Obj(m + u.value) else Obj(m)
  }

  /** Each walked position holds its object before the merge and that object
      with its own update after it. */
  lemma {:induction false} MergeAt(j: Json, path: seq<Seg>, us: seq<Option<map<Name, Json>>>, i: nat)
    requires |us| == |Walk(j, path)| && i < |us|
    ensures |Locs(j, path)| == |us|
    ensures At(j, Locs(j, path)[i]) == Some(Obj(Walk(j, path)[i]))
    ensures At(Merge(j, path, us), Locs(j, path)[i]) == Some(Updated(Walk(j, path)[i], us[i]))
    decreases |path|, j, 1
  {
    match j
    case Arr(items) => MergeListAt(items, path, us, i, 0, []);
    case Obj(m) =>
      if path != [] {
        match path[0]
        case Key(k) =>
          MergeAt(m[k], path[1..], us, i);
          assert Locs(j, path)[i] == [Mem(k)] + Locs(m[k], path[1..])[i];
          assert Locs(j, path)[i][1..] == Locs(m[k], path[1..])[i];
        case TypeCond(t) => MergeAt(j, path[1..], us, i);
      }
  }

  lemma {:induction false} MergeListAt(js: seq<Json>, path: seq<Seg>, us: seq<Option<map<Name, Json>>>, i: nat,
                                       from: nat, before: seq<Json>)
    requires |us| == |WalkAll(js, path)| && i < |us| && |before| == from
    ensures |LocsFrom(js, path, from)| == |us|
    ensures At(Arr(before + js), LocsFrom(js, path, from)[i]) == Some(Obj(WalkAll(js, path)[i]))
    ensures At(Arr(before + MergeList(js, path, us)), LocsFrom(js, path, from)[i]) ==
            Some(Updated(WalkAll(js, path)[i], us[i]))
    decreases |path|, js, 0
  {
    var n := |Walk(js[0], path)|;
    LocsLength(js[0], path);
    LocsFromLength(js[1..], path, from + 1);
    var head := Merge(js[0], path, us[..n]);
    var tail := MergeList(js[1..], path, us[n..]);
    if i < n {
      MergeAt(js[0], path, us[..n], i);
      assert LocsFrom(js, path, from)[i] == [Idx(from)] + Locs(js[0], path)[i];
      IntoItem(before, js[0], js[1..], Locs(js[0], path)[i]);
      IntoItem(before, head, tail, Locs(js[0], path)[i]);
      assert js == [js[0]] + js[1..];
    } else {
      MergeListAt(js[1..], path, us[n..], i - n, from + 1, before + [js[0]]);
      MergeListAt(js[1..], path, us[n..], i - n, from + 1, before + [head]);
      Reassociated(before, js[0], js[1..]);
      Reassociated(before, head, tail);
      assert js == [js[0]] + js[1..];
    }
  }

  lemma Reassociated(before: seq<Json>, j: Json, rest: seq<Json>)
    ensures before + ([j] + rest) == before + [j] + rest
  {
  }

  /** Looking into an array at the item after `before`. */
  lemma {:induction false} IntoItem(before: seq<Json>, j: Json, rest: seq<Json>, loc: seq<Step>)
    ensures At(Arr(before + ([j] + rest)), [Idx(|before|)] + loc) == At(j, loc)
  {
    assert (before + ([j] + rest))[|before|] == j;
    assert ([Idx(|before|)] + loc)[1..] == loc;
  }

  lemma {:induction false} LocsLength(j: Json, path: seq<Seg>)
    ensures |Locs(j, path)| == |Walk(j, path)|
    decreases |path|, j, 1
  {
    match j
    case Arr(items) => LocsFromLength(items, path, 0);
    case Obj(m) =>
      if path != [] {
        match path[0]
        case Key(k) => if k in m { LocsLength(m[k], path[1..]); }
        case TypeCond(_) => LocsLength(j, path[1..]);
      }
    case _ =>
  }

  lemma {:induction false} LocsFromLength(js: seq<Json>, path: seq<Seg>, from: nat)
    ensures |LocsFrom(js, path, from)| == |WalkAll(js, path)|
    decreases |path|, js, 0
  {
    if js != [] {
      LocsLength(js[0], path);
      LocsFromLength(js[1..], path, from + 1);
    }
  }

  // ----- sibling frame

  lemma {:induction false} StripShorter(path: seq<Seg>, tn: Option<Name>)
    requires Strip(path, tn).Some?
    ensures |Strip(path, tn).value| <= |path|
    ensures Strip(path, tn).value != [] ==> Strip(path, tn).value[0].Key?
  {
    if path != [] && path[0].TypeCond? {
      StripShorter(path[1..], tn);
    }
  }

  /** The walk asks for the type of the object it stands at. */
  predicate Tests(p: seq<Seg>) {
    p != [] && p[0].TypeCond?
  }

  /** An object of that type name can be represented to a fetch of `name`. */
  predicate Represented(tn: Option<Name>, name: Name) {
    tn == None || tn == Some(name)
  }

  /** Members merged under `ks` into an object of type name `tn` are none
      that a walk along `p` goes on through or asks for. */
  ghost predicate Spares(tn: Option<Name>, p: seq<Seg>, ks: set<Name>) {
    && (Tests(p) ==> TYPENAME !in ks)
    && forall k :: k in ks ==> !Enters(tn, p, k)
  }

  predicate Enters(tn: Option<Name>, p: seq<Seg>, k: Name) {
    Strip(p, tn).Some? && Strip(p, tn).value != [] && Strip(p, tn).value[0] == Key(k)
  }

  /** Where a walk along `q` ends on `j`, with an object a fetch of `name`
      can represent, merging `ks` spares a walk along `p`. */
  ghost predicate ClearOn(j: Json, p: seq<Seg>, q: seq<Seg>, ks: set<Name>, name: Name)
    decreases j
  {
    match j
    case Arr(items) => forall i :: 0 <= i < |items| ==> ClearOn(items[i], p, q, ks, name)
    case Obj(m) =>
      var tn := TypeNameOf(m);
      var q' := Strip(q, tn);
      if q'.None? then true
      else if q'.value == [] then Represented(tn, name) ==> Spares(tn, p, ks)
      else
        forall k :: k in m && q'.value[0] == Key(k) && Enters(tn, p, k) ==>
          ClearOn(m[k], Strip(p, tn).value[1..], q'.value[1..], ks, name)
    case _ => true
  }

  /** The same on every value: a property of the two paths alone. */
  ghost predicate Clear(p: seq<Seg>, q: seq<Seg>, ks: set<Name>, name: Name)
    decreases |q|, 1
  {
    forall tn: Option<Name> :: ClearAt(tn, p, q, ks, name)
  }

  ghost predicate ClearAt(tn: Option<Name>, p: seq<Seg>, q: seq<Seg>, ks: set<Name>, name: Name)
    decreases |q|, 0
  {
    var q' := Strip(q, tn);
    if q'.None? then true
    else if q'.value == [] then Represented(tn, name) ==> Spares(tn, p, ks)
    else
      (StripShorter(q, tn);
       Passable(tn, q'.value[0]) && Strip(p, tn).Some? && Strip(p, tn).value != [] && Strip(p, tn).value[0] == q'.value[0] ==>
         Clear(Strip(p, tn).value[1..], q'.value[1..], ks, name))
  }

  /** A named object holds no object under `__typename`. */
  predicate Passable(tn: Option<Name>, seg: Seg) {
    seg == Key(TYPENAME) ==> tn.None?
  }

  lemma {:induction false} ClearEverywhere(j: Json, p: seq<Seg>, q: seq<Seg>, ks: set<Name>, name: Name)
    requires Clear(p, q, ks, name)
    ensures ClearOn(j, p, q, ks, name)
    decreases j
  {
    match j
    case Arr(items) =>
      forall i | 0 <= i < |items| ensures ClearOn(items[i], p, q, ks, name) {
        ClearEverywhere(items[i], p, q, ks, name);
      }
    case Obj(m) =>
      var tn := TypeNameOf(m);
      assert ClearAt(tn, p, q, ks, name);
      var q' := Strip(q, tn);
      if q'.Some? && q'.value != [] {
        forall k | k in m && q'.value[0] == Key(k) && Enters(tn, p, k)
          ensures ClearOn(m[k], Strip(p, tn).value[1..], q'.value[1..], ks, name)
        {
          if Passable(tn, Key(k)) {
            ClearEverywhere(m[k], Strip(p, tn).value[1..], q'.value[1..], ks, name);
          }
        }
      }
    case _ =>
  }

  /** `now` still has, along `p`, the objects and type names of `orig`. */
  ghost predicate Kept(orig: Json, now: Json, p: seq<Seg>)
    decreases orig, 1
  {
    match orig
    case Arr(items) => now.Arr? && |now.items| == |items| && forall i :: 0 <= i < |items| ==> Kept(items[i], now.items[i], p)
    case Obj(m) =>
      && now.Obj?
      && (Tests(p) ==> TypeNameOf(now.fields) == TypeNameOf(m))
      && forall k :: Enters(TypeNameOf(m), p, k) ==> KeptMember(m, now.fields, p, k)
    case _ => !now.Arr? && !now.Obj?
  }

  ghost predicate KeptMember(m: map<Name, Json>, m': map<Name, Json>, p: seq<Seg>, k: Name)
    requires Enters(TypeNameOf(m), p, k)
    decreases Obj(m), 0
  {
    (k in m' <==> k in m) && (k in m ==> Kept(m[k], m'[k], Strip(p, TypeNameOf(m)).value[1..]))
  }

  lemma {:induction false} KeptSame(j: Json, p: seq<Seg>)
    ensures Kept(j, j, p)
    decreases j
  {
    match j
    case Arr(items) =>
      forall i | 0 <= i < |items| ensures Kept(items[i], items[i], p) {
        KeptSame(items[i], p);
      }
    case Obj(m) =>
      forall k | Enters(TypeNameOf(m), p, k) ensures KeptMember(m, m, p, k) {
        if k in m {
          KeptSame(m[k], Strip(p, TypeNameOf(m)).value[1..]);
        }
      }
    case _ =>
  }

  lemma {:induction false} LocsStripped(m: map<Name, Json>, path: seq<Seg>)
    ensures Locs(Obj(m), path) ==
      match Strip(path, TypeNameOf(m)) case None => [] case Some(p) => Locs(Obj(m), p)
  {
    if path != [] && path[0].TypeCond? && TypeNameOf(m) == Some(path[0].ty) {
      LocsStripped(m, path[1..]);
    }
  }

  lemma {:induction false} MergeStrip(m: map<Name, Json>, path: seq<Seg>, us: seq<Option<map<Name, Json>>>)
    requires |us| == |Walk(Obj(m), path)|
    ensures Strip(path, TypeNameOf(m)).Some? ==> |Walk(Obj(m), Strip(path, TypeNameOf(m)).value)| == |us|
    ensures Merge(Obj(m), path, us) ==
      match Strip(path, TypeNameOf(m)) case None => Obj(m) case Some(p) => Merge(Obj(m), p, us)
  {
    if path != [] && path[0].TypeCond? && TypeNameOf(m) == Some(path[0].ty) {
      MergeStrip(m, path[1..], us);
    }
  }

  lemma StripUntested(p: seq<Seg>, tn: Option<Name>)
    ensures !Tests(p) ==> Strip(p, tn) == Some(p)
  {
  }

  /** The positions a kept path names are the same, in the same order. */
  lemma {:induction false} KeptLocs(orig: Json, now: Json, p: seq<Seg>)
    requires Kept(orig, now, p)
    ensures Locs(now, p) == Locs(orig, p)
    decreases orig, 1
  {
    match orig
    case Arr(items) => KeptLocsList(items, now.items, p, 0);
    case Obj(m) =>
      var tn := TypeNameOf(m);
      LocsStripped(m, p);
      LocsStripped(now.fields, p);
      StripUntested(p, tn);
      StripUntested(p, TypeNameOf(now.fields));
      var p' := Strip(p, tn);
      if p'.Some? && p'.value != [] {
        StripShorter(p, tn);
        var k := p'.value[0].key;
        assert Enters(tn, p, k) && KeptMember(m, now.fields, p, k);
        if k in m {
          KeptLocs(m[k], now.fields[k], p'.value[1..]);
        }
      }
    case _ =>
  }

  lemma {:induction false} KeptLocsList(js: seq<Json>, js': seq<Json>, p: seq<Seg>, from: nat)
    requires |js| == |js'| && forall i :: 0 <= i < |js| ==> Kept(js[i], js'[i], p)
    ensures LocsFrom(js', p, from) == LocsFrom(js, p, from)
    decreases js, 0
  {
    if js != [] {
      KeptLocs(js[0], js'[0], p);
      forall i | 0 <= i < |js[1..]| ensures Kept(js[1..][i], js'[1..][i], p) {
        assert Kept(js[i + 1], js'[i + 1], p);
      }
      KeptLocsList(js[1..], js'[1..], p, from + 1);
    }
  }

  lemma {:induction false} KeptCount(orig: Json, now: Json, p: seq<Seg>)
    requires Kept(orig, now, p)
    ensures |Walk(now, p)| == |Walk(orig, p)|
  {
    KeptLocs(orig, now, p);
    LocsLength(orig, p);
    LocsLength(now, p);
  }

  /** Merged members are among `ks`. */
  ghost predicate Within(us: seq<Option<map<Name, Json>>>, ks: set<Name>) {
    forall u :: u in us && u.Some? ==> u.value.Keys <= ks
  }

  /** Only objects that a fetch of `name` can represent are merged into. */
  ghost predicate Fits(us: seq<Option<map<Name, Json>>>, ms: seq<map<Name, Json>>, name: Name) {
    |us| == |ms| && forall i :: 0 <= i < |us| && us[i].Some? ==> Represented(TypeNameOf(ms[i]), name)
  }

  /** Sibling frame: a merge along `q` that is clear of `p` keeps the objects
      `p` names, after any merges that kept both so far. */
  lemma {:induction false} SiblingFrame(orig: Json, now: Json, p: seq<Seg>, q: seq<Seg>, us: seq<Option<map<Name, Json>>>,
                                        ks: set<Name>, name: Name)
    requires Kept(orig, now, p) && Kept(orig, now, q) && ClearOn(orig, p, q, ks, name)
    requires |us| == |Walk(now, q)| && Fits(us, Walk(orig, q), name) && Within(us, ks)
    ensures Kept(orig, Merge(now, q, us), p)
    decreases orig, 1
  {
    match orig
    case Arr(items) => SiblingFrameList(items, now.items, p, q, us, ks, name);
    case Obj(m) =>
      var tn, m' := TypeNameOf(m), now.fields;
      var q' := Strip(q, tn);
      MergeStrip(m', q, us);
      WalkStripped(m, q);
      StripUntested(q, tn);
      StripUntested(q, TypeNameOf(m'));
      if q'.Some? {
        StripShorter(q, tn);
        if q'.value == [] {
          FrameHere(m, m', p, us[0], ks, name);
        } else {
          FrameBelow(m, m', p, q, us, ks, name);
        }
      }
    case _ =>
  }

  /** The merge ends at this object. */
  lemma {:induction false} FrameHere(m: map<Name, Json>, m': map<Name, Json>, p: seq<Seg>, u: Option<map<Name, Json>>, ks: set<Name>, name: Name)
    requires Kept(Obj(m), Obj(m'), p) && (Represented(TypeNameOf(m), name) ==> Spares(TypeNameOf(m), p, ks))
    requires u.Some? ==> Represented(TypeNameOf(m), name) && u.value.Keys <= ks
    ensures Kept(Obj(m), if u.Some? then Obj(m' + u.value) else Obj(m'), p)
  {
    if u.Some? {
      var tn, m'' := TypeNameOf(m), m' + u.value;
      forall k | Enters(tn, p, k) ensures KeptMember(m, m'', p, k) {
        assert KeptMember(m, m', p, k) && k !in ks;
      }
    }
  }

  /** The merge goes on through a member. */
  lemma {:induction false} FrameBelow(m: map<Name, Json>, m': map<Name, Json>, p: seq<Seg>, q: seq<Seg>, us: seq<Option<map<Name, Json>>>,
                                      ks: set<Name>, name: Name)
    requires Kept(Obj(m), Obj(m'), p) && Kept(Obj(m), Obj(m'), q) && ClearOn(Obj(m), p, q, ks, name)
    requires Strip(q, TypeNameOf(m)).Some? && Strip(q, TypeNameOf(m)).value != []
    requires Strip(q, TypeNameOf(m')) == Strip(q, TypeNameOf(m))
    requires |us| == |Walk(Obj(m'), q)| && Fits(us, Walk(Obj(m), q), name) && Within(us, ks)
    ensures Kept(Obj(m), Merge(Obj(m'), q, us), p)
    decreases Obj(m), 0
  {
    var tn := TypeNameOf(m);
    var q' := Strip(q, tn).value;
    StripShorter(q, tn);
    MergeStrip(m', q, us);
    WalkStripped(m, q);
    var k := q'[0].key;
    assert Enters(tn, q, k) && KeptMember(m, m', q, k);
    if k in m {
      var below := Merge(m'[k], q'[1..], us);
      MergeKind(m'[k], q'[1..], us);
      assert Merge(Obj(m'), q, us) == Obj(m'[k := below]);
      assert TypeNameOf(m'[k := below]) == TypeNameOf(m');
      forall h | Enters(tn, p, h) ensures KeptMember(m, m'[k := below], p, h) {
        assert KeptMember(m, m', p, h);
        if h == k {
          SiblingFrame(m[k], m'[k], Strip(p, tn).value[1..], q'[1..], us, ks, name);
        }
      }
    }
  }

  lemma MergeKind(j: Json, path: seq<Seg>, us: seq<Option<map<Name, Json>>>)
    requires |us| == |Walk(j, path)|
    ensures j.Str? ==> Merge(j, path, us) == j
    ensures !j.Str? ==> !Merge(j, path, us).Str?
    decreases |path|
  {
    if j.Obj? && path != [] && path[0].TypeCond? && TypeNameOf(j.fields) == Some(path[0].ty) {
      MergeKind(j, path[1..], us);
    }
  }

  lemma {:induction false} SiblingFrameList(js: seq<Json>, js': seq<Json>, p: seq<Seg>, q: seq<Seg>, us: seq<Option<map<Name, Json>>>,
                                            ks: set<Name>, name: Name)
    requires |js| == |js'| && forall i :: 0 <= i < |js| ==> Kept(js[i], js'[i], p) && Kept(js[i], js'[i], q) && ClearOn(js[i], p, q, ks, name)
    requires |us| == |WalkAll(js', q)| && Fits(us, WalkAll(js, q), name) && Within(us, ks)
    ensures forall i :: 0 <= i < |js| ==> Kept(js[i], MergeList(js', q, us)[i], p)
    decreases js, 0
  {
    if js != [] {
      var n := |Walk(js'[0], q)|;
      KeptCount(js[0], js'[0], q);
      FitsParts(us, Walk(js[0], q), WalkAll(js[1..], q), name);
      SiblingFrame(js[0], js'[0], p, q, us[..n], ks, name);
      forall i | 0 <= i < |js[1..]|
        ensures Kept(js[1..][i], js'[1..][i], p) && Kept(js[1..][i], js'[1..][i], q) && ClearOn(js[1..][i], p, q, ks, name)
      {
        assert js[1..][i] == js[i + 1] && js'[1..][i] == js'[i + 1];
      }
      SiblingFrameList(js[1..], js'[1..], p, q, us[n..], ks, name);
      var rest := MergeList(js'[1..], q, us[n..]);
      assert MergeList(js', q, us) == [Merge(js'[0], q, us[..n])] + rest;
      forall i | 0 <= i < |js| ensures Kept(js[i], MergeList(js', q, us)[i], p) {
        if i > 0 {
          assert js[i] == js[1..][i - 1] && MergeList(js', q, us)[i] == rest[i - 1];
        }
      }
    }
  }

  lemma {:induction false} FitsParts(us: seq<Option<map<Name, Json>>>, a: seq<map<Name, Json>>, b: seq<map<Name, Json>>, name: Name)
    requires Fits(us, a + b, name)
    ensures Fits(us[..|a|], a, name) && Fits(us[|a|..], b, name)
  {
    assert forall i :: 0 <= i < |a| ==> (a + b)[i] == a[i];
    forall i | 0 <= i < |b| && us[|a|..][i].Some? ensures Represented(TypeNameOf(b[i]), name) {
      assert us[|a|..][i] == us[|a| + i] && (a + b)[|a| + i] == b[i];
    }
  }

  // ----- the divergence branch

  /** Every entity the fetch of `cut` returned holds only selected keys. */
  ghost predicate OnlySelected(out: Outcome, cut: Cut) {
    forall e :: e in out.values && e.Obj? ==> e.fields.Keys <= Keys(cut.text)
  }

  lemma {:induction false} AlignKeys(reps: seq<Option<map<Name, Json>>>, es: seq<Json>, ks: set<Name>)
    requires forall e :: e in es && e.Obj? ==> e.fields.Keys <= ks
    ensures forall u :: u in Align(reps, es) && u.Some? ==> u.value.Keys <= ks
  {
    if reps != [] {
      AlignKeys(reps[1..], if reps[0].None? || es == [] then es else es[1..], ks);
    }
  }

  ghost predicate WellAnswered(ns: seq<FetchNode>, outs: seq<Outcome>)
    requires |outs| == |ns|
  {
    forall i :: 0 <= i < |ns| ==> OnlySelected(outs[i], ns[i].cut) && Converged(outs[i].problems)
  }
}
