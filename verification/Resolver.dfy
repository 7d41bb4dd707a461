/** The resolver as it runs: collect representations along every path, fetch
    each cut once with all of them, resolve the entities' own fetches, then
    merge each entity into the object its representation came from. */
module Resolver {
  import opened Basics
  import opened GraphQl
  import opened Plan
  import opened PlanFacts
  import opened Exec

  // ----- the client's operation and the requests sent to subgraphs

  datatype VarDef = VarDef(name: Name, default: Option<Json>)

  datatype Operation = Operation(defs: seq<VarDef>, raw: map<Name, Json>)

  function DefNames(defs: seq<VarDef>): set<Name> {
    set d | d in defs :: d.name
  }

  /** `print_operation`'s definitions: the client's, filtered to `used`. */
  function UsedDefs(defs: seq<VarDef>, used: set<Name>): (r: seq<VarDef>)
    ensures forall d <- r :: d in defs && d.name in used
    ensures forall d <- defs :: d.name in used ==> d in r
  {
    if defs == [] then []
    else if defs[0].name in used then [defs[0]] + UsedDefs(defs[1..], used)
    else UsedDefs(defs[1..], used)
  }

  /** `filtered_variables`: the client's values, filtered to `used`. */
  function UsedValues(raw: map<Name, Json>, used: set<Name>): map<Name, Json> {
    map k | k in raw && k in used :: raw[k]
  }

  const REPS_VAR: Name := "g2_representations"

  /** `n` underscores appended to the reserved variable name. */
  function RepsName(n: nat): Name {
    if n == 0 then REPS_VAR else RepsName(n - 1) + "_"
  }

  predicate Declared(op: Operation, x: Name) {
    exists i :: 0 <= i < |op.defs| && op.defs[i].name == x
  }

  /** What a subgraph receives. `reps` names the entity type and the
      variable carrying the representations of an `_entities` query. */
  datatype Request = Request(subgraph: nat, reps: Option<(Name, Name)>, text: seq<Field>,
                             defs: seq<VarDef>, vars: map<Name, Json>)

  datatype Reply = Failed | Answer(data: Option<map<Name, Json>>, errors: nat)

  type Fetch = Request -> Reply

  function EntityRequest(op: Operation, rv: Name, cut: Cut, reps: seq<map<Name, Json>>): Request {
    Request(cut.subgraph, Some((cut.typeName, rv)), cut.text,
            [VarDef(rv, None)] + UsedDefs(op.defs, cut.vars),
            UsedValues(op.raw, cut.vars)[rv := Arr(Objects(reps))])
  }

  function Objects(ms: seq<map<Name, Json>>): seq<Json> {
    seq(|ms|, i requires 0 <= i < |ms| => Obj(ms[i]))
  }

  // ----- walking a path

  /** The objects a path names: lists flatten, type conditions filter,
      missing keys prune. */
  function Walk(j: Json, path: seq<Seg>): seq<map<Name, Json>>
    decreases |path|, j
  {
    match j
    case Arr(items) => WalkAll(items, path)
    case Obj(m) =>
      if path == [] then [m]
      else (
        match path[0]
        case Key(k) => if k in m then Walk(m[k], path[1..]) else []
        case TypeCond(t) => if TypeNameOf(m) == Some(t) then Walk(j, path[1..]) else [])
    case _ => []
  }

  function WalkAll(js: seq<Json>, path: seq<Seg>): seq<map<Name, Json>>
    decreases |path|, js
  {
    if js == [] then [] else Walk(js[0], path) + WalkAll(js[1..], path)
  }

  /** Type conditions are decided once, at the object. */
  lemma {:induction false} WalkStripped(m: map<Name, Json>, path: seq<Seg>)
    ensures Walk(Obj(m), path) ==
      match Strip(path, TypeNameOf(m)) case None => [] case Some(p) => Walk(Obj(m), p)
  {
    if path != [] && path[0].TypeCond? && TypeNameOf(m) == Some(path[0].ty) {
      WalkStripped(m, path[1..]);
    }
  }

  function RepsOf(ms: seq<map<Name, Json>>, cut: Cut): seq<Option<map<Name, Json>>> {
    seq(|ms|, i requires 0 <= i < |ms| => RepOf(ms[i], cut))
  }

  function Present<T>(os: seq<Option<T>>): seq<T> {
    if os == [] then []
    else if os[0].Some? then [os[0].value] + Present(os[1..])
    else Present(os[1..])
  }

  // ----- merging back

  /** The members to merge into each walked object: the k-th entity belongs
      to the object of the k-th representation; a missing or null entity
      leaves its object alone. */
  function Align(reps: seq<Option<map<Name, Json>>>, es: seq<Json>): (us: seq<Option<map<Name, Json>>>)
    ensures |us| == |reps|
  {
    if reps == [] then []
    else if reps[0].None? then [None] + Align(reps[1..], es)
    else if es == [] then [None] + Align(reps[1..], [])
    else [if es[0].Obj? then Some(es[0].fields) else None] + Align(reps[1..], es[1..])
  }

  /** Merges `us`, one entry per walked object, along a path. */
  function Merge(j: Json, path: seq<Seg>, us: seq<Option<map<Name, Json>>>): Json
    requires |us| == |Walk(j, path)|
    decreases |path|, j
  {
    match j
    case Arr(items) => Arr(MergeList(items, path, us))
    case Obj(m) =>
      if path == [] then (if us[0].Some? then Obj(m + us[0].value) else j)
      else (
        match path[0]
        case Key(k) => if k in m then Obj(m[k := Merge(m[k], path[1..], us)]) else j
        case TypeCond(t) => if TypeNameOf(m) == Some(t) then Merge(j, path[1..], us) else j)
    case _ => j
  }

  function MergeList(js: seq<Json>, path: seq<Seg>, us: seq<Option<map<Name, Json>>>): (r: seq<Json>)
    requires |us| == |WalkAll(js, path)|
    ensures |r| == |js|
    decreases |path|, js
  {
    if js == [] then []
    else
      var n := |Walk(js[0], path)|;
      [Merge(js[0], path, us[..n])] + MergeList(js[1..], path, us[n..])
  }

  // ----- the algorithm

  datatype Problem = Unreachable(subgraph: nat) | Upstream(subgraph: nat, count: nat) | Diverged(subgraph: nat)

  /** No merge walk ever missed the objects it had collected. */
  predicate Converged(ps: seq<Problem>) {
    forall i :: 0 <= i < |ps| ==> !ps[i].Diverged?
  }

  /** Resolved values, the problems met and the number of fetches made. */
  datatype Outcome = Outcome(values: seq<Json>, problems: seq<Problem>, fetches: nat)

  function RepsAt(values: seq<Json>, n: FetchNode): seq<Option<map<Name, Json>>> {
    RepsOf(WalkAll(values, n.path), n.cut)
  }

  function Entities(data: Option<map<Name, Json>>): seq<Json> {
    if data.Some? && "_entities" in data.value && data.value["_entities"].Arr?
    then data.value["_entities"].items else []
  }

  /** One cut: a single fetch for all representations, then its children. */
  function FetchCut(ft: Fetch, op: Operation, rv: Name, reps: seq<map<Name, Json>>, cut: Cut): Outcome
    decreases cut, 0
  {
    if reps == [] then Outcome([], [], 0)
    else
      match ft(EntityRequest(op, rv, cut, reps))
      case Failed => Outcome([], [Unreachable(cut.subgraph)], 1)
      case Answer(data, errors) =>
        var r := ResolveNodes(ft, op, rv, Entities(data), cut.children);
        Outcome(r.values, [Upstream(cut.subgraph, errors)] + r.problems, 1 + r.fetches)
  }

  function FetchAll(ft: Fetch, op: Operation, rv: Name, values: seq<Json>, ns: seq<FetchNode>): (outs: seq<Outcome>)
    ensures |outs| == |ns|
    decreases ns, 1
  {
    if ns == [] then []
    else
      var n := |ns| - 1;
      FetchAll(ft, op, rv, values, ns[..n]) + [FetchCut(ft, op, rv, Present(RepsAt(values, ns[n])), ns[n].cut)]
  }

  /** One merge: walks the path again and refuses to merge when the walk
      no longer finds as many objects as were collected. */
  function MergeOne(values: seq<Json>, now: seq<Json>, n: FetchNode, out: Outcome): (seq<Json>, seq<Problem>) {
    var reps := RepsAt(values, n);
    if Present(reps) == [] || out.values == [] then (now, out.problems)
    else if |WalkAll(now, n.path)| != |reps| then (now, out.problems + [Diverged(n.cut.subgraph)])
    else (MergeList(now, n.path, Align(reps, out.values)), out.problems)
  }

  function MergeNodes(values: seq<Json>, ns: seq<FetchNode>, outs: seq<Outcome>): Outcome
    requires |outs| == |ns|
  {
    if ns == [] then Outcome(values, [], 0)
    else
      var n := |ns| - 1;
      var before := MergeNodes(values, ns[..n], outs[..n]);
      var r := MergeOne(values, before.values, ns[n], outs[n]);
      Outcome(r.0, before.problems + r.1, before.fetches + outs[n].fetches)
  }

  /** `resolve_children`: one level of fetches and, recursively, all below. */
  function ResolveNodes(ft: Fetch, op: Operation, rv: Name, values: seq<Json>, ns: seq<FetchNode>): Outcome
    decreases ns, 2
  {
    MergeNodes(values, ns, FetchAll(ft, op, rv, values, ns))
  }

  // ----- cost

  function NodeCount(ns: seq<FetchNode>): nat
    decreases ns
  {
    if ns == [] then 0
    else NodeCount(ns[..|ns| - 1]) + 1 + NodeCount(ns[|ns| - 1].cut.children)
  }

  /** Whatever the subgraphs answer and however much data they return, a
      fetch tree costs at most one fetch per node. */
  lemma {:induction false} FetchBound(ft: Fetch, op: Operation, rv: Name, values: seq<Json>, ns: seq<FetchNode>)
    ensures ResolveNodes(ft, op, rv, values, ns).fetches <= NodeCount(ns)
    decreases ns, 1
  {
    MergeBound(ft, op, rv, values, ns);
  }

  lemma {:induction false} MergeBound(ft: Fetch, op: Operation, rv: Name, values: seq<Json>, ns: seq<FetchNode>)
    ensures MergeNodes(values, ns, FetchAll(ft, op, rv, values, ns)).fetches <= NodeCount(ns)
    decreases ns, 0
  {
    if ns != [] {
      var n := |ns| - 1;
      var outs := FetchAll(ft, op, rv, values, ns);
      assert outs[..n] == FetchAll(ft, op, rv, values, ns[..n]);
      MergeBound(ft, op, rv, values, ns[..n]);
      var reps := Present(RepsAt(values, ns[n]));
      if reps != [] && ft(EntityRequest(op, rv, ns[n].cut, reps)).Answer? {
        FetchBound(ft, op, rv, Entities(ft(EntityRequest(op, rv, ns[n].cut, reps)).data), ns[n].cut.children);
      }
    }
  }
}
