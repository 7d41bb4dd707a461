/** What planner and executor exchange with subgraphs: plans and requests
    whose selections are printed text. */
module Wire {
  import opened Basics
  import opened GraphQl
  import opened Plan
  import opened Printing
  import opened Resolver

  /** A child fetch as the executor receives it. */
  datatype Emitted = Emitted(path: seq<Seg>, typeName: Name, subgraph: nat, keyFields: seq<Name>,
                             text: seq<Tok>, vars: set<Name>, children: seq<Emitted>)

  function Emit(path: seq<Seg>, n: FetchNode): (e: Emitted)
    ensures path == [] ==> e.path == n.path
    decreases n
  {
    Emitted(path + n.path, n.cut.typeName, n.cut.subgraph, n.cut.keyFields,
            RenderFields(n.cut.text), n.cut.vars, EmitAll([], n.cut.children))
  }

  function EmitAll(path: seq<Seg>, ns: seq<FetchNode>): (es: seq<Emitted>)
    ensures |es| == |ns|
    decreases ns
  {
    seq(|ns|, i requires 0 <= i < |ns| => Emit(path, ns[i]))
  }

  /** A request as it is posted. */
  datatype WireRequest = WireRequest(subgraph: nat, reps: Option<(Name, Name)>, text: seq<Tok>,
                                     defs: seq<VarDef>, vars: map<Name, Json>)

  type Post = WireRequest -> Reply

  function OnWire(req: Request): WireRequest {
    WireRequest(req.subgraph, req.reps, RenderFields(req.text), req.defs, req.vars)
  }

  /** Posting printed requests, seen as a fetch of requests. */
  function Via(post: Post): Fetch {
    (req: Request) => post(OnWire(req))
  }

  /** The `_entities` operation of a child fetch. */
  function EntityPost(op: Operation, rv: Name, e: Emitted, reps: seq<map<Name, Json>>): WireRequest {
    WireRequest(e.subgraph, Some((e.typeName, rv)), e.text,
                [VarDef(rv, None)] + UsedDefs(op.defs, e.vars),
                UsedValues(op.raw, e.vars)[rv := Arr(Objects(reps))])
  }

  lemma EntityPosted(op: Operation, rv: Name, n: FetchNode, reps: seq<map<Name, Json>>)
    ensures EntityPost(op, rv, Emit([], n), reps) == OnWire(EntityRequest(op, rv, n.cut, reps))
  {
  }
}
