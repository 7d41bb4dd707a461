/** What the gateway makes of replies that are not faithful: subgraphs may
    fail, report errors beside their data, and list entities as they like. */
module Replies {
  import opened Basics
  import opened GraphQl
  import opened Plan
  import opened PlanFacts
  import opened Exec
  import opened Resolver
  import opened Merging
  import M = Merging
  import opened Convergence
  import opened Wire
  import opened EndToEnd
  import R = Refinement

  // ----- error counts never change the data

  /** The replies fail alike and carry the same data. */
  predicate SameData(a: Reply, b: Reply) {
    match (a, b)
    case (Failed, Failed) => true
    case (Answer(d, _), Answer(d', _)) => d == d'
    case _ => false
  }

  ghost predicate SameAnswers(ft: Fetch, ft': Fetch) {
    forall req :: SameData(ft(req), ft'(req))
  }

  /** A problem without its error count. */
  function Uncounted(p: Problem): Problem {
    if p.Upstream? then p.(count := 0) else p
  }

  function AllUncounted(ps: seq<Problem>): (r: seq<Problem>)
    ensures |r| == |ps|
  {
    seq(|ps|, i requires 0 <= i < |ps| => Uncounted(ps[i]))
  }

  /** The same up to error counts. */
  predicate SameOutcome(a: Outcome, b: Outcome) {
    a.values == b.values && a.fetches == b.fetches && AllUncounted(a.problems) == AllUncounted(b.problems)
  }

  lemma UncountedAppend(a: seq<Problem>, b: seq<Problem>)
    ensures AllUncounted(a + b) == AllUncounted(a) + AllUncounted(b)
  {
  }

  lemma {:induction false} FetchSame(ft: Fetch, ft': Fetch, op: Operation, rv: Name, reps: seq<map<Name, Json>>, cut: Cut)
    requires SameAnswers(ft, ft')
    ensures SameOutcome(FetchCut(ft, op, rv, reps, cut), FetchCut(ft', op, rv, reps, cut))
    decreases cut, 0
  {
    var req := EntityRequest(op, rv, cut, reps);
    assert SameData(ft(req), ft'(req));
    if reps != [] && ft(req).Answer? {
      var es := Entities(ft(req).data);
      ResolveSame(ft, ft', op, rv, es, cut.children);
      var r, r' := ResolveNodes(ft, op, rv, es, cut.children), ResolveNodes(ft', op, rv, es, cut.children);
      UncountedAppend([Upstream(cut.subgraph, ft(req).errors)], r.problems);
      UncountedAppend([Upstream(cut.subgraph, ft'(req).errors)], r'.problems);
    }
  }

  /** Resolution depends on which fetches fail and on their data alone:
      values, fetches and problems are the same but for the counts. */
  lemma {:induction false} ResolveSame(ft: Fetch, ft': Fetch, op: Operation, rv: Name, values: seq<Json>, ns: seq<FetchNode>)
    requires SameAnswers(ft, ft')
    ensures SameOutcome(ResolveNodes(ft, op, rv, values, ns), ResolveNodes(ft', op, rv, values, ns))
    decreases ns, 1
  {
    if ns != [] {
      var n := |ns| - 1;
      var outs, outs' := FetchAll(ft, op, rv, values, ns), FetchAll(ft', op, rv, values, ns);
      assert outs[..n] == FetchAll(ft, op, rv, values, ns[..n]) && outs'[..n] == FetchAll(ft', op, rv, values, ns[..n]);
      ResolveSame(ft, ft', op, rv, values, ns[..n]);
      FetchSame(ft, ft', op, rv, Present(RepsAt(values, ns[n])), ns[n].cut);
      var before, before' := MergeNodes(values, ns[..n], outs[..n]), MergeNodes(values, ns[..n], outs'[..n]);
      MergeSame(values, before.values, ns[n], outs[n], outs'[n]);
      UncountedAppend(before.problems, MergeOne(values, before.values, ns[n], outs[n]).1);
      UncountedAppend(before'.problems, MergeOne(values, before.values, ns[n], outs'[n]).1);
    }
  }

  lemma {:induction false} MergeSame(values: seq<Json>, now: seq<Json>, n: FetchNode, out: Outcome, out': Outcome)
    requires SameOutcome(out, out')
    ensures var r, r' := MergeOne(values, now, n, out), MergeOne(values, now, n, out');
            r.0 == r'.0 && AllUncounted(r.1) == AllUncounted(r'.1)
  {
    UncountedAppend(out.problems, [Diverged(n.cut.subgraph)]);
    UncountedAppend(out'.problems, [Diverged(n.cut.subgraph)]);
  }

  // ----- which entity of a reply reaches which object

  /** Entities keep their places, and their keys, while their own children
      are resolved. */
  lemma {:induction false} EntitiesStay(ft: Fetch, op: Operation, rv: Name, es: seq<Json>, ns: seq<FetchNode>)
    requires forall n :: n in ns ==> n.path != [] && n.path[0].Key?
    ensures var r := ResolveNodes(ft, op, rv, es, ns).values;
            |r| == |es| && forall i :: 0 <= i < |es| ==> Grows(es[i], r[i])
  {
    ObjectsStay(es, ns, FetchAll(ft, op, rv, es, ns));
  }

  /** The same kind of value; an object with the same members' names. */
  ghost predicate Grows(j: Json, j': Json) {
    (j.Obj? <==> j'.Obj?) && (j.Obj? ==> j'.fields.Keys == j.fields.Keys)
  }

  lemma {:induction false} ListGrows(js: seq<Json>, path: seq<Seg>, us: seq<Option<map<Name, Json>>>)
    requires |us| == |WalkAll(js, path)| && path != [] && path[0].Key?
    ensures forall i :: 0 <= i < |js| ==> Grows(js[i], MergeList(js, path, us)[i])
  {
    if js != [] {
      var n := |Walk(js[0], path)|;
      ListGrows(js[1..], path, us[n..]);
      var rest := MergeList(js[1..], path, us[n..]);
      assert MergeList(js, path, us) == [Merge(js[0], path, us[..n])] + rest;
      forall i | 0 <= i < |js| ensures Grows(js[i], MergeList(js, path, us)[i]) {
        if i > 0 {
          assert js[i] == js[1..][i - 1] && MergeList(js, path, us)[i] == rest[i - 1];
        }
      }
    }
  }

  lemma {:induction false} ObjectsStay(values: seq<Json>, ns: seq<FetchNode>, outs: seq<Outcome>)
    requires |outs| == |ns| && forall n :: n in ns ==> n.path != [] && n.path[0].Key?
    ensures var r := MergeNodes(values, ns, outs).values;
            |r| == |values| && forall i :: 0 <= i < |values| ==> Grows(values[i], r[i])
  {
    if ns != [] {
      var i := |ns| - 1;
      ObjectsStay(values, ns[..i], outs[..i]);
      assert ns[i] in ns;
      var before := MergeNodes(values, ns[..i], outs[..i]).values;
      var reps := RepsAt(values, ns[i]);
      if Present(reps) != [] && outs[i].values != [] && |WalkAll(before, ns[i].path)| == |reps| {
        var us := Align(reps, outs[i].values);
        ListGrows(before, ns[i].path, us);
        forall k | 0 <= k < |values| ensures Grows(values[k], MergeList(before, ns[i].path, us)[k]) {
          assert Grows(before[k], MergeList(before, ns[i].path, us)[k]) && Grows(values[k], before[k]);
        }
      }
    }
  }

  /** The reply lists these entities; it may report any number of errors. */
  predicate Lists(reply: Reply, es: seq<Json>) {
    && reply.Answer?
    && reply.data.Some?
    && "_entities" in reply.data.value
    && reply.data.value["_entities"] == Arr(es)
  }

  /** The reply lists nothing: no answer, no data, no list. */
  predicate ListsNone(reply: Reply) {
    || reply.Failed?
    || reply.data.None?
    || "_entities" !in reply.data.value
    || !reply.data.value["_entities"].Arr?
  }

  /** The values before and after the merge of fetch `c` of a level. */
  function MergedTo(ft: Fetch, op: Operation, rv: Name, values: seq<Json>, ns: seq<FetchNode>, c: nat): seq<Json>
    requires c <= |ns|
  {
    ResolveNodes(ft, op, rv, values, ns[..c]).values
  }

  lemma {:induction false} MergedStep(ft: Fetch, op: Operation, rv: Name, values: seq<Json>, ns: seq<FetchNode>, c: nat)
    requires c < |ns|
    ensures MergedTo(ft, op, rv, values, ns, c + 1) ==
            MergeOne(values, MergedTo(ft, op, rv, values, ns, c), ns[c], FetchCut(ft, op, rv, Present(RepsAt(values, ns[c])), ns[c].cut)).0
  {
    var ms := ns[..c + 1];
    assert ms[..c] == ns[..c] && ms[c] == ns[c];
    var outs := FetchAll(ft, op, rv, values, ms);
    assert outs[..c] == FetchAll(ft, op, rv, values, ns[..c]);
  }

  /** What object `m` becomes when the reply's entity for it is `e`, with the
      entity's own fetches resolved into `r`. */
  predicate Receives(m: map<Name, Json>, e: Option<Json>, r: Json, now: Json) {
    if e.Some? && e.value.Obj? then r.Obj? && r.fields.Keys == e.value.fields.Keys && now == Obj(m + r.fields)
    else now == Obj(m)
  }

  /** For every reply, whatever errors it reports: the i-th walked object
      receives the entity whose index is the number of representations sent
      before its own, and nothing when it sent none, or when that entity is
      missing or no object. */
  lemma {:induction false} EntityDelivered(ft: Fetch, op: Operation, rv: Name, values: seq<Json>, ns: seq<FetchNode>, c: nat, es: seq<Json>, i: nat)
    requires c < |ns| && forall n :: n in ns[c].cut.children ==> n.path != [] && n.path[0].Key?
    requires Lists(ft(EntityRequest(op, rv, ns[c].cut, Present(RepsAt(values, ns[c])))), es)
    requires var now := MergedTo(ft, op, rv, values, ns, c);
             i < |WalkAll(now, ns[c].path)| == |RepsAt(values, ns[c])|
    ensures var now, after := MergedTo(ft, op, rv, values, ns, c), MergedTo(ft, op, rv, values, ns, c + 1);
            var reps, locs := RepsAt(values, ns[c]), LocsFrom(now, ns[c].path, 0);
            var own := |Present(reps[..i])|;
            var rs := ResolveNodes(ft, op, rv, es, ns[c].cut.children).values;
            && |rs| == |es| && |locs| == |reps|
            && M.At(Arr(now), locs[i]) == Some(Obj(WalkAll(now, ns[c].path)[i]))
            && M.At(Arr(after), locs[i]).Some?
            && Receives(WalkAll(now, ns[c].path)[i], if reps[i].Some? && own < |es| then Some(es[own]) else None,
                        if own < |es| then rs[own] else Null, M.At(Arr(after), locs[i]).value)
  {
    var n := ns[c];
    var reps := RepsAt(values, n);
    var now := MergedTo(ft, op, rv, values, ns, c);
    MergedStep(ft, op, rv, values, ns, c);
    EntitiesStay(ft, op, rv, es, n.cut.children);
    LocsFromLength(now, n.path, 0);
    var rs := ResolveNodes(ft, op, rv, es, n.cut.children).values;
    var us := Align(reps, rs);
    MergeListAt(now, n.path, us, i, 0, []);
    assert [] + now == now && [] + MergeList(now, n.path, us) == MergeList(now, n.path, us);
    AlignAt(reps, rs, i);
    if Present(reps) == [] || es == [] {
      NothingSent(now, n.path, us, reps, rs);
    }
  }

  lemma {:induction false} NothingSent(now: seq<Json>, path: seq<Seg>, us: seq<Option<map<Name, Json>>>, reps: seq<Option<map<Name, Json>>>, es: seq<Json>)
    requires us == Align(reps, es) && |us| == |WalkAll(now, path)| && (Present(reps) == [] || es == [])
    ensures MergeList(now, path, us) == now
  {
    forall u | u in us ensures u.None? {
      var i :| 0 <= i < |us| && us[i] == u;
      AlignAt(reps, es, i);
      if Present(reps) == [] {
        R.NonePresent(reps);
        assert reps[i] in reps;
      }
    }
    R.MergeNothing(now, path, us);
  }

  /** A reply that lists nothing leaves every value alone. */
  lemma {:induction false} NothingDelivered(ft: Fetch, op: Operation, rv: Name, values: seq<Json>, ns: seq<FetchNode>, c: nat)
    requires c < |ns| && forall n :: n in ns[c].cut.children ==> n.path != [] && n.path[0].Key?
    requires ListsNone(ft(EntityRequest(op, rv, ns[c].cut, Present(RepsAt(values, ns[c])))))
    ensures MergedTo(ft, op, rv, values, ns, c + 1) == MergedTo(ft, op, rv, values, ns, c)
  {
    MergedStep(ft, op, rv, values, ns, c);
    EntitiesStay(ft, op, rv, [], ns[c].cut.children);
  }

  // ----- the value of a root field

  /** The data of a reply, `{}` when it has none. */
  function ReplyData(reply: Reply): map<Name, Json>
    requires reply.Answer?
  {
    if reply.data.Some? then reply.data.value else map[]
  }

  function ReplyFor(ft: Fetch, e: Engine, op: Operation, fs: seq<Field>, owner: nat): Reply {
    ft(RootRequest(op, owner, PrintedAll(e, owner, fs)))
  }

  /** The member a root field resolves to: that of the reply's data, with all
      fetches below it merged. */
  lemma {:induction false} RootMember(ft: Fetch, e: Engine, op: Operation, rv: Name, fs: seq<Field>, owner: nat, data: map<Name, Json>)
    ensures var out := ResolveNodes(ft, op, rv, [Obj(data)], FieldsNodes(e, owner, fs)).values;
            |out| == 1 && out[0].Obj? && out[0].fields.Keys == data.Keys
  {
    FieldsPaths(e, owner, fs);
    EntitiesStay(ft, op, rv, [Obj(data)], FieldsNodes(e, owner, fs));
    var out := ResolveNodes(ft, op, rv, [Obj(data)], FieldsNodes(e, owner, fs)).values;
    assert Grows([Obj(data)][0], out[0]);
  }

  /** A root field is an error exactly when no subgraph owns it, its fetch
      fails, or the reply lacks the member and reports errors; a member the
      reply has is the value whatever else it reports. */
  lemma {:induction false} RootValueExact(ft: Fetch, e: Engine, op: Operation, rv: Name, k: Name, fs: seq<Field>)
    requires fs != []
    ensures var v, owner := RunRoot(ft, e, op, rv, k, fs), RootOwner(e, fs[0].name);
            && (v.FieldError? <==>
                  || owner.None?
                  || ReplyFor(ft, e, op, fs, owner.value).Failed?
                  || (k !in ReplyData(ReplyFor(ft, e, op, fs, owner.value)) && ReplyFor(ft, e, op, fs, owner.value).errors > 0))
            && (owner.Some? && ReplyFor(ft, e, op, fs, owner.value).Answer? ==>
                  var data := ReplyData(ReplyFor(ft, e, op, fs, owner.value));
                  var out := ResolveNodes(ft, op, rv, [Obj(data)], FieldsNodes(e, owner.value, fs)).values;
                  && |out| == 1 && out[0].Obj?
                  && (k in data ==> k in out[0].fields && v == Value(out[0].fields[k]))
                  && (k !in data && v.Value? ==> v == Value(Null)))
  {
    var owner := RootOwner(e, fs[0].name);
    if owner.Some? && ReplyFor(ft, e, op, fs, owner.value).Answer? {
      RootMember(ft, e, op, rv, fs, owner.value, ReplyData(ReplyFor(ft, e, op, fs, owner.value)));
    }
  }

  /** Error counts never change what the client gets under a key. */
  lemma {:induction false} KeyAnswerSame(ft: Fetch, ft': Fetch, s: Sup, op: Operation, rv: Name, fs: seq<Field>, k: Name)
    requires SameAnswers(ft, ft') && k in Keys(fs)
    ensures ExecuteKey(ft, s, op, rv, fs, k) == ExecuteKey(ft', s, op, rv, fs, k)
  {
    var gs := With(fs, k);
    var owner := RootOwner(s.e, gs[0].name);
    RootValueExact(ft, s.e, op, rv, k, gs);
    RootValueExact(ft', s.e, op, rv, k, gs);
    if owner.Some? {
      var req := RootRequest(op, owner.value, PrintedAll(s.e, owner.value, gs));
      assert SameData(ft(req), ft'(req));
      if ft(req).Answer? {
        ResolveSame(ft, ft', op, rv, [Obj(ReplyData(ft(req)))], FieldsNodes(s.e, owner.value, gs));
      }
    }
  }

  /** Nor any member of the response: partial data beside errors is data. */
  lemma {:induction false} ResponseSame(ft: Fetch, ft': Fetch, s: Sup, op: Operation, rv: Name, sels: seq<Sel>)
    requires SameAnswers(ft, ft')
    ensures Execute(ft, s, op, rv, sels) == Execute(ft', s, op, rv, sels)
  {
    var fs := Collect(s.schema.ps, QUERY, sels);
    forall k | k in Keys(fs) ensures ExecuteKey(ft, s, op, rv, fs, k) == ExecuteKey(ft', s, op, rv, fs, k) {
      KeyAnswerSame(ft, ft', s, op, rv, fs, k);
    }
  }

  /** The same on the wire: with `RunDocument`, for every document. */
  lemma {:induction false} DocumentSame(post: Post, post': Post, s: Sup, op: Operation, rv: Name, sels: seq<Sel>)
    requires forall req :: SameData(post(req), post'(req))
    ensures Execute(Via(post), s, op, rv, sels) == Execute(Via(post'), s, op, rv, sels)
  {
    forall req ensures SameData(Via(post)(req), Via(post')(req)) {
      assert SameData(post(OnWire(req)), post'(OnWire(req)));
    }
    ResponseSame(Via(post), Via(post'), s, op, rv, sels);
  }

  /** The reply leaves a hole under `k` that it explains with errors. */
  predicate Missing(reply: Reply, k: Name) {
    reply.Failed? || (k !in ReplyData(reply) && reply.errors > 0)
  }

  /** What a fetch brings of a reply that lists `es`, whatever its errors. */
  lemma {:induction false} FetchLists(ft: Fetch, op: Operation, rv: Name, reps: seq<map<Name, Json>>, cut: Cut, es: seq<Json>)
    requires reps != [] && Lists(ft(EntityRequest(op, rv, cut, reps)), es)
    ensures var out, r := FetchCut(ft, op, rv, reps, cut), ResolveNodes(ft, op, rv, es, cut.children);
            && out.values == r.values && out.fetches == 1 + r.fetches
            && out.problems == [Upstream(cut.subgraph, ft(EntityRequest(op, rv, cut, reps)).errors)] + r.problems
  {
  }

  // ----- every fetch is reported

  /** The requests one fetch makes: its own, then those for its entities. */
  function RequestsOf(ft: Fetch, op: Operation, rv: Name, reps: seq<map<Name, Json>>, cut: Cut): seq<Request>
    decreases cut, 0
  {
    if reps == [] then []
    else
      var req := EntityRequest(op, rv, cut, reps);
      [req] + if ft(req).Failed? then [] else Requests(ft, op, rv, Entities(ft(req).data), cut.children)
  }

  /** The requests a level makes, fetch by fetch: one per fetch whose path
      names a representable object. */
  function Requests(ft: Fetch, op: Operation, rv: Name, values: seq<Json>, ns: seq<FetchNode>): seq<Request>
    decreases ns, 1
  {
    if ns == [] then []
    else
      var n := |ns| - 1;
      Requests(ft, op, rv, values, ns[..n]) + RequestsOf(ft, op, rv, Present(RepsAt(values, ns[n])), ns[n].cut)
  }

  /** What the client is told of one request. */
  function Report(ft: Fetch, req: Request): Problem {
    match ft(req)
    case Failed => Unreachable(req.subgraph)
    case Answer(_, errors) => Upstream(req.subgraph, errors)
  }

  function Reports(ft: Fetch, reqs: seq<Request>): (ps: seq<Problem>)
    ensures |ps| == |reqs|
  {
    seq(|reqs|, i requires 0 <= i < |reqs| => Report(ft, reqs[i]))
  }

  /** The problems that subgraphs reported. */
  function Reported(ps: seq<Problem>): seq<Problem> {
    if ps == [] then []
    else Reported(ps[..|ps| - 1]) + if ps[|ps| - 1].Diverged? then [] else [ps[|ps| - 1]]
  }

  lemma {:induction false} ReportedAppend(a: seq<Problem>, b: seq<Problem>)
    ensures Reported(a + b) == Reported(a) + Reported(b)
  {
    if b == [] {
      assert a + b == a;
    } else {
      var n := |b| - 1;
      assert (a + b)[..|a| + n] == a + b[..n];
      ReportedAppend(a, b[..n]);
    }
  }

  lemma {:induction false} ReportedOne(p: Problem)
    ensures Reported([p]) == if p.Diverged? then [] else [p]
  {
    assert [p][..0] == [];
  }

  lemma ReportsAppend(ft: Fetch, a: seq<Request>, b: seq<Request>)
    ensures Reports(ft, a + b) == Reports(ft, a) + Reports(ft, b)
  {
  }

  lemma {:induction false} OneMoreReported(ft: Fetch, req: Request, ps: seq<Problem>, reqs: seq<Request>)
    requires Reported(ps) == Reports(ft, reqs)
    ensures Reported([Report(ft, req)] + ps) == Reports(ft, [req] + reqs)
  {
    ReportedOne(Report(ft, req));
    ReportedAppend([Report(ft, req)], ps);
    ReportsAppend(ft, [req], reqs);
  }

  lemma {:induction false} FetchReported(ft: Fetch, op: Operation, rv: Name, reps: seq<map<Name, Json>>, cut: Cut)
    ensures var out, reqs := FetchCut(ft, op, rv, reps, cut), RequestsOf(ft, op, rv, reps, cut);
            out.fetches == |reqs| && Reported(out.problems) == Reports(ft, reqs)
    decreases cut, 0
  {
    var req := EntityRequest(op, rv, cut, reps);
    if reps != [] {
      match ft(req)
      case Failed => OneMoreReported(ft, req, [], []);
      case Answer(data, _) =>
        EveryFetchReported(ft, op, rv, Entities(data), cut.children);
        OneMoreReported(ft, req, ResolveNodes(ft, op, rv, Entities(data), cut.children).problems,
                        Requests(ft, op, rv, Entities(data), cut.children));
    }
  }

  /** No failure is silent and none is invented: apart from merges that
      missed their objects, the problems are, request by request, a failure
      or the number of errors of its reply; and each request is one fetch. */
  lemma {:induction false} EveryFetchReported(ft: Fetch, op: Operation, rv: Name, values: seq<Json>, ns: seq<FetchNode>)
    ensures var out, reqs := ResolveNodes(ft, op, rv, values, ns), Requests(ft, op, rv, values, ns);
            out.fetches == |reqs| && Reported(out.problems) == Reports(ft, reqs)
    decreases ns, 1
  {
    if ns != [] {
      var n := |ns| - 1;
      var outs := FetchAll(ft, op, rv, values, ns);
      assert outs[..n] == FetchAll(ft, op, rv, values, ns[..n]);
      EveryFetchReported(ft, op, rv, values, ns[..n]);
      var reps := Present(RepsAt(values, ns[n]));
      FetchReported(ft, op, rv, reps, ns[n].cut);
      var before := MergeNodes(values, ns[..n], outs[..n]);
      var merged := MergeOne(values, before.values, ns[n], outs[n]).1;
      ReportedAppend(outs[n].problems, [Diverged(ns[n].cut.subgraph)]);
      ReportedOne(Diverged(ns[n].cut.subgraph));
      assert Reported(merged) == Reported(outs[n].problems);
      ReportedAppend(before.problems, merged);
      ReportsAppend(ft, Requests(ft, op, rv, values, ns[..n]), RequestsOf(ft, op, rv, reps, ns[n].cut));
    }
  }

  // ----- representations of any object

  /** What an object holds for key field `k`: the aliased member if there is
      one, the plain member otherwise, nothing when that is null. */
  function Held(m: map<Name, Json>, k: Name): Option<Json> {
    var v := if KeyAlias(k) in m then Some(m[KeyAlias(k)]) else if k in m then Some(m[k]) else None;
    if v == Some(Null) then None else v
  }

  lemma {:induction false} KeyMembersExact(m: map<Name, Json>, ks: seq<Name>)
    ensures KeyMembers(m, ks).Some? <==> forall k :: k in ks ==> Held(m, k).Some?
    ensures KeyMembers(m, ks).Some? ==>
              && KeyMembers(m, ks).value.Keys == (set k | k in ks)
              && forall k :: k in ks ==> Some(KeyMembers(m, ks).value[k]) == Held(m, k)
  {
    if ks != [] {
      var n := |ks| - 1;
      KeyMembersExact(m, ks[..n]);
      assert ks == ks[..n] + [ks[n]] && ks[n] in ks;
      assert forall k :: k in ks <==> k in ks[..n] || k == ks[n];
      assert Held(m, ks[n]).Some? <==> KeyMembers(m, ks).Some? || (KeyMembers(m, ks[..n]).None? && Held(m, ks[n]).Some?);
    }
  }

  /** An object is represented exactly when it names the fetched type or no
      type, and holds every key field; the representation then names that
      type and carries what the object holds, and nothing else. */
  lemma {:induction false} RepExact(m: map<Name, Json>, cut: Cut)
    requires TYPENAME !in cut.keyFields
    ensures RepOf(m, cut).Some? <==>
              && (TYPENAME in m && m[TYPENAME].Str? ==> m[TYPENAME] == Str(cut.typeName))
              && forall k :: k in cut.keyFields ==> Held(m, k).Some?
    ensures RepOf(m, cut).Some? ==>
              && RepOf(m, cut).value.Keys == (set k | k in cut.keyFields) + {TYPENAME}
              && RepOf(m, cut).value[TYPENAME] == Str(cut.typeName)
              && forall k :: k in cut.keyFields ==> Some(RepOf(m, cut).value[k]) == Held(m, k)
  {
    KeyMembersExact(m, cut.keyFields);
  }

  // ----- stitching data with holes

  /** Stitching any object: it has exactly the selected response keys; the
      type name is shown, a leaf is passed on, a missing member is null; and
      at an abstract type an object that names no type is null. */
  lemma {:induction false} StitchExact(s: Schema, m: map<Name, Json>, ty: Name, sels: seq<Sel>)
    requires s.Composite(ty)
    ensures var named := TYPENAME in m && m[TYPENAME].Str?;
            var j := Project(s, Obj(m), ty, sels);
            if !s.IsObject(ty) && !named then j == Null
            else
              var t := if s.IsObject(ty) then ty else m[TYPENAME].s;
              var fs := Collect(s.ps, t, sels);
              j.Obj? && j.fields.Keys == Keys(fs) && forall k :: k in Keys(fs) ==> ShownAs(s, m, t, With(fs, k)[0], k, j.fields[k])
  {
    var named := TYPENAME in m && m[TYPENAME].Str?;
    if s.IsObject(ty) || named {
      var t := if s.IsObject(ty) then ty else m[TYPENAME].s;
      var fs := Collect(s.ps, t, sels);
      var r := ProjectObj(s, m, t, fs);
      assert Project(s, Obj(m), ty, sels) == Obj(r);
      forall k | k in Keys(fs) ensures ShownAs(s, m, t, With(fs, k)[0], k, r[k]) {
        var g := With(fs, k)[0];
        assert r[k] == ProjectKey(s, m, t, fs, k);
        if k in m && (t, g.name) in s.fieldTy {
          LeafPassed(s, m[k], s.fieldTy[(t, g.name)], Subs(With(fs, k)));
        }
      }
    }
  }

  lemma {:induction false} LeafPassed(s: Schema, j: Json, ty: Name, sels: seq<Sel>)
    ensures j == Null || !s.Composite(ty) ==> Project(s, j, ty, sels) == j
  {
  }

  /** What is shown under `k` for field `g` of an object of type `t`. */
  predicate ShownAs(s: Schema, m: map<Name, Json>, t: Name, g: Field, k: Name, j: Json) {
    && (g.name == TYPENAME ==> j == Str(t))
    && (g.name != TYPENAME && (k !in m || m[k] == Null) ==> j == Null)
    && (g.name != TYPENAME && k in m && (t, g.name) in s.fieldTy && !s.Composite(s.fieldTy[(t, g.name)]) ==> j == m[k])
  }
}
