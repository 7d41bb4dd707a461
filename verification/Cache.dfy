/** The shared response cache: storage keys, stored entries, and the protocol
    of lookups, upstream answers, body polls, background writes and expiry. */
module Cache {
  import opened Basics
  import opened Base64
  import opened Recording
  import opened Splitting

  // ----- storage keys

  /** What a cached answer is filed under: a request line of the HTTP cache,
      or an operation of the GraphQL cache (`vars` in canonical form). */
  datatype Subject =
    | Http(org: string, scope: string, verb: string, target: string)
    | Gql(org: string, scope: string, sdl: string, name: string, query: string, vars: string)

  function CachePrefix(org: string, scope: string): string {
    "g2:" + org + ":cache:" + scope + ":"
  }

  function Material(s: Subject): string {
    match s
    case Http(_, _, verb, target) => verb + [' '] + target
    case Gql(_, _, sdl, name, query, vars) => sdl + ['\n'] + (name + ['\n'] + (query + ['\n'] + vars))
  }

  function PrefixOf(s: Subject): string {
    CachePrefix(s.org, if s.Http? then s.scope else s.scope + ":graphql")
  }

  function StorageKey(hash: string -> string, s: Subject): string {
    PrefixOf(s) + hash(Material(s))
  }

  /** As requests arrive: methods hold no space, a request line, a schema
      digest and an operation name no newline. */
  predicate WellFormed(s: Subject) {
    && (s.Http? ==> ' ' !in s.verb && '\n' !in s.verb && '\n' !in s.target)
    && (s.Gql? ==> '\n' !in s.sdl && '\n' !in s.name)
  }

  /** Organisation ids without a colon and variables on one line. */
  predicate Unambiguous(s: Subject) {
    ':' !in s.org && (s.Gql? ==> '\n' !in s.vars)
  }

  /** A collision-free digest of fixed length. */
  ghost predicate Collisionless(hash: string -> string) {
    && (forall a, b :: hash(a) == hash(b) ==> a == b)
    && (forall a, b :: |hash(a)| == |hash(b)|)
  }

  /** Where a subject is filed: organisation and API, as one text. */
  function Place(s: Subject): string {
    s.org + ":cache:" + (if s.Http? then s.scope else s.scope + ":graphql")
  }

  /** Storage keys agree exactly when the place and the digested text do. */
  lemma {:induction false} KeysAgree(hash: string -> string, s: Subject, s': Subject)
    requires Collisionless(hash)
    ensures StorageKey(hash, s) == StorageKey(hash, s') <==> Place(s) == Place(s') && Material(s) == Material(s')
  {
    assert PrefixOf(s) == "g2:" + Place(s) + ":" && PrefixOf(s') == "g2:" + Place(s') + ":";
    if StorageKey(hash, s) == StorageKey(hash, s') {
      SplitAt(PrefixOf(s), hash(Material(s)), PrefixOf(s'), hash(Material(s')));
      SplitAt("g2:" + Place(s), ":", "g2:" + Place(s'), ":");
      SplitAt("g2:", Place(s), "g2:", Place(s'));
    }
  }

  /** The place does not determine the organisation when its id holds a
      colon: two organisations then share every entry of these two APIs. */
  lemma {:induction false} ColonsCoincide(hash: string -> string, s: Subject)
    ensures var a := s.(org := "a:cache:b", scope := "c");
            var b := s.(org := "a", scope := "b:cache:c");
            a.org != b.org && StorageKey(hash, a) == StorageKey(hash, b)
  {
    var a, b := s.(org := "a:cache:b", scope := "c"), s.(org := "a", scope := "b:cache:c");
    var tail := if s.Http? then "" else ":graphql";
    assert "a:cache:b" + ":cache:" + ("c" + tail) == "a" + ":cache:" + ("b:cache:c" + tail);
    assert "c" + "" == "c" && "b:cache:c" + "" == "b:cache:c";
    assert PrefixOf(a) == "g2:" + ("a:cache:b" + ":cache:" + ("c" + tail)) + ":";
    assert PrefixOf(b) == "g2:" + ("a" + ":cache:" + ("b:cache:c" + tail)) + ":";
    assert |"a:cache:b"| == 9 && |"a"| == 1;
  }

  lemma {:induction false} PrefixExact(org: string, scope: string, org': string, scope': string)
    requires ':' !in org && ':' !in org' && CachePrefix(org, scope) == CachePrefix(org', scope')
    ensures org == org' && scope == scope'
  {
    var rest, rest' := "cache:" + scope + ":", "cache:" + scope' + ":";
    assert CachePrefix(org, scope) == "g2:" + (org + [':'] + rest);
    assert CachePrefix(org', scope') == "g2:" + (org' + [':'] + rest');
    SplitAt("g2:", org + [':'] + rest, "g2:", org' + [':'] + rest');
    SplitFirst(org, rest, org', rest', ':');
    assert rest == "cache:" + (scope + ":") && rest' == "cache:" + (scope' + ":");
    SplitAt("cache:", scope + ":", "cache:", scope' + ":");
    SplitAt(scope, ":", scope', ":");
  }

  /** Filed in one place in the same cache, with one request line, or one
      schema, operation name, and text of query and variables. */
  predicate Alike(s: Subject, s': Subject) {
    && Place(s) == Place(s')
    && s.Http? == s'.Http?
    && (s.Http? ==> s.verb == s'.verb && s.target == s'.target)
    && (s.Gql? ==> s.sdl == s'.sdl && s.name == s'.name && s.query + ['\n'] + s.vars == s'.query + ['\n'] + s'.vars)
  }

  /** The two caches never digest the same text, and each digests what its
      subjects are alike in. */
  lemma {:induction false} MaterialExact(s: Subject, s': Subject)
    requires WellFormed(s) && WellFormed(s') && Place(s) == Place(s')
    ensures Material(s) == Material(s') <==> Alike(s, s')
  {
    if Material(s) == Material(s') {
      if s.Gql? {
        assert '\n' in Material(s) by { assert Material(s)[|s.sdl|] == '\n'; }
      }
      if s'.Gql? {
        assert '\n' in Material(s') by { assert Material(s')[|s'.sdl|] == '\n'; }
      }
      match (s, s')
      case (Http(_, _, m, t), Http(_, _, m', t')) => SplitFirst(m, t, m', t', ' ');
      case (Gql(_, _, d, n, q, v), Gql(_, _, d', n', q', v')) =>
        SplitFirst(d, n + ['\n'] + (q + ['\n'] + v), d', n' + ['\n'] + (q' + ['\n'] + v'), '\n');
        SplitFirst(n, q + ['\n'] + v, n', q' + ['\n'] + v', '\n');
      case _ => NoNewline(if s.Http? then s else s');
    }
  }

  lemma NoNewline(s: Subject)
    requires s.Http? && WellFormed(s)
    ensures '\n' !in Material(s)
  {
  }

  /** Two subjects share a storage key exactly when they are alike; in
      particular no GraphQL key is an HTTP key. */
  lemma {:induction false} KeysExact(hash: string -> string, s: Subject, s': Subject)
    requires Collisionless(hash) && WellFormed(s) && WellFormed(s')
    ensures StorageKey(hash, s) == StorageKey(hash, s') <==> Alike(s, s')
  {
    KeysAgree(hash, s, s');
    if Place(s) == Place(s') {
      MaterialExact(s, s');
    }
  }

  /** Colon-free organisations: one place means one organisation and API. */
  lemma {:induction false} PlaceExact(org: string, scope: string, org': string, scope': string)
    requires ':' !in org && ':' !in org' && org + ":cache:" + scope == org' + ":cache:" + scope'
    ensures org == org' && scope == scope'
  {
    assert CachePrefix(org, scope) == "g2:" + (org + ":cache:" + scope) + ":";
    assert CachePrefix(org', scope') == "g2:" + (org' + ":cache:" + scope') + ":";
    PrefixExact(org, scope, org', scope');
  }

  /** Without colons and line breaks, alike is the same. */
  lemma {:induction false} AlikeExact(s: Subject, s': Subject)
    requires WellFormed(s) && WellFormed(s') && Unambiguous(s) && Unambiguous(s')
    ensures Alike(s, s') <==> s == s'
  {
    if Alike(s, s') {
      if s.Http? {
        PlaceExact(s.org, s.scope, s'.org, s'.scope);
      } else {
        PlaceExact(s.org, s.scope + ":graphql", s'.org, s'.scope + ":graphql");
        SplitAt(s.scope, ":graphql", s'.scope, ":graphql");
        SplitLast(s.query, s.vars, s'.query, s'.vars, '\n');
      }
    }
  }

  /** The prefixes alone do not keep the caches apart: the HTTP cache of an
      API version named `graphql` shares the prefix of that API's GraphQL
      cache; only the digests differ. */
  lemma {:induction false} PrefixesCoincide(hash: string -> string, http: Subject, gql: Subject)
    requires Collisionless(hash) && WellFormed(http) && WellFormed(gql) && http.Http? && gql.Gql?
    ensures PrefixOf(http) == PrefixOf(gql) <==> http.org + ":cache:" + http.scope == gql.org + ":cache:" + (gql.scope + ":graphql")
    ensures Unambiguous(http) && Unambiguous(gql) ==>
              (PrefixOf(http) == PrefixOf(gql) <==> http.org == gql.org && http.scope == gql.scope + ":graphql")
    ensures StorageKey(hash, http) != StorageKey(hash, gql)
  {
    assert PrefixOf(http) == "g2:" + Place(http) + ":" && PrefixOf(gql) == "g2:" + Place(gql) + ":";
    if PrefixOf(http) == PrefixOf(gql) {
      SplitAt("g2:" + Place(http), ":", "g2:" + Place(gql), ":");
      SplitAt("g2:", Place(http), "g2:", Place(gql));
      if Unambiguous(http) && Unambiguous(gql) {
        PrefixExact(http.org, http.scope, gql.org, gql.scope + ":graphql");
      }
    }
    KeysExact(hash, http, gql);
  }

  // ----- stored entries

  type Headers = seq<(string, Bytes)>

  datatype Response = Response(status: int, headers: Headers, body: Bytes)

  /** An entry in storage: header values and the body in base64. */
  datatype CachedEntry = CachedEntry(status: int, headers: seq<(string, string)>, body: string)

  const MARK := "x-g2-cache"
  const HIT: Bytes := [104, 105, 116]

  predicate TokenChar(c: char) {
    'a' <= c <= 'z' || '0' <= c <= '9' || c in "!#$%&'*+-.^_`|~"
  }

  /** Header names as the header map holds them: lower-case tokens. */
  predicate ValidName(n: string) {
    n != "" && forall i :: 0 <= i < |n| ==> TokenChar(n[i])
  }

  predicate ValidValue(v: Bytes) {
    forall i :: 0 <= i < |v| ==> v[i] == 9 || (32 <= v[i] && v[i] != 127)
  }

  predicate ValidHeaders(hs: Headers) {
    forall i :: 0 <= i < |hs| ==> ValidName(hs[i].0) && ValidValue(hs[i].1)
  }

  predicate ValidStatus(status: int) {
    100 <= status < 1000
  }

  function EncodeEntry(r: Response): CachedEntry {
    CachedEntry(r.status, EncodeHeaders(r.headers), Encode(r.body))
  }

  function EncodeHeaders(hs: Headers): seq<(string, string)> {
    seq(|hs|, i requires 0 <= i < |hs| => (hs[i].0, Encode(hs[i].1)))
  }

  /** Header `name` replaced by the single value `v`. */
  function Insert(hs: Headers, name: string, v: Bytes): Headers {
    Without(hs, name) + [(name, v)]
  }

  function Without(hs: Headers, name: string): Headers {
    if hs == [] then []
    else Without(hs[..|hs| - 1], name) + (if hs[|hs| - 1].0 == name then [] else [hs[|hs| - 1]])
  }

  /** The response as a hit shows it. */
  function Marked(r: Response): Response {
    r.(headers := Insert(r.headers, MARK, HIT))
  }

  /** A stored header; none when it does not decode to a legal header. */
  function DecodeHeader(h: (string, string)): Option<(string, Bytes)> {
    var v := Decode(h.1);
    if ValidName(h.0) && v.Some? && ValidValue(v.value) then Some((h.0, v.value)) else None
  }

  function DecodeHeaders(hs: seq<(string, string)>): Option<Headers> {
    if hs == [] then Some([])
    else
      var rest, last := DecodeHeaders(hs[..|hs| - 1]), DecodeHeader(hs[|hs| - 1]);
      if rest.Some? && last.Some? then Some(rest.value + [last.value]) else None
  }

  function DecodeEntry(e: CachedEntry): Option<Response> {
    var body, headers := Decode(e.body), DecodeHeaders(e.headers);
    if body.Some? && ValidStatus(e.status) && headers.Some?
    then Some(Marked(Response(e.status, headers.value, body.value))) else None
  }

  lemma {:induction false} HeadersMissing(hs: seq<(string, string)>, i: nat)
    requires i <= |hs| && DecodeHeaders(hs[..i]).None?
    ensures DecodeHeaders(hs).None?
    decreases |hs|
  {
    if i < |hs| {
      assert hs[..|hs| - 1][..i] == hs[..i];
      HeadersMissing(hs[..|hs| - 1], i);
    } else {
      assert hs[..i] == hs;
    }
  }

  method ReadHeaders(hs: seq<(string, string)>) returns (r: Option<Headers>)
    ensures r == DecodeHeaders(hs)
  {
    var headers: Headers := [];
    for i := 0 to |hs|
      invariant DecodeHeaders(hs[..i]) == Some(headers)
    {
      assert hs[..i + 1][..i] == hs[..i];
      var h := DecodeHeader(hs[i]);
      if h.None? {
        HeadersMissing(hs, i + 1);
        return None;
      }
      headers := headers + [h.value];
    }
    assert hs[..|hs|] == hs;
    r := Some(headers);
  }

  /** Rebuilds a response from a stored entry and marks it as a hit. */
  method ReadEntry(e: CachedEntry) returns (r: Option<Response>)
    ensures r == DecodeEntry(e)
  {
    var body := Decode(e.body);
    if body.None? || !ValidStatus(e.status) {
      return None;
    }
    var headers := ReadHeaders(e.headers);
    if headers.None? {
      return None;
    }
    r := Some(Response(e.status, Insert(headers.value, MARK, HIT), body.value));
  }

  lemma {:induction false} HeadersTrip(hs: Headers)
    requires ValidHeaders(hs)
    ensures DecodeHeaders(EncodeHeaders(hs)) == Some(hs)
  {
    var es := EncodeHeaders(hs);
    if hs != [] {
      var n := |hs| - 1;
      HeadersTrip(hs[..n]);
      assert es[..n] == EncodeHeaders(hs[..n]);
      Trip(hs[n].1);
      assert hs == hs[..n] + [hs[n]];
    }
  }

  /** A stored response is replayed exactly, apart from the hit mark. */
  lemma {:induction false} EntryTrip(r: Response)
    requires ValidStatus(r.status) && ValidHeaders(r.headers)
    ensures DecodeEntry(EncodeEntry(r)) == Some(Marked(r))
  {
    Trip(r.body);
    HeadersTrip(r.headers);
  }

  function ValuesOf(hs: Headers, name: string): seq<Bytes> {
    if hs == [] then [] else ValuesOf(hs[..|hs| - 1], name) + (if hs[|hs| - 1].0 == name then [hs[|hs| - 1].1] else [])
  }

  /** The mark is the only difference a client can see in a hit. */
  lemma {:induction false} MarkOnly(hs: Headers, name: string)
    ensures ValuesOf(Insert(hs, MARK, HIT), name) == if name == MARK then [HIT] else ValuesOf(hs, name)
  {
    var ws := Without(hs, MARK);
    assert Insert(hs, MARK, HIT)[..|ws|] == ws;
    WithoutValues(hs, MARK, name);
  }

  lemma {:induction false} WithoutValues(hs: Headers, gone: string, name: string)
    ensures ValuesOf(Without(hs, gone), name) == if name == gone then [] else ValuesOf(hs, name)
  {
    if hs != [] {
      var n := |hs| - 1;
      WithoutValues(hs[..n], gone, name);
      var ws := Without(hs[..n], gone);
      if hs[n].0 != gone {
        assert (ws + [hs[n]])[..|ws|] == ws;
      } else {
        assert ws + [] == ws;
      }
    }
  }

  // ----- the protocol

  /** One upstream answer. */
  datatype Upstream = Upstream(subject: Subject, response: Response)

  /** An answer being streamed: the polls so far and, when it is a candidate
      for the cache, the tee around it. */
  datatype Stream = Stream(up: Upstream, evs: seq<Event>, tee: Option<Tee>)

  datatype Write = Write(key: string, entry: CachedEntry)

  datatype Stored = Entry(entry: CachedEntry) | Corrupt

  datatype State = State(store: map<string, Stored>, streams: seq<Stream>, writes: seq<Write>, hits: seq<(Subject, Response)>)

  datatype Cfg = Cfg(hash: string -> string, max: nat, parse: Bytes -> Option<Json>)

  datatype Action =
    | Lookup(subject: Subject)
    | Answer(up: Upstream)
    | Poll(stream: nat, ev: Event)
    | Persist(write: nat)
    | Lose(write: nat)
    | Expire(key: string)
    | Spoil(key: string)

  predicate SafeMethod(verb: string) {
    verb in ["GET", "HEAD", "OPTIONS"]
  }

  predicate Served(s: Subject) {
    s.Http? ==> SafeMethod(s.verb)
  }

  /** 2xx and no `Set-Cookie`. */
  predicate Recordable(r: Response) {
    200 <= r.status < 300 && forall i :: 0 <= i < |r.headers| ==> r.headers[i].0 != "set-cookie"
  }

  /** A JSON object without errors: `errors` absent, null or empty. */
  predicate GraphQlSuccess(j: Option<Json>) {
    && j.Some? && j.value.Obj?
    && ("errors" in j.value.fields ==> j.value.fields["errors"] in [Null, Arr([])])
  }

  /** The write policy: any HTTP body, and GraphQL successes. */
  predicate Allowed(c: Cfg, s: Subject, body: Bytes) {
    s.Http? || GraphQlSuccess(c.parse(body))
  }

  /** Polls deliver the answer's body in order and end with all of it. */
  predicate FaithfulEvent(body: Bytes, evs: seq<Event>, ev: Event) {
    match ev
    case Data(data, last) => DataOf(evs) + data <= body && (last ==> DataOf(evs) + data == body)
    case Trailers(last) => last ==> DataOf(evs) == body
    case End => DataOf(evs) == body
    case _ => true
  }

  /** The write a completed poll starts, checked against the policy. */
  function Spawned(c: Cfg, up: Upstream, before: Tee, after: Tee): seq<Write> {
    if |after.spawned| > |before.spawned| && Allowed(c, up.subject, after.spawned[|after.spawned| - 1])
    then [Write(StorageKey(c.hash, up.subject), EncodeEntry(up.response.(body := after.spawned[|after.spawned| - 1])))]
    else []
  }

  function PollStream(c: Cfg, st: State, i: nat, ev: Event): State
    requires i < |st.streams|
  {
    var s := st.streams[i];
    if !FaithfulEvent(s.up.response.body, s.evs, ev) then st
    else if s.tee.None? then st.(streams := st.streams[i := s.(evs := s.evs + [ev])])
    else
      var after := Step(c.max, s.tee.value, ev);
      st.(streams := st.streams[i := s.(evs := s.evs + [ev], tee := Some(after))],
          writes := st.writes + Spawned(c, s.up, s.tee.value, after))
  }

  function Next(c: Cfg, st: State, a: Action): State {
    match a
    case Lookup(s) =>
      var key := StorageKey(c.hash, s);
      if WellFormed(s) && Served(s) && key in st.store && st.store[key].Entry? && DecodeEntry(st.store[key].entry).Some?
      then st.(hits := st.hits + [(s, DecodeEntry(st.store[key].entry).value)]) else st
    case Answer(up) =>
      if !WellFormed(up.subject) || !ValidStatus(up.response.status) || !ValidHeaders(up.response.headers) then st
      else st.(streams := st.streams + [Stream(up, [], if Served(up.subject) && Recordable(up.response) then Some(FRESH) else None)])
    case Poll(i, ev) => if i < |st.streams| then PollStream(c, st, i, ev) else st
    case Persist(w) =>
      if w < |st.writes|
      then st.(store := st.store[st.writes[w].key := Entry(st.writes[w].entry)], writes := st.writes[..w] + st.writes[w + 1..]) else st
    case Lose(w) => if w < |st.writes| then st.(writes := st.writes[..w] + st.writes[w + 1..]) else st
    case Expire(key) => st.(store := st.store - {key})
    case Spoil(key) => st.(store := st.store[key := Corrupt])
  }

  const EMPTY := State(map[], [], [], [])

  function RunCache(c: Cfg, actions: seq<Action>): State {
    if actions == [] then EMPTY else Next(c, RunCache(c, actions[..|actions| - 1]), actions[|actions| - 1])
  }

  // ----- every reachable state

  /** Stream `i` is an answer that may be replayed. */
  predicate Replayable(c: Cfg, st: State, i: nat) {
    && i < |st.streams|
    && var up := st.streams[i].up;
       && WellFormed(up.subject) && Served(up.subject) && Recordable(up.response)
       && ValidStatus(up.response.status) && ValidHeaders(up.response.headers)
       && |up.response.body| <= c.max && Allowed(c, up.subject, up.response.body)
  }

  ghost predicate WrittenBy(c: Cfg, st: State, w: Write, i: nat) {
    Replayable(c, st, i) && w.key == StorageKey(c.hash, st.streams[i].up.subject) && w.entry == EncodeEntry(st.streams[i].up.response)
  }

  ghost predicate Justified(c: Cfg, st: State, w: Write) {
    exists i: nat :: WrittenBy(c, st, w, i)
  }

  /** A hit for a subject replays answer `i` to that same subject. */
  ghost predicate Replays(c: Cfg, st: State, hit: (Subject, Response), i: nat) {
    Replayable(c, st, i) && Alike(hit.0, st.streams[i].up.subject) && hit.1 == Marked(st.streams[i].up.response)
  }

  ghost predicate HitJustified(c: Cfg, st: State, hit: (Subject, Response)) {
    exists i: nat :: Replays(c, st, hit, i)
  }

  ghost predicate StreamOk(c: Cfg, s: Stream) {
    s.tee.Some? ==>
      && WellFormed(s.up.subject) && Served(s.up.subject) && Recordable(s.up.response)
      && ValidStatus(s.up.response.status) && ValidHeaders(s.up.response.headers)
      && s.tee.value == Run(c.max, s.evs) && Faithful(s.up.response.body, s.evs)
  }

  ghost predicate Faithful(body: Bytes, evs: seq<Event>) {
    forall i :: 0 <= i < |evs| ==> FaithfulEvent(body, evs[..i], evs[i])
  }

  ghost predicate CacheInv(c: Cfg, st: State) {
    && (forall i :: 0 <= i < |st.streams| ==> StreamOk(c, st.streams[i]))
    && (forall w :: 0 <= w < |st.writes| ==> Justified(c, st, st.writes[w]))
    && (forall key :: key in st.store && st.store[key].Entry? ==> Justified(c, st, Write(key, st.store[key].entry)))
    && (forall h :: 0 <= h < |st.hits| ==> HitJustified(c, st, st.hits[h]))
  }

  /** A spawned write of a faithfully polled stream carries the whole body. */
  lemma {:induction false} WholeBody(max: nat, body: Bytes, evs: seq<Event>)
    requires Faithful(body, evs) && Run(max, evs).spawned != []
    ensures Run(max, evs).spawned == [body] && |body| <= max
  {
    RunExact(max, evs);
    var k := Ending(evs).value;
    assert FaithfulEvent(body, evs[..k], evs[k]);
    assert evs[..k + 1][..k] == evs[..k] && evs[..k + 1][k] == evs[k];
    assert DataOf(evs[..k + 1]) == DataOf(evs[..k]) + (if evs[k].Data? then evs[k].data else []);
    assert !evs[k].Error? ==> DataOf(evs[..k + 1]) == body;
  }

  /** Streams only gain polls, and new ones are appended. */
  ghost predicate Extends(was: State, now: State) {
    |was.streams| <= |now.streams| && forall i :: 0 <= i < |was.streams| ==> now.streams[i].up == was.streams[i].up
  }

  lemma {:induction false} JustifiedKept(c: Cfg, was: State, now: State, w: Write)
    requires Extends(was, now) && Justified(c, was, w)
    ensures Justified(c, now, w)
  {
    var i: nat :| WrittenBy(c, was, w, i);
    assert WrittenBy(c, now, w, i);
  }

  lemma {:induction false} HitKept(c: Cfg, was: State, now: State, hit: (Subject, Response))
    requires Extends(was, now) && HitJustified(c, was, hit)
    ensures HitJustified(c, now, hit)
  {
    var i: nat :| Replays(c, was, hit, i);
    assert Replays(c, now, hit, i);
  }

  /** Whatever is stored stays justified as streams progress. */
  lemma {:induction false} AllKept(c: Cfg, was: State, now: State)
    requires CacheInv(c, was) && Extends(was, now) && now.store == was.store && now.hits == was.hits
    ensures forall w :: 0 <= w < |was.writes| ==> Justified(c, now, was.writes[w])
    ensures forall key :: key in now.store && now.store[key].Entry? ==> Justified(c, now, Write(key, now.store[key].entry))
    ensures forall h :: 0 <= h < |now.hits| ==> HitJustified(c, now, now.hits[h])
  {
    forall w | 0 <= w < |was.writes| ensures Justified(c, now, was.writes[w]) {
      JustifiedKept(c, was, now, was.writes[w]);
    }
    forall key | key in now.store && now.store[key].Entry? ensures Justified(c, now, Write(key, now.store[key].entry)) {
      JustifiedKept(c, was, now, Write(key, was.store[key].entry));
    }
    forall h | 0 <= h < |now.hits| ensures HitJustified(c, now, now.hits[h]) {
      HitKept(c, was, now, was.hits[h]);
    }
  }

  lemma {:induction false} FaithfulSnoc(body: Bytes, evs: seq<Event>, ev: Event)
    requires Faithful(body, evs) && FaithfulEvent(body, evs, ev)
    ensures Faithful(body, evs + [ev])
  {
    var all := evs + [ev];
    forall i | 0 <= i < |all| ensures FaithfulEvent(body, all[..i], all[i]) {
      assert all[..i] == if i < |evs| then evs[..i] else evs;
    }
  }

  lemma {:induction false} PollKeeps(c: Cfg, st: State, i: nat, ev: Event)
    requires CacheInv(c, st) && i < |st.streams|
    ensures CacheInv(c, PollStream(c, st, i, ev))
  {
    var s, now := st.streams[i], PollStream(c, st, i, ev);
    if FaithfulEvent(s.up.response.body, s.evs, ev) {
      AllKept(c, st, now);
      if s.tee.Some? {
        assert StreamOk(c, s);
        var evs := s.evs + [ev];
        FaithfulSnoc(s.up.response.body, s.evs, ev);
        assert evs[..|evs| - 1] == s.evs;
        assert Run(c.max, evs) == Step(c.max, s.tee.value, ev);
        SpawnedJustified(c, now, i, s.tee.value);
      }
    }
  }

  lemma {:induction false} SpawnedJustified(c: Cfg, st: State, i: nat, before: Tee)
    requires i < |st.streams| && st.streams[i].tee.Some? && StreamOk(c, st.streams[i])
    ensures forall w :: w in Spawned(c, st.streams[i].up, before, st.streams[i].tee.value) ==> Justified(c, st, w)
  {
    var s := st.streams[i];
    var after := s.tee.value;
    if |after.spawned| > |before.spawned| && Allowed(c, s.up.subject, after.spawned[|after.spawned| - 1]) {
      WholeBody(c.max, s.up.response.body, s.evs);
      var w := Write(StorageKey(c.hash, s.up.subject), EncodeEntry(s.up.response.(body := s.up.response.body)));
      assert s.up.response.(body := s.up.response.body) == s.up.response;
      assert WrittenBy(c, st, w, i);
    }
  }

  lemma {:induction false} LookupKeeps(c: Cfg, st: State, s: Subject)
    requires Collisionless(c.hash) && CacheInv(c, st)
    ensures CacheInv(c, Next(c, st, Lookup(s)))
  {
    var key, now := StorageKey(c.hash, s), Next(c, st, Lookup(s));
    AllKept(c, st, now.(hits := st.hits));
    if now != st {
      assert Justified(c, st, Write(key, st.store[key].entry));
      var i: nat :| WrittenBy(c, st, Write(key, st.store[key].entry), i);
      KeysExact(c.hash, s, st.streams[i].up.subject);
      EntryTrip(st.streams[i].up.response);
      assert Replays(c, now, now.hits[|st.hits|], i);
      forall h | 0 <= h < |now.hits| ensures HitJustified(c, now, now.hits[h]) {
        if h < |st.hits| {
          HitKept(c, st, now, st.hits[h]);
        }
      }
    }
    forall w | 0 <= w < |now.writes| ensures Justified(c, now, now.writes[w]) {
      JustifiedKept(c, st, now, st.writes[w]);
    }
    forall k | k in now.store && now.store[k].Entry? ensures Justified(c, now, Write(k, now.store[k].entry)) {
      JustifiedKept(c, st, now, Write(k, st.store[k].entry));
    }
  }

  lemma {:induction false} WriteJustified(c: Cfg, st: State, a: Action, w: nat)
    requires CacheInv(c, st) && (a.Persist? || a.Lose? || a.Expire? || a.Spoil?) && w < |Next(c, st, a).writes|
    ensures Justified(c, Next(c, st, a), Next(c, st, a).writes[w])
  {
    var now := Next(c, st, a);
    assert Extends(st, now);
    var was := if (a.Persist? && a.write < |st.writes| && w >= a.write) || (a.Lose? && a.write < |st.writes| && w >= a.write) then w + 1 else w;
    assert now.writes[w] == st.writes[was];
    JustifiedKept(c, st, now, st.writes[was]);
  }

  lemma {:induction false} EntryJustified(c: Cfg, st: State, a: Action, k: string)
    requires CacheInv(c, st) && (a.Persist? || a.Lose? || a.Expire? || a.Spoil?)
    requires k in Next(c, st, a).store && Next(c, st, a).store[k].Entry?
    ensures Justified(c, Next(c, st, a), Write(k, Next(c, st, a).store[k].entry))
  {
    var now := Next(c, st, a);
    if a.Persist? && a.write < |st.writes| && k == st.writes[a.write].key {
      JustifiedKept(c, st, now, st.writes[a.write]);
    } else {
      JustifiedKept(c, st, now, Write(k, st.store[k].entry));
    }
  }

  lemma {:induction false} StoreKeeps(c: Cfg, st: State, a: Action)
    requires CacheInv(c, st) && (a.Persist? || a.Lose? || a.Expire? || a.Spoil?)
    ensures CacheInv(c, Next(c, st, a))
  {
    var now := Next(c, st, a);
    assert now == st.(store := now.store, writes := now.writes);
    forall w | 0 <= w < |now.writes| ensures Justified(c, now, now.writes[w]) {
      WriteJustified(c, st, a, w);
    }
    forall k | k in now.store && now.store[k].Entry? ensures Justified(c, now, Write(k, now.store[k].entry)) {
      EntryJustified(c, st, a, k);
    }
    forall h | 0 <= h < |now.hits| ensures HitJustified(c, now, now.hits[h]) {
      HitKept(c, st, now, st.hits[h]);
    }
  }

  lemma {:induction false} NextKeeps(c: Cfg, st: State, a: Action)
    requires Collisionless(c.hash) && CacheInv(c, st)
    ensures CacheInv(c, Next(c, st, a))
  {
    match a
    case Lookup(s) => LookupKeeps(c, st, s);
    case Answer(up) => AllKept(c, st, Next(c, st, a));
    case Poll(i, ev) =>
      if i < |st.streams| {
        PollKeeps(c, st, i, ev);
      }
    case _ => StoreKeeps(c, st, a);
  }

  /** The poll that cleanly ends a recordable answer within the cap starts
      the write of exactly that answer, when the policy allows its body. */
  lemma {:induction false} CompletionWrites(c: Cfg, st: State, i: nat, ev: Event)
    requires CacheInv(c, st) && i < |st.streams| && st.streams[i].tee.Some?
    requires var s := st.streams[i];
             && Ending(s.evs).None? && Terminal(ev) && !ev.Error? && FaithfulEvent(s.up.response.body, s.evs, ev)
             && |s.up.response.body| <= c.max && Allowed(c, s.up.subject, s.up.response.body)
    ensures var up := st.streams[i].up;
            Next(c, st, Poll(i, ev)).writes == st.writes + [Write(StorageKey(c.hash, up.subject), EncodeEntry(up.response))]
  {
    var s := st.streams[i];
    CompletionSpawns(c, s, ev);
    assert s.up.response.(body := s.up.response.body) == s.up.response;
  }

  lemma {:induction false} CompletionSpawns(c: Cfg, s: Stream, ev: Event)
    requires StreamOk(c, s) && s.tee.Some?
    requires Ending(s.evs).None? && Terminal(ev) && !ev.Error? && FaithfulEvent(s.up.response.body, s.evs, ev)
    requires |s.up.response.body| <= c.max
    ensures var after := Step(c.max, s.tee.value, ev);
            |after.spawned| > |s.tee.value.spawned| && after.spawned[|after.spawned| - 1] == s.up.response.body
  {
    var evs := s.evs + [ev];
    assert evs[..|evs| - 1] == s.evs && evs[..|s.evs| + 1] == evs;
    RunExact(c.max, s.evs);
    RunExact(c.max, evs);
    FaithfulSnoc(s.up.response.body, s.evs, ev);
    assert Ending(evs) == Some(|s.evs|) && Run(c.max, evs) == Step(c.max, s.tee.value, ev);
    assert DataOf(evs) == DataOf(s.evs) + (if ev.Data? then ev.data else []);
    assert DataOf(evs) == s.up.response.body;
  }

  /** A persisted write is served: the next lookup of its subject replays it. */
  lemma {:induction false} PersistedHits(c: Cfg, st: State, w: nat, s: Subject, r: Response)
    requires w < |st.writes| && st.writes[w] == Write(StorageKey(c.hash, s), EncodeEntry(r))
    requires WellFormed(s) && Served(s) && ValidStatus(r.status) && ValidHeaders(r.headers)
    ensures Next(c, Next(c, st, Persist(w)), Lookup(s)).hits == st.hits + [(s, Marked(r))]
  {
    EntryTrip(r);
  }

  /** The cache agrees with the upstream over every interleaving: each hit
      replays, apart from the hit mark, status, headers and whole body of
      an earlier answer to an alike subject that was 2xx, set no cookie,
      fitted the cap and passed the write policy. */
  lemma {:induction false} CacheAgrees(c: Cfg, actions: seq<Action>)
    requires Collisionless(c.hash)
    ensures CacheInv(c, RunCache(c, actions))
    ensures var st := RunCache(c, actions); forall h :: 0 <= h < |st.hits| ==> HitJustified(c, st, st.hits[h])
  {
    if actions != [] {
      var n := |actions| - 1;
      CacheAgrees(c, actions[..n]);
      NextKeeps(c, RunCache(c, actions[..n]), actions[n]);
    }
  }

  // ----- what an answer leaves behind, from any state

  function RunFrom(c: Cfg, st: State, actions: seq<Action>): State {
    if actions == [] then st else Next(c, RunFrom(c, st, actions[..|actions| - 1]), actions[|actions| - 1])
  }

  lemma {:induction false} RunOn(c: Cfg, st: State, a: seq<Action>, b: seq<Action>)
    ensures RunFrom(c, st, a + b) == RunFrom(c, RunFrom(c, st, a), b)
  {
    if b == [] {
      assert a + b == a;
    } else {
      var n, all := |b| - 1, a + b;
      RunOn(c, st, a, b[..n]);
      assert all[..|all| - 1] == a + b[..n] && all[|all| - 1] == b[n];
      assert RunFrom(c, st, all) == Next(c, RunFrom(c, st, a + b[..n]), b[n]);
    }
  }

  /** A request the cache may answer: an HTTP request of a safe method, or
      any GraphQL operation that reaches the cache. */
  predicate MayCache(s: Subject) {
    s.Gql? || s.verb == "GET" || s.verb == "HEAD" || s.verb == "OPTIONS"
  }

  ghost predicate NamesHeader(r: Response, name: string) {
    exists i :: 0 <= i < |r.headers| && r.headers[i].0 == name
  }

  /** As the HTTP types admit them. */
  predicate Legal(up: Upstream) {
    WellFormed(up.subject) && ValidStatus(up.response.status) && ValidHeaders(up.response.headers)
  }

  /** A 2xx answer to such a request that sets no cookie. */
  ghost predicate Candidate(up: Upstream) {
    MayCache(up.subject) && up.response.status / 100 == 2 && !NamesHeader(up.response, "set-cookie")
  }

  /** An answer opens one stream, with an empty tee around it exactly when it
      is a candidate for the cache. */
  lemma {:induction false} AnswerRecords(c: Cfg, st: State, up: Upstream)
    requires Legal(up)
    ensures var now := Next(c, st, Answer(up));
            && now == st.(streams := now.streams)
            && |now.streams| == |st.streams| + 1
            && now.streams[..|st.streams|] == st.streams
            && now.streams[|st.streams|].up == up && now.streams[|st.streams|].evs == []
            && (now.streams[|st.streams|].tee.Some? <==> Candidate(up))
            && (Candidate(up) ==> now.streams[|st.streams|].tee.value == Run(c.max, []))
  {
    assert Recordable(up.response) <==> up.response.status / 100 == 2 && !NamesHeader(up.response, "set-cookie");
  }

  function Polls(i: nat, evs: seq<Event>): (actions: seq<Action>)
    ensures |actions| == |evs|
  {
    seq(|evs|, k requires 0 <= k < |evs| => Poll(i, evs[k]))
  }

  /** The polls ended cleanly with a body within the cap. */
  predicate EndsWithin(max: nat, body: Bytes, evs: seq<Event>) {
    Ending(evs).Some? && !evs[Ending(evs).value].Error? && |body| <= max
  }

  lemma {:induction false} SpawnsExactly(max: nat, body: Bytes, evs: seq<Event>)
    requires Faithful(body, evs)
    ensures Run(max, evs).spawned == if EndsWithin(max, body, evs) then [body] else []
  {
    RunExact(max, evs);
    if Ending(evs).Some? {
      var k := Ending(evs).value;
      assert FaithfulEvent(body, evs[..k], evs[k]);
      assert evs[..k + 1][..k] == evs[..k] && evs[..k + 1][k] == evs[k];
      assert DataOf(evs[..k + 1]) == DataOf(evs[..k]) + (if evs[k].Data? then evs[k].data else []);
      assert !evs[k].Error? ==> DataOf(evs[..k + 1]) == body;
    }
  }

  /** The write a stream's polls start. */
  function WriteOf(c: Cfg, up: Upstream, evs: seq<Event>): seq<Write> {
    if EndsWithin(c.max, up.response.body, evs) && Allowed(c, up.subject, up.response.body)
    then [Write(StorageKey(c.hash, up.subject), EncodeEntry(up.response))] else []
  }

  lemma {:induction false} PollGains(c: Cfg, st: State, i: nat, up: Upstream, init: seq<Event>, ev: Event)
    requires i < |st.streams| && st.streams[i] == Stream(up, init, Some(Run(c.max, init)))
    requires Faithful(up.response.body, init + [ev])
    ensures var evs := init + [ev];
            var now := Next(c, st, Poll(i, ev));
            && now.store == st.store && now.hits == st.hits
            && now.streams == st.streams[i := Stream(up, evs, Some(Run(c.max, evs)))]
            && now.writes == st.writes + Spawned(c, up, Run(c.max, init), Run(c.max, evs))
  {
    var evs := init + [ev];
    assert evs[..|init|] == init && evs[|init|] == ev;
    assert FaithfulEvent(up.response.body, evs[..|init|], evs[|init|]);
  }

  lemma {:induction false} SpawnedExactly(c: Cfg, up: Upstream, evs: seq<Event>)
    requires evs != [] && Faithful(up.response.body, evs[..|evs| - 1]) && Faithful(up.response.body, evs)
    ensures WriteOf(c, up, evs[..|evs| - 1]) + Spawned(c, up, Run(c.max, evs[..|evs| - 1]), Run(c.max, evs)) == WriteOf(c, up, evs)
  {
    SpawnsExactly(c.max, up.response.body, evs[..|evs| - 1]);
    SpawnsExactly(c.max, up.response.body, evs);
    EndsLater(c.max, up.response.body, evs);
    assert up.response.(body := up.response.body) == up.response;
  }

  lemma {:induction false} PollsSnoc(c: Cfg, st: State, i: nat, evs: seq<Event>)
    requires evs != []
    ensures RunFrom(c, st, Polls(i, evs)) == Next(c, RunFrom(c, st, Polls(i, evs[..|evs| - 1])), Poll(i, evs[|evs| - 1]))
  {
    var n := |evs| - 1;
    assert Polls(i, evs)[..n] == Polls(i, evs[..n]) && Polls(i, evs)[n] == Poll(i, evs[n]);
  }

  /** What polls `evs` of stream `i`, answering `up`, make of a state. */
  ghost predicate Leaves(c: Cfg, st: State, i: nat, up: Upstream, evs: seq<Event>, now: State)
    requires i < |st.streams|
  {
    && now.store == st.store && now.hits == st.hits
    && now.streams == st.streams[i := Stream(up, evs, Some(Run(c.max, evs)))]
    && now.writes == st.writes + WriteOf(c, up, evs)
  }

  lemma {:induction false} LeavesMore(c: Cfg, st: State, i: nat, up: Upstream, init: seq<Event>, ev: Event, mid: State)
    requires i < |st.streams| && Leaves(c, st, i, up, init, mid)
    requires Faithful(up.response.body, init) && Faithful(up.response.body, init + [ev])
    ensures Leaves(c, st, i, up, init + [ev], Next(c, mid, Poll(i, ev)))
  {
    var evs := init + [ev];
    assert evs[..|evs| - 1] == init;
    PollGains(c, mid, i, up, init, ev);
    SpawnedExactly(c, up, evs);
    WritesJoin(st.writes, WriteOf(c, up, init), Spawned(c, up, Run(c.max, init), Run(c.max, evs)));
  }

  lemma WritesJoin(a: seq<Write>, b: seq<Write>, d: seq<Write>)
    ensures a + b + d == a + (b + d)
  {
  }

  /** What a stream under a tee leaves behind after its polls. */
  lemma {:induction false} PollsWrite(c: Cfg, st: State, i: nat, evs: seq<Event>)
    requires i < |st.streams| && st.streams[i].evs == [] && st.streams[i].tee == Some(Run(c.max, []))
    requires Faithful(st.streams[i].up.response.body, evs)
    ensures Leaves(c, st, i, st.streams[i].up, evs, RunFrom(c, st, Polls(i, evs)))
  {
    var up := st.streams[i].up;
    if evs != [] {
      var init, ev := evs[..|evs| - 1], evs[|evs| - 1];
      FaithfulInit(up.response.body, evs);
      PollsWrite(c, st, i, init);
      PollsSnoc(c, st, i, evs);
      assert init + [ev] == evs;
      LeavesMore(c, st, i, up, init, ev, RunFrom(c, st, Polls(i, init)));
    } else {
      assert st.streams[i := Stream(up, [], Some(Run(c.max, [])))] == st.streams;
    }
  }

  lemma {:induction false} FaithfulInit(body: Bytes, evs: seq<Event>)
    requires evs != [] && Faithful(body, evs)
    ensures Faithful(body, evs[..|evs| - 1])
  {
    var init := evs[..|evs| - 1];
    forall k | 0 <= k < |init| ensures FaithfulEvent(body, init[..k], init[k]) {
      assert FaithfulEvent(body, evs[..k], evs[k]) && evs[..k] == init[..k];
    }
  }

  lemma {:induction false} EndsLater(max: nat, body: Bytes, evs: seq<Event>)
    requires evs != []
    ensures EndsWithin(max, body, evs[..|evs| - 1]) ==> EndsWithin(max, body, evs)
  {
  }

  lemma {:induction false} PollsPass(c: Cfg, st: State, i: nat, evs: seq<Event>)
    requires i < |st.streams| && st.streams[i].tee.None?
    ensures var now := RunFrom(c, st, Polls(i, evs));
            && now.store == st.store && now.hits == st.hits && now.writes == st.writes
            && |now.streams| == |st.streams| && now.streams[i].tee.None?
  {
    if evs != [] {
      var n := |evs| - 1;
      assert Polls(i, evs)[..n] == Polls(i, evs[..n]) && Polls(i, evs)[n] == Poll(i, evs[n]);
      PollsPass(c, st, i, evs[..n]);
    }
  }

  /** An answer and the polls of its stream. */
  function Streamed(st: State, up: Upstream, evs: seq<Event>): seq<Action> {
    [Answer(up)] + Polls(|st.streams|, evs)
  }

  /** Exactly which answers are written: from any state, an answer and any
      faithful polls of it start one write, of that answer under its key,
      when it is a candidate, ended cleanly within the cap and has a body the
      policy allows; and otherwise none. */
  lemma {:induction false} WrittenExactly(c: Cfg, st: State, up: Upstream, evs: seq<Event>)
    requires Legal(up) && Faithful(up.response.body, evs)
    ensures var now := RunFrom(c, st, Streamed(st, up, evs));
            && now.store == st.store && now.hits == st.hits
            && now.writes == st.writes +
                 if Candidate(up) && EndsWithin(c.max, up.response.body, evs)
                    && (up.subject.Http? || GraphQlSuccess(c.parse(up.response.body)))
                 then [Write(StorageKey(c.hash, up.subject), EncodeEntry(up.response))] else []
  {
    var i := |st.streams|;
    var begun := Next(c, st, Answer(up));
    AnswerRecords(c, st, up);
    assert [Answer(up)][..0] == [] && RunFrom(c, st, [Answer(up)]) == begun;
    RunOn(c, st, [Answer(up)], Polls(i, evs));
    if Candidate(up) {
      PollsWrite(c, begun, i, evs);
    } else {
      PollsPass(c, begun, i, evs);
    }
  }

  /** The cache works: from any state, a candidate that streams to its clean
      end within the cap, with a body the policy allows, is written, and once
      the write is persisted the next lookup of its subject is a hit of that
      answer, with the mark, and nothing else. */
  lemma {:induction false} NextIsHit(c: Cfg, st: State, up: Upstream, evs: seq<Event>)
    requires Legal(up) && Candidate(up) && Faithful(up.response.body, evs) && EndsWithin(c.max, up.response.body, evs)
    requires up.subject.Http? || GraphQlSuccess(c.parse(up.response.body))
    ensures var now := RunFrom(c, st, Streamed(st, up, evs) + [Persist(|st.writes|), Lookup(up.subject)]);
            now.hits == st.hits + [(up.subject, Marked(up.response))] && now.writes == st.writes
  {
    var written := RunFrom(c, st, Streamed(st, up, evs));
    var w := |st.writes|;
    WrittenExactly(c, st, up, evs);
    RunOn(c, st, Streamed(st, up, evs), [Persist(w), Lookup(up.subject)]);
    assert [Persist(w), Lookup(up.subject)][..1] == [Persist(w)] && [Persist(w)][..0] == [];
    assert RunFrom(c, written, [Persist(w)]) == Next(c, written, Persist(w));
    PersistedHits(c, written, w, up.subject, up.response);
    assert written.writes[..w] == st.writes && written.writes[w + 1..] == [];
  }

  /** A lookup of a request that may not be cached, or of a key that nothing
      legible is stored under, passes: it adds no hit. */
  lemma {:induction false} LookupMisses(c: Cfg, st: State, s: Subject)
    requires !MayCache(s) || StorageKey(c.hash, s) !in st.store || st.store[StorageKey(c.hash, s)].Corrupt?
    ensures Next(c, st, Lookup(s)) == st
  {
  }
}
