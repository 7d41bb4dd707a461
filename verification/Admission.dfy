/** Stored-key admission: admin writes of keys and policies as steps on the
    shared store, and which stored credentials a request may then use. */
module Admission {
  import opened Basics
  import opened Splitting
  import J = JsonText
  import H = SignatureHeader
  import G = SigningString
  import opened Base64

  datatype RateLimit = RateLimit(requests: nat, perSeconds: nat)

  datatype Quota = Quota(max: nat, renewalSecs: nat)

  /** Per-API access; `ok` is its own validator's verdict. */
  datatype Grant = Grant(versions: set<string>, ok: bool)

  datatype Session = Session(org: string, rate: Option<RateLimit>, quota: Option<Quota>, expiresAt: Option<nat>,
                             active: bool, access: map<string, Grant>, passwordHash: Option<string>,
                             secret: Option<string>, policies: seq<string>)
  {
    predicate Expired(now: nat) {
      expiresAt.Some? && now >= expiresAt.value
    }

    /** Rate, quota and access become the policy's; the key's own state
        (activity, expiry, credentials, organisation) stays. */
    function Under(p: Policy): Session {
      this.(rate := p.rate, quota := p.quota, access := p.access)
    }
  }

  datatype Policy = Policy(id: string, name: string, org: string, active: bool, rate: Option<RateLimit>,
                           quota: Option<Quota>, access: map<string, Grant>)

  /** An empty access map grants every API of the organisation. */
  predicate Allows(access: map<string, Grant>, api: string) {
    access == map[] || api in access
  }

  predicate Empty(s: string) {
    H.Trim(s) == ""
  }

  predicate LimitsOk(rate: Option<RateLimit>, quota: Option<Quota>) {
    && (rate.Some? ==> rate.value.requests > 0 && rate.value.perSeconds > 0)
    && (quota.Some? ==> quota.value.max > 0 && quota.value.renewalSecs > 0)
  }

  predicate ValidSession(s: Session) {
    && !Empty(s.org)
    && LimitsOk(s.rate, s.quota)
    && (forall api :: api in s.access ==> !Empty(api) && s.access[api].ok)
    && (s.passwordHash.Some? ==> !Empty(s.passwordHash.value))
    && (s.secret.Some? ==> !Empty(s.secret.value))
    && |s.policies| <= 1
    && (forall i :: 0 <= i < |s.policies| ==> !Empty(s.policies[i]))
  }

  predicate ValidPolicy(p: Policy) {
    && !Empty(p.id) && !Empty(p.name) && !Empty(p.org)
    && LimitsOk(p.rate, p.quota)
    && forall api :: api in p.access ==> !Empty(api)
  }

  // ----- the store

  function SessionPrefix(org: string): string {
    "g2:" + (org + [':'] + "apikey:")
  }

  function SessionKey(org: string, keyHash: string): string {
    "g2:" + (org + [':'] + ("apikey:" + keyHash))
  }

  function PolicyKey(org: string, id: string): string {
    "g2:" + (org + [':'] + ("policy:" + id))
  }

  datatype Record = OfSession(session: Session) | OfPolicy(policy: Policy) | Unreadable

  type Records = map<string, Record>

  lemma {:induction false} KeysDistinct(org: string, a: string, org': string, b: string)
    requires ':' !in org && ':' !in org' && "g2:" + (org + [':'] + a) == "g2:" + (org' + [':'] + b)
    ensures org == org' && a == b
  {
    SplitAt("g2:", org + [':'] + a, "g2:", org' + [':'] + b);
    SplitFirst(org, a, org', b, ':');
  }

  lemma {:induction false} SessionKeysExact(org: string, h: string, org': string, h': string)
    requires ':' !in org && ':' !in org'
    ensures SessionKey(org, h) == SessionKey(org', h') <==> org == org' && h == h'
    ensures PolicyKey(org, h) == PolicyKey(org', h') <==> org == org' && h == h'
    ensures SessionKey(org, h) != PolicyKey(org', h')
  {
    if SessionKey(org, h) == SessionKey(org', h') {
      KeysDistinct(org, "apikey:" + h, org', "apikey:" + h');
      SplitAt("apikey:", h, "apikey:", h');
    }
    if PolicyKey(org, h) == PolicyKey(org', h') {
      KeysDistinct(org, "policy:" + h, org', "policy:" + h');
      SplitAt("policy:", h, "policy:", h');
    }
    assert ("apikey:" + h)[0] == 'a' && ("policy:" + h')[0] == 'p';
    if SessionKey(org, h) == PolicyKey(org', h') {
      KeysDistinct(org, "apikey:" + h, org', "policy:" + h');
    }
  }

  // ----- admin writes

  datatype Write =
    | CreateKey(raw: string, session: Session)
    | PutKey(key: string, hashed: bool, session: Session)
    | DeleteKey(org: string, key: string, hashed: bool)
    | CreatePolicy(policy: Policy)
    | PutPolicy(id: string, policy: Policy)
    | DeletePolicy(org: string, id: string)

  type Hash = string -> string

  function KeyHash(hash: Hash, key: string, hashed: bool): string {
    if hashed then key else hash(key)
  }

  function Next(hash: Hash, rs: Records, w: Write): Records {
    match w
    case CreateKey(raw, s) => if ValidSession(s) then rs[SessionKey(s.org, hash(raw)) := OfSession(s)] else rs
    case PutKey(key, hashed, s) => if ValidSession(s) then rs[SessionKey(s.org, KeyHash(hash, key, hashed)) := OfSession(s)] else rs
    case DeleteKey(org, key, hashed) => rs - {SessionKey(org, KeyHash(hash, key, hashed))}
    case CreatePolicy(p) => if ValidPolicy(p) && PolicyKey(p.org, p.id) !in rs then rs[PolicyKey(p.org, p.id) := OfPolicy(p)] else rs
    case PutPolicy(id, p) => if p.id == id && ValidPolicy(p) then rs[PolicyKey(p.org, p.id) := OfPolicy(p)] else rs
    case DeletePolicy(org, id) => rs - {PolicyKey(org, id)}
  }

  function After(hash: Hash, ws: seq<Write>): Records {
    if ws == [] then map[] else Next(hash, After(hash, ws[..|ws| - 1]), ws[|ws| - 1])
  }

  datatype Status = Created | Added | Modified | Deleted | BadRequest | Conflict | NotFound

  /** The admin API's handlers over the shared store, and the requests
      judged by it. `history` is every write made so far. */
  class AdminStore {
    var records: Records
    const hash: Hash
    ghost var history: seq<Write>

    /** The store is what its history leaves. */
    ghost predicate Valid()
      reads this
    {
      records == After(hash, history)
    }

    /** No organisation id written so far, nor `org`, holds a colon. */
    ghost predicate ColonFreeWith(org: string)
      reads this
    {
      ':' !in org && forall i :: 0 <= i < |history| ==> ColonFree(history[i])
    }

    constructor (hash: Hash)
      ensures Valid() && history == [] && records == map[] && this.hash == hash
    {
      this.hash := hash;
      records := map[];
      history := [];
    }

    /** One more write, already made. */
    ghost method Log(was: Records, w: Write)
      requires was == After(hash, history) && records == Next(hash, was, w)
      modifies this`history
      ensures Valid() && history == old(history) + [w]
    {
      assert (history + [w])[..|history|] == history;
      history := history + [w];
    }

    method Create(raw: string, s: Session) returns (r: Status)
      requires Valid()
      modifies this
      ensures Valid() && history == old(history) + [CreateKey(raw, s)]
      ensures records == Next(hash, old(records), CreateKey(raw, s))
      ensures r == if ValidSession(s) then Created else BadRequest
    {
      ghost var was := records;
      if !ValidSession(s) {
        Log(was, CreateKey(raw, s));
        return BadRequest;
      }
      records := records[SessionKey(s.org, hash(raw)) := OfSession(s)];
      r := Created;
      Log(was, CreateKey(raw, s));
    }

    method Put(key: string, hashed: bool, s: Session) returns (r: Status)
      requires Valid()
      modifies this
      ensures Valid() && history == old(history) + [PutKey(key, hashed, s)]
      ensures records == Next(hash, old(records), PutKey(key, hashed, s))
      ensures r == if !ValidSession(s) then BadRequest else if SessionKey(s.org, KeyHash(hash, key, hashed)) in old(records) then Modified else Added
    {
      ghost var was := records;
      if !ValidSession(s) {
        Log(was, PutKey(key, hashed, s));
        return BadRequest;
      }
      var at := SessionKey(s.org, KeyHash(hash, key, hashed));
      r := if at in records then Modified else Added;
      records := records[at := OfSession(s)];
      Log(was, PutKey(key, hashed, s));
    }

    method Delete(org: string, key: string, hashed: bool) returns (r: Status)
      requires Valid()
      modifies this
      ensures Valid() && history == old(history) + [DeleteKey(org, key, hashed)]
      ensures records == Next(hash, old(records), DeleteKey(org, key, hashed))
      ensures r == if SessionKey(org, KeyHash(hash, key, hashed)) in old(records) then Deleted else NotFound
    {
      ghost var was := records;
      var at := SessionKey(org, KeyHash(hash, key, hashed));
      r := if at in records then Deleted else NotFound;
      records := records - {at};
      Log(was, DeleteKey(org, key, hashed));
    }

    method CreatePolicyRecord(p: Policy) returns (r: Status)
      requires Valid()
      modifies this
      ensures Valid() && history == old(history) + [CreatePolicy(p)]
      ensures records == Next(hash, old(records), CreatePolicy(p))
      ensures r == if !ValidPolicy(p) then BadRequest else if PolicyKey(p.org, p.id) in old(records) then Conflict else Created
    {
      ghost var was := records;
      if !ValidPolicy(p) {
        Log(was, CreatePolicy(p));
        return BadRequest;
      }
      if PolicyKey(p.org, p.id) in records {
        Log(was, CreatePolicy(p));
        return Conflict;
      }
      records := records[PolicyKey(p.org, p.id) := OfPolicy(p)];
      r := Created;
      Log(was, CreatePolicy(p));
    }

    method PutPolicyRecord(id: string, p: Policy) returns (r: Status)
      requires Valid()
      modifies this
      ensures Valid() && history == old(history) + [PutPolicy(id, p)]
      ensures records == Next(hash, old(records), PutPolicy(id, p))
      ensures r == if p.id != id || !ValidPolicy(p) then BadRequest else if PolicyKey(p.org, p.id) in old(records) then Modified else Added
    {
      ghost var was := records;
      if p.id != id || !ValidPolicy(p) {
        Log(was, PutPolicy(id, p));
        return BadRequest;
      }
      r := if PolicyKey(p.org, p.id) in records then Modified else Added;
      records := records[PolicyKey(p.org, p.id) := OfPolicy(p)];
      Log(was, PutPolicy(id, p));
    }

    method DeletePolicyRecord(org: string, id: string) returns (r: Status)
      requires Valid()
      modifies this
      ensures Valid() && history == old(history) + [DeletePolicy(org, id)]
      ensures records == Next(hash, old(records), DeletePolicy(org, id))
      ensures r == if PolicyKey(org, id) in old(records) then Deleted else NotFound
    {
      ghost var was := records;
      r := if PolicyKey(org, id) in records then Deleted else NotFound;
      records := records - {PolicyKey(org, id)};
      Log(was, DeletePolicy(org, id));
    }

    /** The organisation's key hashes, in ascending order. */
    method ListKeys(org: string) returns (hashes: seq<string>)
      ensures forall h :: h in hashes <==> SessionKey(org, h) in records
      ensures Ascending(hashes)
    {
      hashes := [];
      var prefix, left := SessionPrefix(org), records.Keys;
      while left != {}
        invariant left <= records.Keys && Ascending(hashes)
        invariant forall h :: h in hashes <==> SessionKey(org, h) in records.Keys - left
        decreases |left|
      {
        var key :| key in left;
        ghost var was, before := hashes, left;
        if prefix <= key {
          hashes := InsertHash(hashes, key[|prefix|..]);
          InsertedHash(was, key[|prefix|..]);
        }
        left := left - {key};
        Listed(org, key, records.Keys, before, was, hashes);
      }
    }

    // the three credential modes, judged by the writes made so far

    /** A token is admitted exactly when the last writes grant it. */
    method AdmitToken(c: Context, token: string) returns (v: Verdict)
      requires Valid() && ColonFreeWith(c.org)
      ensures v.Admit? <==> Granted(hash, history, c, hash(token))
      ensures v.Admit? ==> v == Admit(GrantedSession(hash, history, c, hash(token)), hash(token))
    {
      v := AuthenticateStoredToken(records, hash, c, token);
      AdmissionExact(hash, history, c, hash(token), true, v);
    }

    /** Basic credentials: readable, the password checked against the hash
        last written, and granted. */
    method AdmitBasic(c: Context, verifies: Verifies, utf8: Bytes -> Option<string>, authorization: Option<string>) returns (v: Verdict)
      requires Valid() && ColonFreeWith(c.org)
      ensures var who := BasicCredentials(utf8, authorization);
              v.Admit? <==>
                && who.Some?
                && var keyHash := hash("basic:" + who.value.0);
                   && Granted(hash, history, c, keyHash)
                   && PasswordOk(verifies, LastSession(hash, history, c.org, keyHash), who.value.1)
    {
      v := AuthenticateBasic(records, hash, verifies, c, utf8, authorization);
      var who := BasicCredentials(utf8, authorization);
      if who.Some? {
        var keyHash := hash("basic:" + who.value.0);
        StoredSession(hash, history, c.org, keyHash);
        AdmissionExact(hash, history, c, keyHash, PasswordOk(verifies, LastSession(hash, history, c.org, keyHash), who.value.1), v);
      }
    }

    /** Signed requests: parsed, acceptable, signed under the secret last
        written, and granted. */
    method AdmitHmac(c: Context, signs: Signs, cfg: HmacConfig, req: G.Request, authorization: Option<string>, date: Option<nat>) returns (v: Verdict)
      requires Valid() && ColonFreeWith(c.org)
      ensures var p := if authorization.Some? then H.Parsed(authorization.value) else None;
              v.Admit? <==>
                && p.Some? && MeetsConfig(cfg, c.now, req, p.value, date)
                && var keyHash := hash("hmac:" + p.value.keyId);
                   && Granted(hash, history, c, keyHash)
                   && SignatureOk(signs, cfg, req, p.value, LastSession(hash, history, c.org, keyHash))
    {
      v := AuthenticateHmac(records, hash, signs, c, cfg, req, authorization, date);
      ghost var p := if authorization.Some? then H.Parsed(authorization.value) else None;
      if p.Some? && MeetsConfig(cfg, c.now, req, p.value, date) {
        ghost var keyHash := hash("hmac:" + p.value.keyId);
        StoredSession(hash, history, c.org, keyHash);
        AdmissionExact(hash, history, c, keyHash, SignatureOk(signs, cfg, req, p.value, LastSession(hash, history, c.org, keyHash)), v);
      }
    }
  }

  // ----- listing

  ghost predicate Ascending(hs: seq<string>) {
    forall i, j :: 0 <= i < j < |hs| ==> J.Less(hs[i], hs[j])
  }

  function InsertHash(hs: seq<string>, h: string): seq<string> {
    if hs == [] then [h]
    else if hs[0] == h then hs
    else if J.Less(h, hs[0]) then [h] + hs
    else [hs[0]] + InsertHash(hs[1..], h)
  }

  lemma {:induction false} InsertedHash(hs: seq<string>, h: string)
    requires Ascending(hs)
    ensures Ascending(InsertHash(hs, h))
    ensures forall x :: x in InsertHash(hs, h) <==> x in hs || x == h
  {
    var r := InsertHash(hs, h);
    if hs != [] && hs[0] != h {
      if J.Less(h, hs[0]) {
        forall i, j | 0 <= i < j < |r| ensures J.Less(r[i], r[j]) {
          if i == 0 && j > 1 {
            J.Transitive(h, hs[0], hs[j - 1]);
          }
        }
      } else {
        J.Trichotomy(h, hs[0]);
        assert forall i, j :: 0 <= i < j < |hs[1..]| ==> hs[1..][i] == hs[i + 1] && hs[1..][j] == hs[j + 1];
        InsertedHash(hs[1..], h);
        forall i, j | 0 <= i < j < |r| ensures J.Less(r[i], r[j]) {
          if i == 0 {
            assert r[j] in InsertHash(hs[1..], h);
            assert r[j] == h || r[j] in hs[1..];
            if r[j] != h {
              var k :| 0 <= k < |hs[1..]| && hs[1..][k] == r[j];
              assert hs[k + 1] == r[j];
            }
          }
        }
      }
    }
  }

  lemma {:induction false} PrefixedKey(org: string, key: string, h: string)
    ensures key == SessionKey(org, h) <==> SessionPrefix(org) <= key && key[|SessionPrefix(org)|..] == h
  {
    var p := SessionPrefix(org);
    assert SessionKey(org, h) == p + h;
    if p <= key && key[|p|..] == h {
      assert key == key[..|p|] + key[|p|..];
    }
  }

  lemma {:induction false} Listed(org: string, key: string, all: set<string>, before: set<string>, was: seq<string>, now: seq<string>)
    requires key in before && before <= all
    requires forall h :: h in was <==> SessionKey(org, h) in all - before
    requires if SessionPrefix(org) <= key then forall x :: x in now <==> x in was || x == key[|SessionPrefix(org)|..] else now == was
    ensures forall h :: h in now <==> SessionKey(org, h) in all - (before - {key})
  {
    forall h ensures h in now <==> SessionKey(org, h) in all - (before - {key}) {
      PrefixedKey(org, key, h);
    }
  }

  // ----- authentication

  /** The API a request addresses, and the clock it is judged by. */
  datatype Context = Context(org: string, api: string, now: nat)

  datatype Refusal = Unauthorized | Forbidden | Malformed

  datatype Verdict = Admit(session: Session, keyHash: string) | Refuse(why: Refusal)

  /** The policy a session refers to, when it is there, readable, filed where
      it belongs and active. */
  method FetchActivePolicy(rs: Records, org: string, id: string) returns (p: Option<Policy>, why: Refusal)
    ensures p.Some? <==> ActivePolicy(rs, org, id).Some?
    ensures p.Some? ==> p == ActivePolicy(rs, org, id)
    ensures p.None? && why == Malformed <==> PolicyKey(org, id) in rs && !Filed(rs[PolicyKey(org, id)], org, id)
    ensures p.None? ==> why == Malformed || why == Forbidden
  {
    p, why := None, Forbidden;
    if PolicyKey(org, id) !in rs {
      return;
    }
    var record := rs[PolicyKey(org, id)];
    if !record.OfPolicy? || record.policy.org != org || record.policy.id != id {
      return None, Malformed;
    }
    if record.policy.active {
      p := Some(record.policy);
    }
  }

  predicate Filed(r: Record, org: string, id: string) {
    r.OfPolicy? && r.policy.org == org && r.policy.id == id
  }

  function ActivePolicy(rs: Records, org: string, id: string): Option<Policy> {
    if PolicyKey(org, id) in rs && Filed(rs[PolicyKey(org, id)], org, id) && rs[PolicyKey(org, id)].policy.active
    then Some(rs[PolicyKey(org, id)].policy) else None
  }

  /** The session as its policy shapes it; none when the policy is unusable. */
  function Effective(rs: Records, s: Session): Option<Session> {
    if s.policies == [] then Some(s)
    else if |s.policies| > 1 then None
    else
      var p := ActivePolicy(rs, s.org, s.policies[0]);
      if p.None? then None else Some(s.Under(p.value))
  }

  /** The session's reference to a policy is no sound record: more than one,
      or a record that is no policy or filed elsewhere. */
  predicate Misreferred(rs: Records, s: Session) {
    || |s.policies| > 1
    || (|s.policies| == 1 && PolicyKey(s.org, s.policies[0]) in rs && !Filed(rs[PolicyKey(s.org, s.policies[0])], s.org, s.policies[0]))
  }

  method ResolvePolicy(rs: Records, s: Session) returns (r: Option<Session>, why: Refusal)
    ensures r == Effective(rs, s)
    ensures r.None? ==> why == if Misreferred(rs, s) then Malformed else Forbidden
  {
    r, why := None, Malformed;
    if s.policies == [] {
      r := Some(s);
    } else if |s.policies| == 1 {
      var p, cause := FetchActivePolicy(rs, s.org, s.policies[0]);
      if p.None? {
        return None, cause;
      }
      r := Some(s.Under(p.value));
    }
  }

  /** A live key whose effective access covers the API. */
  predicate Usable(rs: Records, c: Context, s: Session) {
    && s.active && !s.Expired(c.now)
    && Effective(rs, s).Some? && Allows(Effective(rs, s).value.access, c.api)
  }

  function SessionAt(rs: Records, org: string, keyHash: string): Option<Session> {
    if SessionKey(org, keyHash) in rs && rs[SessionKey(org, keyHash)].OfSession?
    then Some(rs[SessionKey(org, keyHash)].session) else None
  }

  /** The checks every stored credential ends with. */
  method Conclude(rs: Records, c: Context, s: Session, keyHash: string) returns (v: Verdict)
    requires s.active && !s.Expired(c.now)
    ensures v.Admit? <==> Usable(rs, c, s)
    ensures v.Admit? ==> v == Admit(Effective(rs, s).value, keyHash)
    ensures v.Refuse? ==> v.why == if Misreferred(rs, s) then Malformed else Forbidden
  {
    var shaped, why := ResolvePolicy(rs, s);
    if shaped.None? {
      return Refuse(why);
    }
    if !Allows(shaped.value.access, c.api) {
      return Refuse(Forbidden);
    }
    v := Admit(shaped.value, keyHash);
  }

  /** A record the decision had to read is unsound: that is the server's
      fault, every other refusal the credential's. */
  predicate Unsound(rs: Records, c: Context, keyHash: string, credential: bool) {
    var key := SessionKey(c.org, keyHash);
    && key in rs
    && (!rs[key].OfSession?
        || (credential && rs[key].session.active && !rs[key].session.Expired(c.now) && Misreferred(rs, rs[key].session)))
  }

  ghost predicate Decides(rs: Records, c: Context, keyHash: string, credential: bool, v: Verdict) {
    var s := SessionAt(rs, c.org, keyHash);
    && (v.Admit? <==> credential && s.Some? && Usable(rs, c, s.value))
    && (v.Admit? ==> v == Admit(Effective(rs, s.value).value, keyHash))
    && (v.Refuse? ==> v.why == if Unsound(rs, c, keyHash, credential) then Malformed else Forbidden)
  }

  method AuthenticateStoredToken(rs: Records, hash: Hash, c: Context, token: string) returns (v: Verdict)
    ensures Decides(rs, c, hash(token), true, v)
  {
    var key := SessionKey(c.org, hash(token));
    if key !in rs {
      return Refuse(Forbidden);
    }
    if !rs[key].OfSession? {
      return Refuse(Malformed);
    }
    var s := rs[key].session;
    if !s.active || s.Expired(c.now) {
      return Refuse(Forbidden);
    }
    v := Conclude(rs, c, s, hash(token));
  }

  /** Password verification, as the password hash library answers. */
  type Verifies = (string, string) -> bool

  const DUMMY_HASH := "$2b$12$3neaCJyNondMOTlK7AuGBOMBGI0j/gZ3YsMVx1VJl.1cBJI5DVA32"

  /** The credentials of a Basic authorization header (RFC 7617); `utf8`
      reads bytes as text. */
  function BasicCredentials(utf8: Bytes -> Option<string>, header: Option<string>): Option<(string, string)> {
    if header.None? then None
    else
      var t := H.Trim(header.value);
      if |t| < 6 || H.ToLower(t[..6]) != "basic " then None
      else
        var bytes := Decode(H.Trim(t[6..]));
        if bytes.None? || utf8(bytes.value).None? then None
        else
          var text := utf8(bytes.value).value;
          var colon := H.Find(text, ':');
          if colon.None? || colon.value == 0 then None
          else Some((text[..colon.value], text[colon.value + 1..]))
  }

  /** A user name without colon and any password are read back, whatever the
      case of the scheme. */
  lemma {:induction false} BasicTrip(utf8: Bytes -> Option<string>, scheme: string, user: string, password: string, bytes: Bytes)
    requires |scheme| == 6 && H.ToLower(scheme) == "basic " && user != "" && ':' !in user && bytes != []
    requires utf8(bytes) == Some(user + [':'] + password)
    ensures BasicCredentials(utf8, Some(scheme + Encode(bytes))) == Some((user, password))
  {
    var code, t := Encode(bytes), scheme + Encode(bytes);
    Trip(bytes);
    TightCode(bytes);
    assert H.ToLower(scheme)[0] == 'b' && t[0] == scheme[0] && t[|t| - 1] == code[|code| - 1];
    H.TrimTight(t);
    assert t[..6] == scheme && t[6..] == code;
    H.TrimTight(code);
    H.FindAt(user, ':', password);
    H.Parts(user, ':', password);
  }

  /** Exactly which headers carry which credentials: `Basic` in any case, a
      space, and the encoding of a text whose first colon ends a non-empty
      user name. */
  lemma {:induction false} BasicExact(utf8: Bytes -> Option<string>, header: string, user: string, password: string)
    ensures BasicCredentials(utf8, Some(header)) == Some((user, password)) <==>
            exists bytes :: Carries(utf8, header, user, password, bytes)
  {
    if BasicCredentials(utf8, Some(header)) == Some((user, password)) {
      var bytes := ReadCarried(utf8, header, user, password);
    }
    if bytes :| Carries(utf8, header, user, password, bytes) {
      CarriedRead(utf8, header, user, password, bytes);
    }
  }

  lemma {:induction false} ReadCarried(utf8: Bytes -> Option<string>, header: string, user: string, password: string) returns (bytes: Bytes)
    requires BasicCredentials(utf8, Some(header)) == Some((user, password))
    ensures Carries(utf8, header, user, password, bytes)
  {
    var code := H.Trim(H.Trim(header)[6..]);
    bytes := Decode(code).value;
    Strict(code);
    SplitText(utf8(bytes).value, user, password);
  }

  /** A text split at its first colon. */
  lemma {:induction false} SplitText(text: string, user: string, password: string)
    requires H.Find(text, ':').Some? && H.Find(text, ':').value > 0
    requires user == text[..H.Find(text, ':').value] && password == text[H.Find(text, ':').value + 1..]
    ensures text == user + [':'] + password && user != "" && ':' !in user
  {
  }

  lemma {:induction false} CarriedRead(utf8: Bytes -> Option<string>, header: string, user: string, password: string, bytes: Bytes)
    requires Carries(utf8, header, user, password, bytes)
    ensures BasicCredentials(utf8, Some(header)) == Some((user, password))
  {
    Trip(bytes);
    H.FindAt(user, ':', password);
    H.Parts(user, ':', password);
  }

  ghost predicate Carries(utf8: Bytes -> Option<string>, header: string, user: string, password: string, bytes: Bytes) {
    var t := H.Trim(header);
    && |t| >= 6 && H.ToLower(t[..6]) == "basic "
    && H.Trim(t[6..]) == Encode(bytes)
    && utf8(bytes) == Some(user + [':'] + password)
    && user != "" && ':' !in user
  }

  lemma {:induction false} TightCode(bytes: Bytes)
    requires bytes != []
    ensures Encode(bytes) != "" && !H.IsSpace(Encode(bytes)[0]) && !H.IsSpace(Encode(bytes)[|Encode(bytes)| - 1])
  {
    EncodedChars(bytes);
    var code := Encode(bytes);
    assert code[0] in code && code[|code| - 1] in code;
  }

  predicate PasswordOk(verifies: Verifies, s: Option<Session>, password: string) {
    s.Some? && s.value.passwordHash.Some? && verifies(password, s.value.passwordHash.value)
  }

  /** Basic credentials: the session of `basic:` and the username, its
      password hash checked even when there is none to check against. */
  method AuthenticateBasic(rs: Records, hash: Hash, verifies: Verifies, c: Context, utf8: Bytes -> Option<string>,
                           authorization: Option<string>) returns (v: Verdict)
    ensures var who := BasicCredentials(utf8, authorization);
            && (who.None? ==> v == Refuse(Unauthorized))
            && (who.Some? ==>
                  var s := SessionAt(rs, c.org, hash("basic:" + who.value.0));
                  Decides(rs, c, hash("basic:" + who.value.0), PasswordOk(verifies, s, who.value.1), v))
  {
    var credentials := BasicCredentials(utf8, authorization);
    if credentials.None? {
      return Refuse(Unauthorized);
    }
    var (username, password) := credentials.value;
    var keyHash := hash("basic:" + username);
    var key := SessionKey(c.org, keyHash);
    if key in rs && !rs[key].OfSession? {
      return Refuse(Malformed);
    }
    var session := if key in rs then Some(rs[key].session) else None;
    var stored := if session.Some? && session.value.passwordHash.Some? then session.value.passwordHash.value else DUMMY_HASH;
    var matches := verifies(password, stored);
    if session.None? {
      return Refuse(Forbidden);
    }
    var s := session.value;
    if !(matches && s.passwordHash.Some? && s.active && !s.Expired(c.now)) {
      return Refuse(Forbidden);
    }
    v := Conclude(rs, c, s, keyHash);
  }

  /** Which signatures an API accepts: algorithms by name and, when set, how
      far the signed date may be from the clock. */
  datatype HmacConfig = HmacConfig(allowed: seq<string>, skew: Option<nat>)

  /** Whether a signature is the message's under an algorithm and secret. */
  type Signs = (string, string, string, Bytes) -> bool

  const DUMMY_SECRET := "g2way-dummy-hmac-secret"

  /** The first allowed algorithm of that name, ignoring case. */
  function AllowedAs(allowed: seq<string>, name: string): Option<string> {
    if allowed == [] then None
    else if H.ToLower(allowed[0]) == H.ToLower(name) then Some(allowed[0])
    else AllowedAs(allowed[1..], name)
  }

  predicate Fresh(cfg: HmacConfig, now: nat, headers: seq<string>, date: Option<nat>) {
    cfg.skew.Some? ==>
      "date" in headers && date.Some? && (if now < date.value then date.value - now else now - date.value) <= cfg.skew.value
  }

  /** What is decided before any stored key is read. */
  predicate MeetsConfig(cfg: HmacConfig, now: nat, req: G.Request, p: H.Params, date: Option<nat>) {
    && AllowedAs(cfg.allowed, p.algorithm).Some?
    && Fresh(cfg, now, p.headers, date)
    && G.Signed(req, p.headers).Some?
  }

  /** The signature is the rebuilt message's under the session's secret. */
  predicate SignatureOk(signs: Signs, cfg: HmacConfig, req: G.Request, p: H.Params, s: Option<Session>) {
    && AllowedAs(cfg.allowed, p.algorithm).Some? && G.Signed(req, p.headers).Some?
    && s.Some? && s.value.secret.Some?
    && signs(AllowedAs(cfg.allowed, p.algorithm).value, s.value.secret.value, G.Signed(req, p.headers).value, p.signature)
  }

  predicate SameName(a: string, b: string) {
    H.ToLower(a) == H.ToLower(b)
  }

  /** The first match, in the order the API lists its algorithms. */
  method FindAlgorithm(allowed: seq<string>, name: string) returns (r: Option<string>)
    ensures r == AllowedAs(allowed, name)
    ensures r.None? <==> forall i :: 0 <= i < |allowed| ==> !SameName(allowed[i], name)
    ensures r.Some? ==> exists i :: 0 <= i < |allowed| && r == Some(allowed[i]) && SameName(allowed[i], name)
                                    && forall j :: 0 <= j < i ==> !SameName(allowed[j], name)
  {
    for i := 0 to |allowed|
      invariant AllowedAs(allowed, name) == AllowedAs(allowed[i..], name)
      invariant forall j :: 0 <= j < i ==> !SameName(allowed[j], name)
    {
      assert allowed[i..][0] == allowed[i] && allowed[i..][1..] == allowed[i + 1..];
      if SameName(allowed[i], name) {
        return Some(allowed[i]);
      }
    }
    assert allowed[|allowed|..] == [];
    r := None;
  }

  /** Signed requests: the header is parsed and judged, the signing string
      rebuilt, and only then the key of `hmac:` and the key id is read; a
      secret is tried even when there is none. `date` is the request's date
      in seconds, when it has a readable one. */
  method AuthenticateHmac(rs: Records, hash: Hash, signs: Signs, c: Context, cfg: HmacConfig, req: G.Request,
                          authorization: Option<string>, date: Option<nat>) returns (v: Verdict)
    ensures var p := if authorization.Some? then H.Parsed(authorization.value) else None;
            && (p.None? ==> v == Refuse(Unauthorized))
            && (p.Some? && !MeetsConfig(cfg, c.now, req, p.value, date) ==> v == Refuse(Forbidden))
            && (p.Some? && MeetsConfig(cfg, c.now, req, p.value, date) ==>
                  var s := SessionAt(rs, c.org, hash("hmac:" + p.value.keyId));
                  Decides(rs, c, hash("hmac:" + p.value.keyId), SignatureOk(signs, cfg, req, p.value, s), v))
  {
    var parsed := None;
    if authorization.Some? {
      parsed := H.ParseSignatureHeader(authorization.value);
    }
    if parsed.None? {
      return Refuse(Unauthorized);
    }
    var p := parsed.value;
    var algorithm := FindAlgorithm(cfg.allowed, p.algorithm);
    if algorithm.None? || !Fresh(cfg, c.now, p.headers, date) {
      return Refuse(Forbidden);
    }
    var message := G.BuildSigningString(req, p.headers);
    if message.None? {
      return Refuse(Forbidden);
    }
    v := CheckSecret(rs, hash, signs, c, p, algorithm.value, message.value);
  }

  method CheckSecret(rs: Records, hash: Hash, signs: Signs, c: Context, p: H.Params, algorithm: string, message: string) returns (v: Verdict)
    ensures var s := SessionAt(rs, c.org, hash("hmac:" + p.keyId));
            Decides(rs, c, hash("hmac:" + p.keyId),
                    s.Some? && s.value.secret.Some? && signs(algorithm, s.value.secret.value, message, p.signature), v)
  {
    var keyHash := hash("hmac:" + p.keyId);
    var key := SessionKey(c.org, keyHash);
    if key in rs && !rs[key].OfSession? {
      return Refuse(Malformed);
    }
    var session := if key in rs then Some(rs[key].session) else None;
    var secret := if session.Some? && session.value.secret.Some? then session.value.secret.value else DUMMY_SECRET;
    var verified := signs(algorithm, secret, message, p.signature);
    if session.None? {
      return Refuse(Forbidden);
    }
    var s := session.value;
    if !(verified && s.secret.Some? && s.active && !s.Expired(c.now)) {
      return Refuse(Forbidden);
    }
    v := Conclude(rs, c, s, keyHash);
  }

  // ----- over whole runs

  /** The last write that concerns one key, from the history alone. */
  function LastSession(hash: Hash, ws: seq<Write>, org: string, keyHash: string): Option<Session> {
    if ws == [] then None
    else
      var w, before := ws[|ws| - 1], LastSession(hash, ws[..|ws| - 1], org, keyHash);
      match w
      case CreateKey(raw, s) => if ValidSession(s) && s.org == org && hash(raw) == keyHash then Some(s) else before
      case PutKey(key, hashed, s) => if ValidSession(s) && s.org == org && KeyHash(hash, key, hashed) == keyHash then Some(s) else before
      case DeleteKey(o, key, hashed) => if o == org && KeyHash(hash, key, hashed) == keyHash then None else before
      case _ => before
  }

  function LastPolicy(ws: seq<Write>, org: string, id: string): Option<Policy> {
    if ws == [] then None
    else
      var w, before := ws[|ws| - 1], LastPolicy(ws[..|ws| - 1], org, id);
      match w
      case CreatePolicy(p) => if ValidPolicy(p) && p.org == org && p.id == id && before.None? then Some(p) else before
      case PutPolicy(i, p) => if p.id == i && ValidPolicy(p) && p.org == org && p.id == id then Some(p) else before
      case DeletePolicy(o, i) => if o == org && i == id then None else before
      case _ => before
  }

  predicate ColonFree(w: Write) {
    match w
    case CreateKey(_, s) => ':' !in s.org
    case PutKey(_, _, s) => ':' !in s.org
    case DeleteKey(org, _, _) => ':' !in org
    case CreatePolicy(p) => ':' !in p.org
    case PutPolicy(_, p) => ':' !in p.org
    case DeletePolicy(org, _) => ':' !in org
  }

  /** The store holds exactly what the last writes left. */
  lemma {:induction false} StoreIsHistory(hash: Hash, ws: seq<Write>, org: string, x: string)
    requires (forall i :: 0 <= i < |ws| ==> ColonFree(ws[i])) && ':' !in org
    ensures (SessionKey(org, x) in After(hash, ws) <==> LastSession(hash, ws, org, x).Some?)
    ensures LastSession(hash, ws, org, x).Some? ==> After(hash, ws)[SessionKey(org, x)] == OfSession(LastSession(hash, ws, org, x).value)
    ensures (PolicyKey(org, x) in After(hash, ws) <==> LastPolicy(ws, org, x).Some?)
    ensures LastPolicy(ws, org, x).Some? ==> After(hash, ws)[PolicyKey(org, x)] == OfPolicy(LastPolicy(ws, org, x).value)
  {
    if ws != [] {
      var n := |ws| - 1;
      StoreIsHistory(hash, ws[..n], org, x);
      HistoryStep(hash, ws, org, x);
    }
  }

  lemma {:induction false} HistoryStep(hash: Hash, ws: seq<Write>, org: string, x: string)
    requires ws != [] && ColonFree(ws[|ws| - 1]) && ':' !in org
    requires var before := ws[..|ws| - 1];
             && (SessionKey(org, x) in After(hash, before) <==> LastSession(hash, before, org, x).Some?)
             && (LastSession(hash, before, org, x).Some? ==> After(hash, before)[SessionKey(org, x)] == OfSession(LastSession(hash, before, org, x).value))
             && (PolicyKey(org, x) in After(hash, before) <==> LastPolicy(before, org, x).Some?)
             && (LastPolicy(before, org, x).Some? ==> After(hash, before)[PolicyKey(org, x)] == OfPolicy(LastPolicy(before, org, x).value))
    ensures (SessionKey(org, x) in After(hash, ws) <==> LastSession(hash, ws, org, x).Some?)
    ensures LastSession(hash, ws, org, x).Some? ==> After(hash, ws)[SessionKey(org, x)] == OfSession(LastSession(hash, ws, org, x).value)
    ensures (PolicyKey(org, x) in After(hash, ws) <==> LastPolicy(ws, org, x).Some?)
    ensures LastPolicy(ws, org, x).Some? ==> After(hash, ws)[PolicyKey(org, x)] == OfPolicy(LastPolicy(ws, org, x).value)
  {
    match ws[|ws| - 1]
    case CreateKey(raw, s) =>
      SessionKeysExact(s.org, hash(raw), org, x);
    case PutKey(key, hashed, s) =>
      SessionKeysExact(s.org, KeyHash(hash, key, hashed), org, x);
    case DeleteKey(o, key, hashed) =>
      SessionKeysExact(o, KeyHash(hash, key, hashed), org, x);
    case CreatePolicy(p) =>
      SessionKeysExact(p.org, p.id, org, x);
      SessionKeysExact(org, x, p.org, p.id);
    case PutPolicy(id, p) =>
      SessionKeysExact(p.org, p.id, org, x);
      SessionKeysExact(org, x, p.org, p.id);
    case DeletePolicy(o, id) =>
      SessionKeysExact(o, id, org, x);
      SessionKeysExact(org, x, o, id);
  }

  /** Every stored session carries the organisation of its key and refers to
      at most one policy; every policy is filed under its own id. */
  lemma {:induction false} RecordsFiled(hash: Hash, ws: seq<Write>, org: string, x: string)
    ensures LastSession(hash, ws, org, x).Some? ==>
              LastSession(hash, ws, org, x).value.org == org && ValidSession(LastSession(hash, ws, org, x).value)
    ensures LastPolicy(ws, org, x).Some? ==> LastPolicy(ws, org, x).value.org == org && LastPolicy(ws, org, x).value.id == x
  {
    if ws != [] {
      RecordsFiled(hash, ws[..|ws| - 1], org, x);
    }
  }

  /** What the history says about a key: live, and allowed by its own access
      or, when it refers to a policy, by that policy's. */
  ghost predicate Granted(hash: Hash, ws: seq<Write>, c: Context, keyHash: string) {
    var s := LastSession(hash, ws, c.org, keyHash);
    && s.Some? && s.value.active && !s.value.Expired(c.now)
    && if s.value.policies == [] then Allows(s.value.access, c.api)
       else
         var p := LastPolicy(ws, c.org, s.value.policies[0]);
         p.Some? && p.value.active && Allows(p.value.access, c.api)
  }

  /** The session a granted key is served with: a policy replaces its rate,
      quota and access and leaves the rest. */
  ghost function GrantedSession(hash: Hash, ws: seq<Write>, c: Context, keyHash: string): Session
    requires Granted(hash, ws, c, keyHash)
  {
    var s := LastSession(hash, ws, c.org, keyHash).value;
    if s.policies == [] then s
    else
      var p := LastPolicy(ws, c.org, s.policies[0]).value;
      Session(s.org, p.rate, p.quota, s.expiresAt, s.active, p.access, s.passwordHash, s.secret, s.policies)
  }

  lemma {:induction false} StoredSession(hash: Hash, ws: seq<Write>, org: string, keyHash: string)
    requires (forall i :: 0 <= i < |ws| ==> ColonFree(ws[i])) && ':' !in org
    ensures SessionAt(After(hash, ws), org, keyHash) == LastSession(hash, ws, org, keyHash)
  {
    StoreIsHistory(hash, ws, org, keyHash);
  }

  /** Admission over every run: whatever keys and policies were written and
      deleted before, a stored credential is admitted exactly when its check
      passes and the last writes grant it. */
  lemma {:induction false} AdmissionExact(hash: Hash, ws: seq<Write>, c: Context, keyHash: string, credential: bool, v: Verdict)
    requires (forall i :: 0 <= i < |ws| ==> ColonFree(ws[i])) && ':' !in c.org
    requires Decides(After(hash, ws), c, keyHash, credential, v)
    ensures v.Admit? <==> credential && Granted(hash, ws, c, keyHash)
    ensures v.Admit? ==> v == Admit(GrantedSession(hash, ws, c, keyHash), keyHash)
    ensures v.Refuse? ==> v.why == Forbidden
  {
    StoreIsHistory(hash, ws, c.org, keyHash);
    RecordsFiled(hash, ws, c.org, keyHash);
    var s := LastSession(hash, ws, c.org, keyHash);
    if s.Some? && s.value.policies != [] {
      var id := s.value.policies[0];
      StoreIsHistory(hash, ws, c.org, id);
      RecordsFiled(hash, ws, c.org, id);
    }
  }
}
