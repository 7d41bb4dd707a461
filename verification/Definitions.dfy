/** API definitions: validation with its recursion through versions, and the
    merge of definitions loaded from files and from storage. */
module Definitions {
  import opened Basics
  import H = SignatureHeader
  import J = JsonText

  /** A configuration block whose own validator is not modelled. */
  datatype Part = Part(kind: string, content: string)

  datatype Error = InvalidApiDefinition(reason: string) | OtherError

  datatype ApiDefinition = ApiDefinition(
    apiId: string, name: string, orgId: string, listenPath: string, auth: Part, cors: Option<Part>,
    allowIps: Part, blockIps: Part, maxBodyBytes: Option<nat>,
    targetUrl: string, targetList: seq<string>, timeoutMs: nat, transformHeaders: Option<Part>, transformBody: Option<Part>,
    urlRewrites: seq<Part>, transformMethod: Option<Part>, allowPaths: seq<Part>, blockPaths: seq<Part>,
    ignoreAuthPaths: seq<Part>, mockResponses: seq<Part>, endpointRateLimits: seq<Part>, healthCheck: Option<Part>,
    serviceDiscovery: Option<Part>, circuitBreaker: Option<Part>, retries: nat, enableUpgrades: bool, http2: bool,
    cache: Option<Part>, graphql: Option<Part>, plugins: Option<Part>, versioning: Option<Versioning>)

  datatype Location = InHeader | InQuery

  datatype Versioning = Versioning(location: Location, key: string, versions: map<string, Overrides>, default: Option<string>)

  datatype Overrides = Overrides(
    targetUrl: Option<string>, targetList: Option<seq<string>>, timeoutMs: Option<nat>, transformHeaders: Option<Part>,
    transformBody: Option<Part>, urlRewrites: Option<seq<Part>>, transformMethod: Option<Part>, allowPaths: Option<seq<Part>>,
    blockPaths: Option<seq<Part>>, ignoreAuthPaths: Option<seq<Part>>, mockResponses: Option<seq<Part>>,
    endpointRateLimits: Option<seq<Part>>, healthCheck: Option<Part>, serviceDiscovery: Option<Part>,
    circuitBreaker: Option<Part>, retries: Option<nat>, enableUpgrades: Option<bool>, http2: Option<bool>,
    cache: Option<Part>, graphql: Option<Part>, plugins: Option<Part>)

  // ----- applying a version

  function Or<T>(o: Option<T>, t: T): T {
    if o.Some? then o.value else t
  }

  function OrKept<T>(o: Option<T>, t: Option<T>): Option<T> {
    if o.Some? then o else t
  }

  /** The definition one version is served with: overridden fields replaced,
      all others kept, versioning removed. */
  function Applied(base: ApiDefinition, o: Overrides): ApiDefinition {
    ApiDefinition(
      base.apiId, base.name, base.orgId, base.listenPath, base.auth, base.cors,
      base.allowIps, base.blockIps, base.maxBodyBytes,
      Or(o.targetUrl, base.targetUrl), Or(o.targetList, base.targetList), Or(o.timeoutMs, base.timeoutMs),
      OrKept(o.transformHeaders, base.transformHeaders), OrKept(o.transformBody, base.transformBody),
      Or(o.urlRewrites, base.urlRewrites), OrKept(o.transformMethod, base.transformMethod), Or(o.allowPaths, base.allowPaths),
      Or(o.blockPaths, base.blockPaths), Or(o.ignoreAuthPaths, base.ignoreAuthPaths), Or(o.mockResponses, base.mockResponses),
      Or(o.endpointRateLimits, base.endpointRateLimits), OrKept(o.healthCheck, base.healthCheck),
      OrKept(o.serviceDiscovery, base.serviceDiscovery), OrKept(o.circuitBreaker, base.circuitBreaker), Or(o.retries, base.retries),
      Or(o.enableUpgrades, base.enableUpgrades), Or(o.http2, base.http2), OrKept(o.cache, base.cache),
      OrKept(o.graphql, base.graphql), OrKept(o.plugins, base.plugins), None)
  }

  // what a caller can look up, setting by setting

  datatype Setting =
    | TargetUrl | TargetList | TimeoutMs | TransformHeaders | TransformBody | UrlRewrites | TransformMethod
    | AllowPaths | BlockPaths | IgnoreAuthPaths | MockResponses | EndpointRateLimits | HealthCheck | ServiceDiscovery
    | CircuitBreaker | Retries | EnableUpgrades | Http2 | CacheBlock | GraphQlBlock | Plugins

  datatype Content = Text(t: string) | Texts(ts: seq<string>) | Count(n: nat) | Flag(b: bool) | Block(p: Option<Part>) | Rules(ps: seq<Part>)

  function Look(d: ApiDefinition, s: Setting): Content {
    match s
    case TargetUrl => Text(d.targetUrl)
    case TargetList => Texts(d.targetList)
    case TimeoutMs => Count(d.timeoutMs)
    case TransformHeaders => Block(d.transformHeaders)
    case TransformBody => Block(d.transformBody)
    case UrlRewrites => Rules(d.urlRewrites)
    case TransformMethod => Block(d.transformMethod)
    case AllowPaths => Rules(d.allowPaths)
    case BlockPaths => Rules(d.blockPaths)
    case IgnoreAuthPaths => Rules(d.ignoreAuthPaths)
    case MockResponses => Rules(d.mockResponses)
    case EndpointRateLimits => Rules(d.endpointRateLimits)
    case HealthCheck => Block(d.healthCheck)
    case ServiceDiscovery => Block(d.serviceDiscovery)
    case CircuitBreaker => Block(d.circuitBreaker)
    case Retries => Count(d.retries)
    case EnableUpgrades => Flag(d.enableUpgrades)
    case Http2 => Flag(d.http2)
    case CacheBlock => Block(d.cache)
    case GraphQlBlock => Block(d.graphql)
    case Plugins => Block(d.plugins)
  }

  function GivenBlock(p: Option<Part>): Option<Content> {
    if p.Some? then Some(Block(p)) else None
  }

  function GivenRules(ps: Option<seq<Part>>): Option<Content> {
    if ps.Some? then Some(Rules(ps.value)) else None
  }

  function OverrideOf(o: Overrides, s: Setting): Option<Content> {
    match s
    case TargetUrl => if o.targetUrl.Some? then Some(Text(o.targetUrl.value)) else None
    case TargetList => if o.targetList.Some? then Some(Texts(o.targetList.value)) else None
    case TimeoutMs => if o.timeoutMs.Some? then Some(Count(o.timeoutMs.value)) else None
    case TransformHeaders => GivenBlock(o.transformHeaders)
    case TransformBody => GivenBlock(o.transformBody)
    case UrlRewrites => GivenRules(o.urlRewrites)
    case TransformMethod => GivenBlock(o.transformMethod)
    case AllowPaths => GivenRules(o.allowPaths)
    case BlockPaths => GivenRules(o.blockPaths)
    case IgnoreAuthPaths => GivenRules(o.ignoreAuthPaths)
    case MockResponses => GivenRules(o.mockResponses)
    case EndpointRateLimits => GivenRules(o.endpointRateLimits)
    case HealthCheck => GivenBlock(o.healthCheck)
    case ServiceDiscovery => GivenBlock(o.serviceDiscovery)
    case CircuitBreaker => GivenBlock(o.circuitBreaker)
    case Retries => if o.retries.Some? then Some(Count(o.retries.value)) else None
    case EnableUpgrades => if o.enableUpgrades.Some? then Some(Flag(o.enableUpgrades.value)) else None
    case Http2 => if o.http2.Some? then Some(Flag(o.http2.value)) else None
    case CacheBlock => GivenBlock(o.cache)
    case GraphQlBlock => GivenBlock(o.graphql)
    case Plugins => GivenBlock(o.plugins)
  }

  /** What no version can change: identity, access and limits. */
  predicate SameApi(a: ApiDefinition, b: ApiDefinition) {
    && a.apiId == b.apiId && a.name == b.name && a.orgId == b.orgId && a.listenPath == b.listenPath
    && a.auth == b.auth && a.cors == b.cors && a.allowIps == b.allowIps && a.blockIps == b.blockIps
    && a.maxBodyBytes == b.maxBodyBytes
  }

  /** Under `o`, setting `s` of `d` is the override, or else the base's. */
  predicate OverlaidAt(d: ApiDefinition, base: ApiDefinition, o: Overrides, s: Setting) {
    Look(d, s) == if OverrideOf(o, s).Some? then OverrideOf(o, s).value else Look(base, s)
  }

  /** `d` serves `base` under `o`: the same API without versions, in which
      every override wins and every other setting is the base's. */
  ghost predicate Overlays(d: ApiDefinition, base: ApiDefinition, o: Overrides) {
    SameApi(d, base) && d.versioning == None && forall s :: OverlaidAt(d, base, o, s)
  }

  lemma {:induction false} AppliedAt(base: ApiDefinition, o: Overrides, s: Setting)
    ensures OverlaidAt(Applied(base, o), base, o, s)
  {
    match s
    case TargetUrl =>
    case TargetList =>
    case TimeoutMs =>
    case TransformHeaders =>
    case TransformBody =>
    case UrlRewrites =>
    case TransformMethod =>
    case AllowPaths =>
    case BlockPaths =>
    case IgnoreAuthPaths =>
    case MockResponses =>
    case EndpointRateLimits =>
    case HealthCheck =>
    case ServiceDiscovery =>
    case CircuitBreaker =>
    case Retries =>
    case EnableUpgrades =>
    case Http2 =>
    case CacheBlock =>
    case GraphQlBlock =>
    case Plugins =>
  }

  lemma {:induction false} AppliedOverlays(base: ApiDefinition, o: Overrides)
    ensures Overlays(Applied(base, o), base, o)
  {
    forall s ensures OverlaidAt(Applied(base, o), base, o, s) {
      AppliedAt(base, o, s);
    }
  }

  /** That determines the definition. */
  lemma {:induction false} OverlayUnique(a: ApiDefinition, b: ApiDefinition, base: ApiDefinition, o: Overrides)
    requires Overlays(a, base, o) && Overlays(b, base, o)
    ensures a == b
  {
    forall s ensures Look(a, s) == Look(b, s) {
      assert OverlaidAt(a, base, o, s) && OverlaidAt(b, base, o, s);
    }
    SameLooks(a, b);
  }

  lemma {:induction false} SameRouting(a: ApiDefinition, b: ApiDefinition)
    requires forall s :: Look(a, s) == Look(b, s)
    ensures a.targetUrl == b.targetUrl && a.targetList == b.targetList && a.timeoutMs == b.timeoutMs && a.transformHeaders == b.transformHeaders
    ensures a.transformBody == b.transformBody && a.urlRewrites == b.urlRewrites && a.transformMethod == b.transformMethod
  {
    assert Look(a, TargetUrl) == Look(b, TargetUrl);
    assert Look(a, TargetList) == Look(b, TargetList);
    assert Look(a, TimeoutMs) == Look(b, TimeoutMs);
    assert Look(a, TransformHeaders) == Look(b, TransformHeaders);
    assert Look(a, TransformBody) == Look(b, TransformBody);
    assert Look(a, UrlRewrites) == Look(b, UrlRewrites);
    assert Look(a, TransformMethod) == Look(b, TransformMethod);
  }

  lemma {:induction false} SameRules(a: ApiDefinition, b: ApiDefinition)
    requires forall s :: Look(a, s) == Look(b, s)
    ensures a.allowPaths == b.allowPaths && a.blockPaths == b.blockPaths && a.ignoreAuthPaths == b.ignoreAuthPaths && a.mockResponses == b.mockResponses
    ensures a.endpointRateLimits == b.endpointRateLimits && a.healthCheck == b.healthCheck && a.serviceDiscovery == b.serviceDiscovery
  {
    assert Look(a, AllowPaths) == Look(b, AllowPaths);
    assert Look(a, BlockPaths) == Look(b, BlockPaths);
    assert Look(a, IgnoreAuthPaths) == Look(b, IgnoreAuthPaths);
    assert Look(a, MockResponses) == Look(b, MockResponses);
    assert Look(a, EndpointRateLimits) == Look(b, EndpointRateLimits);
    assert Look(a, HealthCheck) == Look(b, HealthCheck);
    assert Look(a, ServiceDiscovery) == Look(b, ServiceDiscovery);
  }

  lemma {:induction false} SameResilience(a: ApiDefinition, b: ApiDefinition)
    requires forall s :: Look(a, s) == Look(b, s)
    ensures a.circuitBreaker == b.circuitBreaker && a.retries == b.retries && a.enableUpgrades == b.enableUpgrades && a.http2 == b.http2
    ensures a.cache == b.cache && a.graphql == b.graphql && a.plugins == b.plugins
  {
    assert Look(a, CircuitBreaker) == Look(b, CircuitBreaker);
    assert Look(a, Retries) == Look(b, Retries);
    assert Look(a, EnableUpgrades) == Look(b, EnableUpgrades);
    assert Look(a, Http2) == Look(b, Http2);
    assert Look(a, CacheBlock) == Look(b, CacheBlock);
    assert Look(a, GraphQlBlock) == Look(b, GraphQlBlock);
    assert Look(a, Plugins) == Look(b, Plugins);
  }

  lemma {:induction false} SameLooks(a: ApiDefinition, b: ApiDefinition)
    requires SameApi(a, b) && a.versioning == b.versioning && forall s :: Look(a, s) == Look(b, s)
    ensures a == b
  {
    SameRouting(a, b);
    SameRules(a, b);
    SameResilience(a, b);
  }

  lemma {:induction false} EffectiveIs(base: ApiDefinition, o: Overrides, e: ApiDefinition)
    requires forall d :: Overlays(d, base, o) <==> d == e
    ensures e == Applied(base, o)
  {
    AppliedOverlays(base, o);
  }

  /** Updates a copy of the base field by field. */
  method Apply(vs: Versioning, base: ApiDefinition, version: string) returns (r: Option<ApiDefinition>)
    ensures r.Some? <==> version in vs.versions
    ensures r.Some? ==> forall d :: Overlays(d, base, vs.versions[version]) <==> d == r.value
  {
    if version !in vs.versions {
      return None;
    }
    var o := vs.versions[version];
    var def := base.(versioning := None);
    def := def.(targetUrl := Or(o.targetUrl, def.targetUrl));
    def := def.(targetList := Or(o.targetList, def.targetList));
    def := def.(timeoutMs := Or(o.timeoutMs, def.timeoutMs));
    def := def.(transformHeaders := OrKept(o.transformHeaders, def.transformHeaders));
    def := def.(transformBody := OrKept(o.transformBody, def.transformBody));
    def := def.(urlRewrites := Or(o.urlRewrites, def.urlRewrites));
    def := def.(transformMethod := OrKept(o.transformMethod, def.transformMethod));
    def := def.(allowPaths := Or(o.allowPaths, def.allowPaths));
    def := def.(blockPaths := Or(o.blockPaths, def.blockPaths));
    def := def.(ignoreAuthPaths := Or(o.ignoreAuthPaths, def.ignoreAuthPaths));
    def := def.(mockResponses := Or(o.mockResponses, def.mockResponses));
    def := def.(endpointRateLimits := Or(o.endpointRateLimits, def.endpointRateLimits));
    def := def.(healthCheck := OrKept(o.healthCheck, def.healthCheck));
    def := def.(serviceDiscovery := OrKept(o.serviceDiscovery, def.serviceDiscovery));
    def := def.(circuitBreaker := OrKept(o.circuitBreaker, def.circuitBreaker));
    def := def.(retries := Or(o.retries, def.retries));
    def := def.(enableUpgrades := Or(o.enableUpgrades, def.enableUpgrades));
    def := def.(http2 := Or(o.http2, def.http2));
    def := def.(cache := OrKept(o.cache, def.cache));
    def := def.(graphql := OrKept(o.graphql, def.graphql));
    def := def.(plugins := OrKept(o.plugins, def.plugins));
    r := Some(def);
    assert def == Applied(base, o);
    AppliedOverlays(base, o);
    forall d | Overlays(d, base, o) ensures d == def {
      OverlayUnique(d, def, base, o);
    }
  }

  /** A version's overrides leave nothing for a second application to do:
      what serves a served definition is that definition and no other. */
  lemma {:induction false} AppliedOnce(d: ApiDefinition, base: ApiDefinition, o: Overrides, e: ApiDefinition)
    requires Overlays(d, base, o)
    ensures Overlays(e, d, o) <==> e == d
  {
    forall s ensures OverlaidAt(d, d, o, s) {
      assert OverlaidAt(d, base, o, s);
    }
    if Overlays(e, d, o) {
      OverlayUnique(e, d, d, o);
    }
  }

  // ----- validation

  /** The validators of single blocks and the facts they are asked for. */
  datatype Validators = Validators(check: Part -> Option<Error>, urlOk: string -> bool, headerName: string -> bool,
                                   subscriptions: Part -> bool)

  /** Every block validator reports only the definition error. */
  ghost predicate OneVariant(v: Validators) {
    forall p :: v.check(p).Some? ==> v.check(p).value.InvalidApiDefinition?
  }

  function Maybe(p: Option<Part>): seq<Part> {
    if p.Some? then [p.value] else []
  }

  /** All blocks with a validator, in the order they are checked. */
  function Blocks(d: ApiDefinition): seq<Part> {
    [d.auth] + Maybe(d.transformHeaders) + Maybe(d.transformBody) + d.urlRewrites + Maybe(d.transformMethod)
    + d.allowPaths + d.blockPaths + d.ignoreAuthPaths + d.mockResponses + d.endpointRateLimits + Maybe(d.cors)
    + [d.allowIps, d.blockIps] + Maybe(d.healthCheck) + Maybe(d.serviceDiscovery) + Maybe(d.circuitBreaker)
    + Maybe(d.cache) + Maybe(d.graphql) + Maybe(d.plugins)
  }

  predicate Blank(s: string) {
    H.Trim(s) == ""
  }

  predicate FieldsOk(v: Validators, d: ApiDefinition) {
    && HeadOk(v, d)
    && d.maxBodyBytes != Some(0) && d.retries <= 10
    && !(d.http2 && d.enableUpgrades)
    && !(d.http2 && d.graphql.Some? && v.subscriptions(d.graphql.value))
  }

  /** A definition is valid without regard to its versions. */
  predicate BaseValid(v: Validators, d: ApiDefinition) {
    FieldsOk(v, d) && forall i :: 0 <= i < |Blocks(d)| ==> v.check(Blocks(d)[i]).None?
  }

  predicate FirstFailure(v: Validators, ps: seq<Part>, i: int) {
    0 <= i < |ps| && v.check(ps[i]).Some? && forall j :: 0 <= j < i ==> v.check(ps[j]).None?
  }

  /** The fields checked before any block. */
  predicate HeadOk(v: Validators, d: ApiDefinition) {
    && !Blank(d.apiId) && !Blank(d.name) && !Blank(d.orgId)
    && d.listenPath != "" && d.listenPath[0] == '/'
    && d.timeoutMs > 0 && v.urlOk(d.targetUrl)
    && forall i :: 0 <= i < |d.targetList| ==> v.urlOk(d.targetList[i])
  }

  /** The first failure met is a block's, and not the definition error. */
  ghost predicate OtherFailure(v: Validators, d: ApiDefinition) {
    HeadOk(v, d) && exists i :: FirstFailure(v, Blocks(d), i) && v.check(Blocks(d)[i]).value.OtherError?
  }

  predicate NameOk(name: string) {
    name != "" && H.Trim(name) == name
  }

  predicate VersioningOk(v: Validators, vs: Versioning) {
    && (if vs.location.InHeader? then v.headerName(vs.key) else !Blank(vs.key))
    && vs.versions != map[]
    && (forall n :: n in vs.versions ==> NameOk(n))
    && (vs.default.Some? ==> vs.default.value in vs.versions)
  }

  /** A version's overrides make sense and its definition is valid. */
  predicate VersionOk(v: Validators, base: ApiDefinition, o: Overrides) {
    !(o.targetUrl.Some? && Applied(base, o).targetList != []) && BaseValid(v, Applied(base, o))
  }

  /** What the version check lets through: it passes on nothing but the
      definition error of an effective definition. */
  ghost predicate VersionPasses(v: Validators, base: ApiDefinition, o: Overrides) {
    && !(o.targetUrl.Some? && Applied(base, o).targetList != [])
    && (BaseValid(v, Applied(base, o)) || OtherFailure(v, Applied(base, o)))
  }

  /** Exactly what validation accepts, whatever the block validators do. */
  ghost predicate Accepted(v: Validators, d: ApiDefinition) {
    && BaseValid(v, d)
    && (d.versioning.Some? ==>
          VersioningOk(v, d.versioning.value)
          && forall n :: n in d.versioning.value.versions ==> VersionPasses(v, d, d.versioning.value.versions[n]))
  }

  predicate Valid(v: Validators, d: ApiDefinition) {
    && BaseValid(v, d)
    && (d.versioning.Some? ==>
          VersioningOk(v, d.versioning.value)
          && forall n :: n in d.versioning.value.versions ==> VersionOk(v, d, d.versioning.value.versions[n]))
  }

  method CheckBlocks(v: Validators, ps: seq<Part>) returns (r: Option<Error>)
    ensures r.None? <==> forall i :: 0 <= i < |ps| ==> v.check(ps[i]).None?
    ensures r.Some? ==> exists i :: FirstFailure(v, ps, i) && r == v.check(ps[i])
  {
    for i := 0 to |ps|
      invariant forall j :: 0 <= j < i ==> v.check(ps[j]).None?
    {
      if v.check(ps[i]).Some? {
        assert FirstFailure(v, ps, i);
        return v.check(ps[i]);
      }
    }
    r := None;
  }

  method CheckUrls(v: Validators, urls: seq<string>) returns (ok: bool)
    ensures ok <==> forall i :: 0 <= i < |urls| ==> v.urlOk(urls[i])
  {
    for i := 0 to |urls|
      invariant forall j :: 0 <= j < i ==> v.urlOk(urls[j])
    {
      if !v.urlOk(urls[i]) {
        return false;
      }
    }
    ok := true;
  }

  /** The fields checked before any block. */
  method CheckHead(v: Validators, d: ApiDefinition) returns (r: Option<Error>)
    ensures r.None? <==> HeadOk(v, d)
    ensures r.Some? ==> r.value.InvalidApiDefinition?
  {
    if Blank(d.apiId) { return Some(InvalidApiDefinition("`api_id` must not be empty")); }
    if Blank(d.name) { return Some(InvalidApiDefinition("`name` must not be empty")); }
    if Blank(d.orgId) { return Some(InvalidApiDefinition("`org_id` must not be empty")); }
    if d.listenPath == "" || d.listenPath[0] != '/' { return Some(InvalidApiDefinition("`listen_path` must start with '/'")); }
    if d.timeoutMs == 0 { return Some(InvalidApiDefinition("`upstream_timeout_ms` must be greater than zero")); }
    if !v.urlOk(d.targetUrl) { return Some(InvalidApiDefinition("`target_url`")); }
    var urls := CheckUrls(v, d.targetList);
    if !urls { return Some(InvalidApiDefinition("`target_list`")); }
    r := None;
  }

  /** Validates a definition; versions are checked last, each through its
      effective definition, which has none of its own: the recursion ends
      there. */
  method Validate(v: Validators, d: ApiDefinition) returns (r: Option<Error>)
    ensures r.None? <==> Accepted(v, d)
    ensures r == Some(OtherError) <==> OtherFailure(v, d)
    decreases if d.versioning.Some? then 1 else 0, 2
  {
    r := CheckHead(v, d);
    if r.Some? { return; }
    var blocks := CheckBlocks(v, Blocks(d));
    if blocks.Some? {
      OneFirst(v, Blocks(d));
      return blocks;
    }
    if d.maxBodyBytes == Some(0) { return Some(InvalidApiDefinition("`max_request_body_bytes` must be greater than zero")); }
    if d.retries > 10 { return Some(InvalidApiDefinition("`upstream_retries` must be at most 10")); }
    if d.http2 && d.enableUpgrades { return Some(InvalidApiDefinition("`upstream_http2` with `enable_upgrades`")); }
    if d.http2 && d.graphql.Some? && v.subscriptions(d.graphql.value) {
      return Some(InvalidApiDefinition("`upstream_http2` with `graphql.subscriptions`"));
    }
    r := None;
    if d.versioning.Some? {
      r := ValidateVersions(v, d.versioning.value, d);
    }
  }

  method CheckNames(names: set<string>) returns (ok: bool)
    ensures ok <==> forall n :: n in names ==> NameOk(n)
  {
    var left := names;
    while left != {}
      invariant left <= names && forall n :: n in names - left ==> NameOk(n)
      decreases |left|
    {
      var n :| n in left;
      if !NameOk(n) {
        return false;
      }
      left := left - {n};
    }
    ok := true;
  }

  /** Checks every configured version. Only the definition error of an
      effective definition is passed on. */
  method ValidateVersions(v: Validators, vs: Versioning, base: ApiDefinition) returns (r: Option<Error>)
    requires base.versioning == Some(vs)
    ensures r.Some? ==> r.value.InvalidApiDefinition?
    ensures r.None? <==> VersioningOk(v, vs) && forall n :: n in vs.versions ==> VersionPasses(v, base, vs.versions[n])
    decreases if base.versioning.Some? then 1 else 0, 1
  {
    if vs.location.InHeader? && !v.headerName(vs.key) { return Some(InvalidApiDefinition("`versioning.key` is not a valid header name")); }
    if vs.location.InQuery? && Blank(vs.key) { return Some(InvalidApiDefinition("`versioning.key` must not be empty")); }
    if vs.versions == map[] { return Some(InvalidApiDefinition("`versioning.versions` must define at least one version")); }
    var names := CheckNames(vs.versions.Keys);
    if !names { return Some(InvalidApiDefinition("version name")); }
    if vs.default.Some? && vs.default.value !in vs.versions { return Some(InvalidApiDefinition("`versioning.default_version`")); }
    var left := vs.versions.Keys;
    while left != {}
      invariant left <= vs.versions.Keys
      invariant forall n :: n in vs.versions && n !in left ==> VersionPasses(v, base, vs.versions[n])
      decreases |left|
    {
      var n :| n in left;
      var failed := CheckVersion(v, vs, base, n);
      if failed.Some? {
        return failed;
      }
      left := left - {n};
    }
    r := None;
  }

  /** One version, through its effective definition. */
  method CheckVersion(v: Validators, vs: Versioning, base: ApiDefinition, n: string) returns (r: Option<Error>)
    requires base.versioning == Some(vs) && n in vs.versions
    ensures r.Some? ==> r.value.InvalidApiDefinition?
    ensures r.None? <==> VersionPasses(v, base, vs.versions[n])
    decreases if base.versioning.Some? then 1 else 0, 0
  {
    var o := vs.versions[n];
    var effective := Apply(vs, base, n);
    EffectiveIs(base, o, effective.value);
    if o.targetUrl.Some? && effective.value.targetList != [] {
      return Some(InvalidApiDefinition("version: the `target_url` override has no effect"));
    }
    var failed := Validate(v, effective.value);
    if failed.Some? && failed.value.InvalidApiDefinition? {
      return Some(InvalidApiDefinition("version: " + failed.value.reason));
    }
    r := None;
  }

  lemma OneFirst(v: Validators, ps: seq<Part>)
    ensures forall i, j :: FirstFailure(v, ps, i) && FirstFailure(v, ps, j) ==> i == j
  {
  }

  /** An accepted definition is invalid exactly when a version's effective
      definition fails otherwise than by the definition error. */
  lemma {:induction false} LossExact(v: Validators, d: ApiDefinition)
    requires Accepted(v, d)
    ensures Valid(v, d) <==>
            (d.versioning.Some? ==> forall n :: n in d.versioning.value.versions ==> !OtherFailure(v, Applied(d, d.versioning.value.versions[n])))
  {
    if d.versioning.Some? {
      forall n | n in d.versioning.value.versions
        ensures VersionOk(v, d, d.versioning.value.versions[n]) <==> !OtherFailure(v, Applied(d, d.versioning.value.versions[n]))
      {
        assert VersionPasses(v, d, d.versioning.value.versions[n]);
      }
    }
  }

  /** No failure is lost when every validator reports the definition error:
      validation is sound and complete, and every configured version of an
      accepted base has an effective definition that is itself accepted. */
  lemma {:induction false} NothingLost(v: Validators, d: ApiDefinition)
    requires OneVariant(v)
    ensures Accepted(v, d) <==> Valid(v, d)
    ensures Accepted(v, d) && d.versioning.Some? ==>
              forall n, e :: n in d.versioning.value.versions && Overlays(e, d, d.versioning.value.versions[n]) ==> Accepted(v, e)
  {
    if Accepted(v, d) {
      LossExact(v, d);
    }
    if Accepted(v, d) && d.versioning.Some? {
      forall n, e | n in d.versioning.value.versions && Overlays(e, d, d.versioning.value.versions[n]) ensures Accepted(v, e) {
        var o := d.versioning.value.versions[n];
        AppliedOverlays(d, o);
        OverlayUnique(e, Applied(d, o), d, o);
        assert VersionPasses(v, d, o);
      }
    }
  }

  /** The single-variant match does lose failures otherwise: a base whose
      only version breaks a block with another error is accepted. */
  lemma {:induction false} FailureLost(v: Validators, d: ApiDefinition, n: string, o: Overrides)
    requires BaseValid(v, d) && d.versioning.Some? && VersioningOk(v, d.versioning.value)
    requires d.versioning.value.versions == map[n := o] && o.targetUrl.None? && OtherFailure(v, Applied(d, o))
    ensures Accepted(v, d) && !Valid(v, d)
  {
    assert !VersionOk(v, d, o);
  }

  // ----- merging sources

  /** The listen path with every trailing slash removed. */
  function Normalized(path: string): string {
    if path != "" && path[|path| - 1] == '/' then Normalized(path[..|path| - 1]) else path
  }

  ghost predicate NoConflicts(ds: seq<ApiDefinition>) {
    forall i, j :: 0 <= i < j < |ds| ==>
      ds[i].apiId != ds[j].apiId && Normalized(ds[i].listenPath) != Normalized(ds[j].listenPath)
  }

  ghost predicate ById(ds: seq<ApiDefinition>) {
    forall i, j :: 0 <= i < j < |ds| ==> !J.Less(ds[j].apiId, ds[i].apiId)
  }

  /** No id and no normalized path twice. */
  method CheckConflicts(ds: seq<ApiDefinition>) returns (ok: bool)
    ensures ok <==> NoConflicts(ds)
  {
    var ids: set<string>, paths: set<string> := {}, {};
    for i := 0 to |ds|
      invariant NoConflicts(ds[..i])
      invariant ids == IdsUpTo(ds, i) && paths == PathsUpTo(ds, i)
    {
      var normalized := Normalized(ds[i].listenPath);
      if ds[i].apiId in ids || normalized in paths {
        return false;
      }
      ids, paths := ids + {ds[i].apiId}, paths + {normalized};
    }
    assert ds[..|ds|] == ds;
    ok := true;
  }

  ghost function IdsUpTo(ds: seq<ApiDefinition>, i: nat): set<string>
    requires i <= |ds|
  {
    set k | 0 <= k < i :: ds[k].apiId
  }

  ghost function PathsUpTo(ds: seq<ApiDefinition>, i: nat): set<string>
    requires i <= |ds|
  {
    set k | 0 <= k < i :: Normalized(ds[k].listenPath)
  }

  function InsertById(ds: seq<ApiDefinition>, d: ApiDefinition): seq<ApiDefinition> {
    if ds == [] then [d]
    else if J.Less(d.apiId, ds[0].apiId) then [d] + ds
    else [ds[0]] + InsertById(ds[1..], d)
  }

  lemma {:induction false} Inserted(ds: seq<ApiDefinition>, d: ApiDefinition)
    requires ById(ds)
    ensures ById(InsertById(ds, d)) && multiset(InsertById(ds, d)) == multiset(ds) + multiset{d}
  {
    var r := InsertById(ds, d);
    if ds != [] {
      assert ds == [ds[0]] + ds[1..];
      if J.Less(d.apiId, ds[0].apiId) {
        forall i, j | 0 <= i < j < |r| ensures !J.Less(r[j].apiId, r[i].apiId) {
          if i == 0 {
            FirstLeast(ds, j - 1);
            Ordered(d.apiId, ds[0].apiId, ds[j - 1].apiId);
          }
        }
      } else {
        assert ById(ds[1..]);
        Inserted(ds[1..], d);
        forall i, j | 0 <= i < j < |r| ensures !J.Less(r[j].apiId, r[i].apiId) {
          if i == 0 {
            assert r[j] in multiset(InsertById(ds[1..], d));
            assert r[j] == d || r[j] in ds[1..];
          }
        }
      }
    }
  }

  lemma {:induction false} InsertedNext(sorted: seq<ApiDefinition>, all: seq<ApiDefinition>, i: nat)
    requires i < |all| && ById(sorted) && multiset(sorted) == multiset(all[..i])
    ensures ById(InsertById(sorted, all[i])) && multiset(InsertById(sorted, all[i])) == multiset(all[..i + 1])
  {
    Inserted(sorted, all[i]);
    assert all[..i + 1] == all[..i] + [all[i]];
  }

  lemma FirstLeast(ds: seq<ApiDefinition>, j: nat)
    requires ById(ds) && j < |ds|
    ensures !J.Less(ds[j].apiId, ds[0].apiId)
  {
    J.Trichotomy(ds[0].apiId, ds[0].apiId);
  }

  lemma {:induction false} Ordered(a: string, b: string, c: string)
    requires J.Less(a, b) && !J.Less(c, b)
    ensures !J.Less(c, a)
  {
    J.Trichotomy(b, c);
    if J.Less(b, c) {
      J.Transitive(a, b, c);
    }
    J.Trichotomy(a, c);
  }

  /** All definitions of both sources, ordered by id. */
  ghost predicate Merged(r: seq<ApiDefinition>, file: seq<ApiDefinition>, storage: seq<ApiDefinition>) {
    ById(r) && multiset(r) == multiset(file) + multiset(storage)
  }

  /** Merges both sources: succeeds exactly when nothing conflicts, and then
      returns all definitions ordered by id. */
  method MergeSources(file: seq<ApiDefinition>, storage: seq<ApiDefinition>) returns (r: Option<seq<ApiDefinition>>)
    ensures r.Some? <==> NoConflicts(file + storage)
    ensures r.Some? ==> Merged(r.value, file, storage)
  {
    var all := file + storage;
    var ok := CheckConflicts(all);
    if !ok {
      return None;
    }
    var sorted: seq<ApiDefinition> := [];
    for i := 0 to |all|
      invariant ById(sorted) && multiset(sorted) == multiset(all[..i])
    {
      InsertedNext(sorted, all, i);
      sorted := InsertById(sorted, all[i]);
    }
    assert all[..|all|] == all;
    r := Some(sorted);
  }

  lemma {:induction false} SlashesDropped(path: string, n: nat)
    ensures Normalized(path + Slashes(n)) == Normalized(path)
  {
    if n == 0 {
      assert path + Slashes(n) == path;
    } else {
      var p := path + Slashes(n);
      assert p[..|p| - 1] == path + Slashes(n - 1);
      SlashesDropped(path, n - 1);
    }
  }

  lemma {:induction false} OnlySlashesDropped(path: string) returns (n: nat)
    ensures path == Normalized(path) + Slashes(n)
  {
    if path != "" && path[|path| - 1] == '/' {
      n := OnlySlashesDropped(path[..|path| - 1]);
      assert path == path[..|path| - 1] + "/";
      n := n + 1;
    } else {
      n := 0;
      assert path + "" == path;
    }
  }

  /** Paths conflict exactly when they differ in trailing slashes only, in
      any number of them: `/a` and `/a//` do. */
  lemma {:induction false} AllSlashesDropped(a: string, b: string)
    ensures Normalized(a) == Normalized(b) <==> exists p, m: nat, n: nat :: a == p + Slashes(m) && b == p + Slashes(n)
  {
    if Normalized(a) == Normalized(b) {
      var m := OnlySlashesDropped(a);
      var n := OnlySlashesDropped(b);
      assert a == Normalized(a) + Slashes(m) && b == Normalized(a) + Slashes(n);
    }
    if p, m: nat, n: nat :| a == p + Slashes(m) && b == p + Slashes(n) {
      SlashesDropped(p, m);
      SlashesDropped(p, n);
    }
  }

  function Slashes(n: nat): string {
    if n == 0 then "" else Slashes(n - 1) + "/"
  }

  // ----- order plays no part

  predicate NoClash(x: ApiDefinition, y: ApiDefinition) {
    x.apiId != y.apiId && Normalized(x.listenPath) != Normalized(y.listenPath)
  }

  ghost predicate ConflictFree(m: multiset<ApiDefinition>) {
    (forall x :: x in m ==> m[x] == 1) && forall x, y :: x in m && y in m && x != y ==> NoClash(x, y)
  }

  lemma {:induction false} ConflictsByContent(ds: seq<ApiDefinition>)
    ensures NoConflicts(ds) <==> ConflictFree(multiset(ds))
  {
    if ds != [] {
      var n := |ds| - 1;
      var init, d := ds[..n], ds[n];
      assert ds == init + [d];
      ConflictsByContent(init);
      SnocConflicts(ds);
      assert multiset(ds) == multiset(init) + multiset{d};
      OneMore(multiset(init), d);
      assert forall x :: x in multiset(init) <==> x in init;
    }
  }

  lemma SnocConflicts(ds: seq<ApiDefinition>)
    requires ds != []
    ensures var n := |ds| - 1; NoConflicts(ds) <==> NoConflicts(ds[..n]) && forall x :: x in ds[..n] ==> NoClash(x, ds[n])
  {
    var n := |ds| - 1;
    assert forall i :: 0 <= i < n ==> ds[..n][i] == ds[i];
    if NoConflicts(ds[..n]) && forall x :: x in ds[..n] ==> NoClash(x, ds[n]) {
      forall i, j | 0 <= i < j < |ds| ensures NoClash(ds[i], ds[j]) {
        assert ds[..n][i] in ds[..n];
        assert j < n ==> ds[..n][j] == ds[j];
      }
    }
  }

  lemma OneMore(m: multiset<ApiDefinition>, d: ApiDefinition)
    ensures ConflictFree(m + multiset{d}) <==> ConflictFree(m) && forall x :: x in m ==> NoClash(x, d)
  {
    var all := m + multiset{d};
    assert forall x :: x in all <==> x in m || x == d;
    assert forall x :: all[x] == m[x] + if x == d then 1 else 0;
    if ConflictFree(all) {
      assert d !in m;
      forall x, y | x in m && y in m && x != y ensures NoClash(x, y) {
        assert x in all && y in all;
      }
      forall x | x in m ensures NoClash(x, d) {
        assert x in all && d in all;
      }
      forall x | x in m ensures m[x] == 1 {
        assert x in all;
      }
    }
  }

  /** Ordered definitions with distinct ids are determined by their contents. */
  lemma {:induction false} OrderUnique(a: seq<ApiDefinition>, b: seq<ApiDefinition>)
    requires ById(a) && ById(b) && multiset(a) == multiset(b) && ConflictFree(multiset(a))
    ensures a == b
  {
    SameLength(a, b);
    if a != [] {
      SameLeast(a, b);
      Tail(a);
      Tail(b);
      OneMore(multiset(a[1..]), a[0]);
      SameRest(multiset(a[1..]), multiset(b[1..]), a[0]);
      TailById(a);
      TailById(b);
      OrderUnique(a[1..], b[1..]);
    }
  }

  lemma SameLength<T>(a: seq<T>, b: seq<T>)
    requires multiset(a) == multiset(b)
    ensures |a| == |b|
  {
    assert |multiset(a)| == |a| && |multiset(b)| == |b|;
  }

  lemma Tail<T>(a: seq<T>)
    requires a != []
    ensures multiset(a) == multiset(a[1..]) + multiset{a[0]} && a == [a[0]] + a[1..]
  {
    assert a == [a[0]] + a[1..];
  }

  lemma SameRest<T>(m: multiset<T>, n: multiset<T>, x: T)
    requires m + multiset{x} == n + multiset{x}
    ensures m == n
  {
    assert (m + multiset{x}) - multiset{x} == m && (n + multiset{x}) - multiset{x} == n;
  }

  lemma TailById(a: seq<ApiDefinition>)
    requires ById(a) && a != []
    ensures ById(a[1..])
  {
    assert forall i :: 0 <= i < |a[1..]| ==> a[1..][i] == a[i + 1];
  }

  lemma {:induction false} SameLeast(a: seq<ApiDefinition>, b: seq<ApiDefinition>)
    requires ById(a) && ById(b) && a != [] && b != [] && multiset(a) == multiset(b) && ConflictFree(multiset(a))
    ensures a[0] == b[0]
  {
    assert a[0] in multiset(b) && b[0] in multiset(a);
    var i :| 0 <= i < |b| && b[i] == a[0];
    var j :| 0 <= j < |a| && a[j] == b[0];
    FirstLeast(b, i);
    FirstLeast(a, j);
    J.Trichotomy(a[0].apiId, b[0].apiId);
  }

  /** Merging is deterministic: reordering or redistributing the definitions
      over the sources changes neither success nor result. */
  lemma {:induction false} MergeDeterministic(f: seq<ApiDefinition>, s: seq<ApiDefinition>, f': seq<ApiDefinition>, s': seq<ApiDefinition>,
                                              r: seq<ApiDefinition>, r': seq<ApiDefinition>)
    requires multiset(f) + multiset(s) == multiset(f') + multiset(s')
    ensures NoConflicts(f + s) <==> NoConflicts(f' + s')
    ensures NoConflicts(f + s) && Merged(r, f, s) && Merged(r', f', s') ==> r == r'
  {
    ConflictsByContent(f + s);
    ConflictsByContent(f' + s');
    assert multiset(f + s) == multiset(f' + s');
    if NoConflicts(f + s) && Merged(r, f, s) && Merged(r', f', s') {
      OrderUnique(r, r');
    }
  }
}
