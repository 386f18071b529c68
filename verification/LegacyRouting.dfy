/** Where a request goes: the routing built at startup from the legacy configuration
    (cmd/iulita/main.go, lines 678-889 and 2471-2499; internal/llm/router.go, lines 84-113;
    internal/llm/classifier.go, lines 23-64 and 169-181), and the model
    policy drafted from the same configuration (cmd/iulita/models.go, lines 108-196;
    internal/llm/profiles.go, lines 175-232). */
module LegacyRouting {
  import opened Options

  /** A provider name as the configuration writes it. */
  datatype Name = Unset | Claude | Haiku | OpenAI | DeepSeek | Ollama | Unknown(text: string)

  /** A hint, likewise; `NoHint` is the empty one. */
  datatype Hint =
    | NoHint | Light | Vision | Everyday | Complex | Background
    | ForOpenAI | ForDeepSeek | ForOllama | Custom(text: string)

  datatype Route = Route(hint: Hint, provider: Name)

  datatype Config = Config(
    claudeKey: bool, claudeModel: string, claudeLimit: int,
    openaiKey: bool, openaiModel: string, openaiLimit: int, openaiFallback: bool,
    deepseekKey: bool, deepseekModel: string, deepseekLimit: int, deepseekFallback: bool,
    ollamaUrl: bool, ollamaModel: string,
    cached: bool, routingEnabled: bool, defaultProvider: Name,
    lightEnabled: bool, lightProvider: Name, routes: seq<Route>,
    classification: bool, classificationProvider: Name)

  /** A request by its route hint, by a "hint:" at the start of its message, or with both. */
  datatype Request = Hinted(hint: Hint) | Prefixed(hint: Hint) | Both(hint: Hint, prefix: Hint)

  // ---------- what both sides choose from ----------

  predicate IsHaiku(model: string) { model == "claude-haiku-4-5" || model == HAIKU }

  /** The providers a configuration makes available. */
  function Available(cfg: Config): set<Name> {
    (if cfg.claudeKey then {Claude} else {}) +
    (if cfg.claudeKey && !IsHaiku(cfg.claudeModel) then {Haiku} else {}) +
    (if cfg.openaiKey && cfg.openaiModel != "" then {OpenAI} else {}) +
    (if cfg.deepseekKey && cfg.deepseekModel != "" then {DeepSeek} else {}) +
    (if cfg.ollamaUrl && cfg.ollamaModel != "" then {Ollama} else {})
  }

  lemma AvailableIs(cfg: Config)
    ensures Claude in Available(cfg) <==> cfg.claudeKey
    ensures Haiku in Available(cfg) <==> cfg.claudeKey && !IsHaiku(cfg.claudeModel)
    ensures OpenAI in Available(cfg) <==> cfg.openaiKey && cfg.openaiModel != ""
    ensures DeepSeek in Available(cfg) <==> cfg.deepseekKey && cfg.deepseekModel != ""
    ensures Ollama in Available(cfg) <==> cfg.ollamaUrl && cfg.ollamaModel != ""
    ensures Available(cfg) <= {Claude, Haiku, OpenAI, DeepSeek, Ollama}
  {
    hide IsHaiku;
  }

  predicate ClaudeNamed(cfg: Config) { cfg.claudeKey ==> cfg.claudeModel != "" }

  /** The providers with a drafted profile: a profile needs a model. */
  function Targets(cfg: Config): set<Name> {
    if ClaudeNamed(cfg) then Available(cfg) else Available(cfg) - {Claude}
  }

  function FirstOf(offered: set<Name>): Option<Name> {
    if Claude in offered then Some(Claude)
    else if OpenAI in offered then Some(OpenAI)
    else if DeepSeek in offered then Some(DeepSeek)
    else if Ollama in offered then Some(Ollama)
    else None
  }

  function DefaultOf(cfg: Config, offered: set<Name>): Option<Name> {
    if cfg.defaultProvider in offered then Some(cfg.defaultProvider) else FirstOf(offered)
  }

  function Builtin(offered: set<Name>, h: Hint): Option<Name> {
    match h
    case ForOpenAI => if OpenAI in offered then Some(OpenAI) else None
    case ForDeepSeek => if DeepSeek in offered then Some(DeepSeek) else None
    case ForOllama => if Ollama in offered then Some(Ollama) else None
    case _ => None
  }

  /** The last route of a hint whose provider is offered. */
  function RouteOf(offered: set<Name>, routes: seq<Route>, h: Hint): Option<Name> {
    if routes == [] then Builtin(offered, h)
    else
      var r := routes[|routes| - 1];
      if r.hint == h && r.provider in offered then Some(r.provider)
      else RouteOf(offered, routes[..|routes| - 1], h)
  }

  /** A custom route for this hint that leads somewhere. */
  predicate Serves(offered: set<Name>, r: Route, h: Hint) { r.hint == h && r.provider in offered }

  /** A hint goes where the last route that serves it leads. */
  lemma {:induction false} LastRouteWins(offered: set<Name>, routes: seq<Route>, h: Hint, k: nat)
    requires k < |routes| && Serves(offered, routes[k], h)
    requires forall j | k < j < |routes| :: !Serves(offered, routes[j], h)
    ensures RouteOf(offered, routes, h) == Some(routes[k].provider)
  {
    if k < |routes| - 1 { LastRouteWins(offered, routes[..|routes| - 1], h, k); }
  }

  /** Without one it goes where the program sends it itself. */
  lemma {:induction false} UnservedHint(offered: set<Name>, routes: seq<Route>, h: Hint)
    requires forall k | 0 <= k < |routes| :: !Serves(offered, routes[k], h)
    ensures RouteOf(offered, routes, h) == Builtin(offered, h)
  {
    if routes != [] { UnservedHint(offered, routes[..|routes| - 1], h); }
  }

  /** The order in which providers are preferred. */
  const PREFERENCE := [Claude, OpenAI, DeepSeek, Ollama]

  lemma FirstIsPreferred(offered: set<Name>, k: nat)
    requires k <= |PREFERENCE| && forall j | 0 <= j < k :: PREFERENCE[j] !in offered
    requires k < |PREFERENCE| ==> PREFERENCE[k] in offered
    ensures FirstOf(offered) == if k < |PREFERENCE| then Some(PREFERENCE[k]) else None
  {
    assert k > 0 ==> PREFERENCE[0] !in offered;
    assert k > 1 ==> PREFERENCE[1] !in offered;
    assert k > 2 ==> PREFERENCE[2] !in offered;
    assert k > 3 ==> PREFERENCE[3] !in offered;
  }

  /** The configured default comes before that order. */
  lemma ConfiguredDefaultWins(cfg: Config, offered: set<Name>)
    ensures cfg.defaultProvider in offered ==> DefaultOf(cfg, offered) == Some(cfg.defaultProvider)
    ensures cfg.defaultProvider !in offered ==> DefaultOf(cfg, offered) == FirstOf(offered)
  {
    hide FirstOf;
  }

  function Or(a: Option<Name>, b: Option<Name>): Option<Name> { if a.Some? then a else b }

  // ---------- startup ----------

  /** The provider startup looks up for a hint: the light or vision route, or a custom or built-in one. */
  function RouteAtStartup(cfg: Config, h: Hint): Option<Name> {
    var a := Available(cfg);
    var light := if cfg.lightProvider == Unset then Haiku else cfg.lightProvider;
    if h == Light && cfg.lightEnabled && light in a then Some(light)
    else if h == Vision && Claude in a then Some(Claude)
    else RouteOf(a, cfg.routes, h)
  }

  /** Where a request went before: a route hint comes first, unless it is empty, then the message. */
  function StartupName(cfg: Config, q: Request): Option<Name> {
    var byHint := if q.Prefixed? || q.hint == NoHint then None else RouteAtStartup(cfg, q.hint);
    var byMessage :=
      match q
      case Hinted(_) => None
      case Prefixed(h) => RouteAtStartup(cfg, h)
      case Both(_, p) => RouteAtStartup(cfg, p);
    Or(byHint, Or(byMessage, DefaultOf(cfg, Available(cfg))))
  }

  const HAIKU := "claude-haiku-4-5-20251001"

  /** What a request is sent to: whose account, which model, and how many output tokens it may take. */
  datatype Call = Call(connection: Name, model: string, limit: Option<int>)

  /** The call behind a provider name: the models and limits of the configuration, save that OpenAI and DeepSeek
      have a default limit, and Ollama has none. */
  function StartupCall(cfg: Config, n: Name): Call {
    match n
    case Claude => Call(Claude, cfg.claudeModel, Some(cfg.claudeLimit))
    case Haiku => Call(Claude, HAIKU, Some(cfg.claudeLimit))
    case OpenAI => Call(OpenAI, cfg.openaiModel, Some(if cfg.openaiLimit <= 0 then 4096 else cfg.openaiLimit))
    case DeepSeek => Call(DeepSeek, cfg.deepseekModel, Some(if cfg.deepseekLimit <= 0 then 8192 else cfg.deepseekLimit))
    case Ollama => Call(Ollama, cfg.ollamaModel, None)
    case _ => Call(n, "", None)
  }

  /** A provider and its wrappers. */
  datatype Provider =
    | Backend(name: Name, call: Call)
    | Retry(p: Provider)
    | Fallback(p: Provider, other: Provider)
    | Cached(p: Provider)

  /** The provider asked first. */
  function Primary(p: Provider): Name {
    match p
    case Backend(n, _) => n
    case Retry(q) => Primary(q)
    case Fallback(q, _) => Primary(q)
    case Cached(q) => Primary(q)
  }

  /** The call it makes. */
  function CallOf(p: Provider): Call {
    match p
    case Backend(_, c) => c
    case Retry(q) => CallOf(q)
    case Fallback(q, _) => CallOf(q)
    case Cached(q) => CallOf(q)
  }

  /** All providers that may be asked, in order. */
  function Chain(p: Provider): seq<Name> {
    match p
    case Backend(n, _) => [n]
    case Retry(q) => Chain(q)
    case Fallback(q, other) => Chain(q) + Chain(other)
    case Cached(q) => Chain(q)
  }

  /** Every backend in it makes the call its name stands for. */
  predicate Genuine(cfg: Config, p: Provider) {
    match p
    case Backend(n, c) => c == StartupCall(cfg, n)
    case Retry(q) => Genuine(cfg, q)
    case Fallback(q, other) => Genuine(cfg, q) && Genuine(cfg, other)
    case Cached(q) => Genuine(cfg, q)
  }

  lemma {:induction false} GenuineCalls(cfg: Config, p: Provider)
    requires Genuine(cfg, p)
    ensures CallOf(p) == StartupCall(cfg, Primary(p))
  {
    match p
    case Backend(_, _) =>
    case Retry(q) => GenuineCalls(cfg, q);
    case Fallback(q, _) => GenuineCalls(cfg, q);
    case Cached(q) => GenuineCalls(cfg, q);
  }

  datatype Router = Router(fallThrough: Option<Provider>, routes: map<Hint, Provider>)

  function Picked(p: Option<Provider>): Option<Name> { if p.Some? then Some(Primary(p.value)) else None }

  /** `resolveProvider`. */
  function Answering(r: Router, q: Request): Option<Provider> {
    if !q.Prefixed? && q.hint != NoHint && q.hint in r.routes then Some(r.routes[q.hint])
    else if q.Prefixed? && q.hint in r.routes then Some(r.routes[q.hint])
    else if q.Both? && q.prefix in r.routes then Some(r.routes[q.prefix])
    else r.fallThrough
  }

  function Answer(r: Router, q: Request): Option<Name> { Picked(Answering(r, q)) }

  predicate GenuineRouter(cfg: Config, r: Router) {
    && (r.fallThrough.Some? ==> Genuine(cfg, r.fallThrough.value))
    && forall h | h in r.routes :: Genuine(cfg, r.routes[h])
  }

  datatype Built = Built(
    llm: Option<Provider>, haiku: Option<Provider>, openai: Option<Provider>,
    deepseek: Option<Provider>, deepseekIsPrimary: bool, ollama: Option<Provider>)

  predicate Real(cfg: Config, p: Option<Provider>) { p.Some? ==> Genuine(cfg, p.value) }

  /** Each provider is there when it is available, and the chain starts at the first of them. */
  predicate WellBuilt(cfg: Config, b: Built) {
    var a := Available(cfg);
    && Real(cfg, b.llm) && Real(cfg, b.haiku) && Real(cfg, b.openai) && Real(cfg, b.deepseek) && Real(cfg, b.ollama)
    && Picked(b.llm) == FirstOf(a)
    && Picked(b.haiku) == (if Haiku in a then Some(Haiku) else None)
    && Picked(b.openai) == (if OpenAI in a then Some(OpenAI) else None)
    && Picked(b.deepseek) == (if DeepSeek in a then Some(DeepSeek) else None)
    && Picked(b.ollama) == (if Ollama in a then Some(Ollama) else None)
    && b.deepseekIsPrimary == (FirstOf(a) == Some(DeepSeek))
  }

  /** A provider that asks these in order. */
  predicate Stands(cfg: Config, p: Option<Provider>, chain: seq<Name>) {
    p.Some? ==> Genuine(cfg, p.value) && Chain(p.value) == chain != [] && Primary(p.value) == chain[0]
  }

  predicate Wraps(p: Option<Provider>) { p.Some? ==> !p.value.Backend? }

  lemma StandsAlone(cfg: Config, n: Name)
    ensures Stands(cfg, Some(Backend(n, StartupCall(cfg, n))), [n])
  {
    hide StartupCall;
  }

  lemma StandsWrapped(cfg: Config, p: Provider, chain: seq<Name>)
    requires Stands(cfg, Some(p), chain)
    ensures Stands(cfg, Some(Retry(p)), chain) && Stands(cfg, Some(Cached(p)), chain)
  {
  }

  lemma StandsBacked(cfg: Config, p: Provider, chain: seq<Name>, q: Provider, n: Name)
    requires Stands(cfg, Some(p), chain) && Stands(cfg, Some(q), [n])
    ensures Stands(cfg, Some(Fallback(p, q)), chain + [n])
  {
  }

  method BuildClaude(cfg: Config) returns (llm: Option<Provider>)
    ensures Stands(cfg, llm, [Claude]) && (llm.Some? <==> cfg.claudeKey) && Wraps(llm)
  {
    if !cfg.claudeKey { return None; }
    var raw := Backend(Claude, Call(Claude, cfg.claudeModel, Some(cfg.claudeLimit)));
    StandsAlone(cfg, Claude);
    StandsWrapped(cfg, raw, [Claude]);
    return Some(Retry(raw));
  }

  /** OpenAI comes first if nothing else does, and may stand behind what does. */
  method BuildOpenAI(cfg: Config, llm0: Option<Provider>, ghost chain0: seq<Name>)
    returns (llm: Option<Provider>, openai: Option<Provider>, ghost chain: seq<Name>)
    requires Stands(cfg, llm0, chain0) && Wraps(llm0)
    ensures Stands(cfg, llm, chain) && Stands(cfg, openai, [OpenAI]) && Wraps(llm) && !(openai.Some? && Wraps(openai))
    ensures (openai.Some? <==> cfg.openaiKey && cfg.openaiModel != "") && (llm.Some? <==> llm0.Some? || openai.Some?)
    ensures chain == if openai.None? then chain0 else if llm0.None? then [OpenAI]
                     else if cfg.openaiFallback then chain0 + [OpenAI] else chain0
  {
    hide Genuine, Chain, Primary;
    llm, openai, chain := llm0, None, chain0;
    if cfg.openaiKey && cfg.openaiModel != "" {
      var limit := cfg.openaiLimit;
      if limit <= 0 { limit := 4096; }
      var raw := Backend(OpenAI, Call(OpenAI, cfg.openaiModel, Some(limit)));
      StandsAlone(cfg, OpenAI);
      openai := Some(raw);
      if llm == None {
        StandsWrapped(cfg, raw, [OpenAI]);
        llm, chain := Some(Retry(raw)), [OpenAI];
      } else if cfg.openaiFallback {
        StandsBacked(cfg, llm.value, chain, raw, OpenAI);
        llm, chain := Some(Fallback(llm.value, raw)), chain + [OpenAI];
      }
    }
  }

  method BuildDeepSeek(cfg: Config, llm0: Option<Provider>, ghost chain0: seq<Name>)
    returns (llm: Option<Provider>, deepseek: Option<Provider>, isPrimary: bool, ghost chain: seq<Name>)
    requires Stands(cfg, llm0, chain0) && Wraps(llm0)
    ensures Stands(cfg, llm, chain) && Stands(cfg, deepseek, [DeepSeek]) && Wraps(llm)
    ensures deepseek.Some? <==> cfg.deepseekKey && cfg.deepseekModel != ""
    ensures (llm.Some? <==> llm0.Some? || deepseek.Some?) && (isPrimary <==> llm0.None? && deepseek.Some?)
    ensures chain == if deepseek.None? then chain0 else if llm0.None? then [DeepSeek]
                     else if cfg.deepseekFallback then chain0 + [DeepSeek] else chain0
  {
    hide Genuine, Chain, Primary;
    llm, deepseek, isPrimary, chain := llm0, None, false, chain0;
    if cfg.deepseekKey && cfg.deepseekModel != "" {
      var limit := cfg.deepseekLimit;
      if limit <= 0 { limit := 8192; }
      var raw := Backend(DeepSeek, Call(DeepSeek, cfg.deepseekModel, Some(limit)));
      StandsAlone(cfg, DeepSeek);
      StandsWrapped(cfg, raw, [DeepSeek]);
      deepseek := Some(Retry(raw));
      if llm == None {
        llm, isPrimary, chain := deepseek, true, [DeepSeek];
      } else if cfg.deepseekFallback {
        StandsBacked(cfg, llm.value, chain, deepseek.value, DeepSeek);
        llm, chain := Some(Fallback(llm.value, deepseek.value)), chain + [DeepSeek];
      }
    }
  }

  method BuildHaiku(cfg: Config) returns (haiku: Option<Provider>)
    ensures Stands(cfg, haiku, [Haiku]) && (haiku.Some? <==> cfg.claudeKey && !IsHaiku(cfg.claudeModel))
  {
    hide IsHaiku;
    if !cfg.claudeKey || IsHaiku(cfg.claudeModel) { return None; }
    var raw := Backend(Haiku, Call(Claude, HAIKU, Some(cfg.claudeLimit)));
    StandsAlone(cfg, Haiku);
    StandsWrapped(cfg, raw, [Haiku]);
    return Some(Retry(raw));
  }

  method BuildProviders(cfg: Config) returns (b: Built)
    ensures WellBuilt(cfg, b)
    ensures b.llm == b.openai ==> b.llm == None
    ensures b.llm.Some? ==> (b.llm == b.ollama <==> Available(cfg) == {Ollama})
    ensures b.llm.Some? ==>
              var a, first := Available(cfg), Primary(b.llm.value);
              Chain(b.llm.value) == [first] + (if OpenAI in a - {first} && cfg.openaiFallback then [OpenAI] else [])
                                    + (if DeepSeek in a - {first} && cfg.deepseekFallback then [DeepSeek] else [])
  {
    hide Available, IsHaiku, Genuine, Chain, Primary, StartupCall;
    var llm := BuildClaude(cfg);
    var openai, deepseek, deepseekIsPrimary;
    ghost var chain;
    llm, openai, chain := BuildOpenAI(cfg, llm, [Claude]);
    llm, deepseek, deepseekIsPrimary, chain := BuildDeepSeek(cfg, llm, chain);
    if cfg.cached && llm.Some? {
      StandsWrapped(cfg, llm.value, chain);
      llm := Some(Cached(llm.value));
    }
    var ollama: Option<Provider> := None;
    if cfg.ollamaUrl && cfg.ollamaModel != "" {
      ollama := Some(Backend(Ollama, Call(Ollama, cfg.ollamaModel, None)));
      OllamaStands(cfg);
      if llm == None { llm, chain := ollama, [Ollama]; }
    }
    var haiku := BuildHaiku(cfg);
    b := Built(llm, haiku, openai, deepseek, deepseekIsPrimary, ollama);
    assert Stands(cfg, llm, chain);
    AvailableIs(cfg);
  }

  lemma OllamaStands(cfg: Config)
    ensures Stands(cfg, Some(Backend(Ollama, Call(Ollama, cfg.ollamaModel, None))), [Ollama])
  {
  }

  type Providers = map<Name, Provider>

  /** The provider map has what is available, each under its own name. */
  predicate Faithful(cfg: Config, m: Providers) {
    m.Keys == Available(cfg) && forall n | n in m :: Primary(m[n]) == n && Genuine(cfg, m[n])
  }

  /** The routes answer as the configuration says, up to a given one. */
  ghost predicate Routed(cfg: Config, routes: seq<Route>, m: map<Hint, Provider>) {
    && (forall h :: (if h in m then Some(Primary(m[h])) else None) == RouteOf(Available(cfg), routes, h))
    && forall h | h in m :: Genuine(cfg, m[h])
  }

  method FillProviders(cfg: Config, b: Built) returns (m: Providers, routes: map<Hint, Provider>)
    requires WellBuilt(cfg, b)
    ensures Faithful(cfg, m) && Routed(cfg, [], routes)
  {
    hide Available, IsHaiku, Genuine, Primary;
    AvailableIs(cfg);
    m, routes := map[], map[];
    if cfg.claudeKey { m := m[Claude := b.llm.value]; }
    if b.haiku.Some? { m := m[Haiku := b.haiku.value]; }
    if b.openai.Some? {
      m, routes := m[OpenAI := b.openai.value], routes[ForOpenAI := b.openai.value];
    }
    if b.deepseek.Some? {
      m, routes := m[DeepSeek := b.deepseek.value], routes[ForDeepSeek := b.deepseek.value];
    }
    if b.deepseekIsPrimary {
      m, routes := m[DeepSeek := b.llm.value], routes[ForDeepSeek := b.llm.value];
    }
    if b.ollama.Some? {
      m, routes := m[Ollama := b.ollama.value], routes[ForOllama := b.ollama.value];
    }
  }

  method AddRoutes(cfg: Config, m: Providers, start: map<Hint, Provider>) returns (routes: map<Hint, Provider>)
    requires Faithful(cfg, m) && Routed(cfg, [], start)
    ensures Routed(cfg, cfg.routes, routes)
  {
    hide Available, Builtin;
    routes := start;
    for i := 0 to |cfg.routes|
      invariant Routed(cfg, cfg.routes[..i], routes)
    {
      assert cfg.routes[..i + 1][..i] == cfg.routes[..i];
      if cfg.routes[i].provider in m {
        routes := routes[cfg.routes[i].hint := m[cfg.routes[i].provider]];
      }
    }
    assert cfg.routes[..|cfg.routes|] == cfg.routes;
  }

  /** With a single provider every route that exists leads to it. */
  lemma {:induction false} OnlyOne(n: Name, routes: seq<Route>, h: Hint)
    ensures RouteOf({n}, routes, h) in {None, Some(n)}
  {
    if routes != [] { OnlyOne(n, routes[..|routes| - 1], h); }
  }

  /** Whether the routing block is entered makes no difference to where requests go. */
  lemma InactiveRouting(cfg: Config, b: Built, q: Request)
    requires WellBuilt(cfg, b) && b.haiku == None && b.openai == None
    requires b.deepseek == None || b.deepseekIsPrimary
    requires b.ollama == None || b.llm == b.ollama
    requires b.llm.Some? && b.llm == b.ollama ==> Available(cfg) == {Ollama}
    ensures Answer(Router(b.llm, map[]), q) == StartupName(cfg, q)
  {
    var a := Available(cfg);
    if b.llm.Some? {
      assert a == {Primary(b.llm.value)};
      OnlyOne(Primary(b.llm.value), cfg.routes, q.hint);
      if q.Both? { OnlyOne(Primary(b.llm.value), cfg.routes, q.prefix); }
    } else {
      assert a == {};
      NoRoutes(cfg.routes, q.hint);
      if q.Both? { NoRoutes(cfg.routes, q.prefix); }
    }
  }

  lemma {:induction false} NoRoutes(routes: seq<Route>, h: Hint)
    ensures RouteOf({}, routes, h) == None
  {
    if routes != [] { NoRoutes(routes[..|routes| - 1], h); }
  }

  /** `resolveLightRoute`: an empty name stands for Claude Haiku. */
  function LightRoute(enabled: bool, name: Name, m: Providers): Option<Provider> {
    var n := if name == Unset then Haiku else name;
    if enabled && n in m then Some(m[n]) else None
  }

  /** `pickVisionProvider`. */
  function PickVision(m: Providers): Option<Provider> {
    if Claude in m then Some(m[Claude]) else if Haiku in m then Some(m[Haiku]) else None
  }

  /** The light and vision routes, set over the others. */
  method AddReserved(cfg: Config, m: Providers, plain: map<Hint, Provider>) returns (routes: map<Hint, Provider>)
    requires Faithful(cfg, m) && Routed(cfg, cfg.routes, plain)
    ensures forall h :: Looked(routes, h) == RouteAtStartup(cfg, h)
    ensures forall h | h in routes :: Genuine(cfg, routes[h])
  {
    hide Available, RouteOf, Genuine;
    routes := plain;
    var light := LightRoute(cfg.lightEnabled, cfg.lightProvider, m);
    if light.Some? { routes := routes[Light := light.value]; }
    var vision := PickVision(m);
    if vision.Some? { routes := routes[Vision := vision.value]; }
    HaikuNeedsClaude(cfg);
    assert Routed(cfg, cfg.routes, plain);
  }

  function Looked(routes: map<Hint, Provider>, h: Hint): Option<Name> {
    if h in routes then Some(Primary(routes[h])) else None
  }

  lemma LookedUp(cfg: Config, r: Router, q: Request)
    requires forall h :: Looked(r.routes, h) == RouteAtStartup(cfg, h)
    requires Picked(r.fallThrough) == DefaultOf(cfg, Available(cfg))
    ensures Answer(r, q) == StartupName(cfg, q)
  {
    hide RouteAtStartup, DefaultOf, Available;
    assert Looked(r.routes, q.hint) == RouteAtStartup(cfg, q.hint);
    if q.Both? { assert Looked(r.routes, q.prefix) == RouteAtStartup(cfg, q.prefix); }
  }

  method RoutingBlock(cfg: Config, b: Built) returns (r: Router, m: Providers)
    requires WellBuilt(cfg, b)
    ensures forall q :: Answer(r, q) == StartupName(cfg, q)
    ensures Faithful(cfg, m) && GenuineRouter(cfg, r)
  {
    hide Available, RouteOf, FirstOf, RouteAtStartup, StartupName, Answer, Looked, Routed, Genuine;
    var routes;
    m, routes := FillProviders(cfg, b);
    routes := AddRoutes(cfg, m, routes);
    routes := AddReserved(cfg, m, routes);
    var fallThrough := b.llm;
    if cfg.defaultProvider in m { fallThrough := Some(m[cfg.defaultProvider]); }
    r := Router(fallThrough, routes);
    forall q ensures Answer(r, q) == StartupName(cfg, q) { LookedUp(cfg, r, q); }
  }

  lemma HaikuNeedsClaude(cfg: Config)
    ensures Haiku in Available(cfg) ==> Claude in Available(cfg)
    ensures Unset !in Available(cfg) && Unset !in Targets(cfg)
  {
  }

  /** What the classifier may find a message to be (internal/llm/classifier.go). */
  datatype Category = Simple | Demanding | Creative

  function HintOf(c: Category): Hint {
    match c
    case Simple => Custom("simple")
    case Demanding => Complex
    case Creative => Custom("creative")
  }

  /** Startup classifies messages if it is asked to, has Ollama, and has something to route between. */
  predicate Classifies(cfg: Config) {
    cfg.classification && Ollama in Available(cfg) && (cfg.routingEnabled || Available(cfg) != {Ollama})
  }

  /** Where a request went, given what a classifier would find it to be, if anything: only a request without
      any hint is classified. */
  function ClassifiedName(cfg: Config, q: Request, found: Option<Category>): Option<Name> {
    if q == Hinted(NoHint) && Classifies(cfg) && found.Some? then StartupName(cfg, Hinted(HintOf(found.value)))
    else StartupName(cfg, q)
  }

  /** `Complete` of a router behind an optional classifier, which answers `found`. */
  function ClassifiedAnswer(r: Router, classifier: Option<Provider>, q: Request, found: Option<Category>): Option<Name>
  {
    if q == Hinted(NoHint) && classifier.Some? && found.Some? then Answer(r, Hinted(HintOf(found.value)))
    else Answer(r, q)
  }

  /** The call `Complete` makes. */
  function ClassifiedCall(r: Router, classifier: Option<Provider>, q: Request, found: Option<Category>): Option<Call> {
    var p := if q == Hinted(NoHint) && classifier.Some? && found.Some? then Answering(r, Hinted(HintOf(found.value)))
             else Answering(r, q);
    if p.Some? then Some(CallOf(p.value)) else None
  }

  lemma RouterCalls(cfg: Config, r: Router, q: Request)
    requires GenuineRouter(cfg, r)
    ensures Answering(r, q).Some? ==> CallOf(Answering(r, q).value) == StartupCall(cfg, Answer(r, q).value)
  {
    if Answering(r, q).Some? { GenuineCalls(cfg, Answering(r, q).value); }
  }

  method StartupRouting(cfg: Config) returns (r: Router, classifier: Option<Provider>)
    ensures forall q, found :: ClassifiedAnswer(r, classifier, q, found) == ClassifiedName(cfg, q, found)
    ensures forall q, found ::
              var name, call := ClassifiedName(cfg, q, found), ClassifiedCall(r, classifier, q, found);
              call == if name.Some? then Some(StartupCall(cfg, name.value)) else None
    ensures classifier.Some? ==>
              Primary(classifier.value) == if cfg.classificationProvider in Available(cfg)
                                           then cfg.classificationProvider else Ollama
  {
    hide WellBuilt, StartupName, Available, FirstOf, Genuine, GenuineRouter, StartupCall, Answering;
    var b := BuildProviders(cfg);
    BuiltAs(cfg, b);
    var hasSecondary := b.haiku.Some? || (b.openai.Some? && b.llm != b.openai)
                        || (b.deepseek.Some? && !b.deepseekIsPrimary) || (b.ollama.Some? && b.llm != b.ollama);
    classifier := None;
    if cfg.routingEnabled || hasSecondary {
      var m;
      r, m := RoutingBlock(cfg, b);
      if cfg.classification && b.ollama.Some? {
        classifier := b.ollama;
        if cfg.classificationProvider in m { classifier := Some(m[cfg.classificationProvider]); }
      }
    } else {
      r := Router(b.llm, map[]);
      forall q ensures Answer(r, q) == StartupName(cfg, q) { InactiveRouting(cfg, b, q); }
      PlainRouter(cfg, b);
    }
    forall q ensures Answering(r, q).Some? ==> CallOf(Answering(r, q).value) == StartupCall(cfg, Answer(r, q).value) {
      RouterCalls(cfg, r, q);
    }
  }

  lemma PlainRouter(cfg: Config, b: Built)
    requires WellBuilt(cfg, b)
    ensures GenuineRouter(cfg, Router(b.llm, map[]))
  {
    hide Available, FirstOf;
  }

  lemma BuiltAs(cfg: Config, b: Built)
    requires WellBuilt(cfg, b) && (b.llm.Some? ==> (b.llm == b.ollama <==> Available(cfg) == {Ollama}))
    requires b.llm == b.openai ==> b.llm == None
    ensures b.ollama.Some? <==> Ollama in Available(cfg)
    ensures b.ollama.Some? ==> Primary(b.ollama.value) == Ollama
    ensures b.ollama.Some? ==>
              (Available(cfg) != {Ollama} <==>
                 b.haiku.Some? || (b.openai.Some? && b.llm != b.openai) || (b.deepseek.Some? && !b.deepseekIsPrimary)
                 || b.llm != b.ollama)
  {
    hide IsHaiku;
  }

  // ---------- the draft ----------

  datatype Role = EverydayRole | ComplexRole | BackgroundRole | VisionRole

  datatype Policy = Policy(
    everyday: Option<Name>, complex: Option<Name>, background: Option<Name>, vision: Option<Name>,
    profileHints: map<Hint, Name>, roleHints: map<Hint, Role>)

  function Assigned(p: Policy, role: Role): Option<Name> {
    match role
    case EverydayRole => p.everyday
    case ComplexRole => p.complex
    case BackgroundRole => p.background
    case VisionRole => p.vision
  }

  /** The role of a hint: mapped by the policy, reserved, or the name of a role. */
  function RoleOf(p: Policy, h: Hint): Option<Role> {
    if h in p.roleHints then Some(p.roleHints[h])
    else
      match h
      case Light => Some(BackgroundRole)
      case Vision => Some(VisionRole)
      case Everyday => Some(EverydayRole)
      case Complex => Some(ComplexRole)
      case Background => Some(BackgroundRole)
      case _ => None
  }

  function ProfileOf(p: Policy, role: Role): Option<Name> {
    if role == VisionRole then p.vision else Or(Assigned(p, role), p.everyday)
  }

  /** `resolve` of a profile snapshot, for a request without a pinned profile or role. */
  function Resolve(p: Policy, q: Request): Option<Name> {
    match q
    case Hinted(h) =>
      if h in p.profileHints then Some(p.profileHints[h])
      else ProfileOf(p, if RoleOf(p, h).Some? then RoleOf(p, h).value else EverydayRole)
    case Prefixed(h) =>
      if NoHint in p.profileHints then Some(p.profileHints[NoHint])
      else if NoHint in p.roleHints then ProfileOf(p, p.roleHints[NoHint])
      else ByMessage(p, h)
    case Both(h, m) =>
      if h in p.profileHints then Some(p.profileHints[h])
      else if RoleOf(p, h).Some? then ProfileOf(p, RoleOf(p, h).value)
      else ByMessage(p, m)
  }

  /** The profile of a hint read off a message: names of roles mean nothing here. */
  function ByMessage(p: Policy, h: Hint): Option<Name> {
    if h in p.profileHints then Some(p.profileHints[h])
    else ProfileOf(p, if h in p.roleHints then p.roleHints[h] else EverydayRole)
  }

  const MAX_OUTPUT := 32768

  datatype Profile = Profile(id: Name, connection: Name, model: string, limit: int)

  datatype Settings = Settings(profiles: seq<Profile>, policy: Policy)

  predicate InCatalog(model: string) { model == "deepseek-flash" || model == "deepseek-v4-pro" }

  function Normalised(model: string): string {
    if model == "deepseek-v4-flash" || model == "deepseek-v4-flash-vision-exp" then "deepseek-flash" else model
  }

  predicate DraftExists(cfg: Config) {
    (cfg.deepseekKey ==> InCatalog(Normalised(cfg.deepseekModel))) && DefaultOf(cfg, Targets(cfg)).Some?
  }

  function DraftBackground(cfg: Config): Option<Name> {
    if cfg.lightEnabled && cfg.lightProvider in Targets(cfg) then Some(cfg.lightProvider)
    else DefaultOf(cfg, Targets(cfg))
  }

  function DraftVision(cfg: Config): Option<Name> {
    if Claude in Targets(cfg) then Some(Claude) else if Haiku in Targets(cfg) then Some(Haiku) else None
  }

  /** Where the draft sends a hint: its own profile, or the one of the role it names, if it names one. */
  function DraftOfHint(cfg: Config, h: Hint): Option<Name> {
    var route := RouteOf(Targets(cfg), cfg.routes, h);
    match h
    case Light => DraftBackground(cfg)
    case Vision => DraftVision(cfg)
    case Background => Or(route, DraftBackground(cfg))
    case Everyday => Or(route, DefaultOf(cfg, Targets(cfg)))
    case Complex => Or(route, DefaultOf(cfg, Targets(cfg)))
    case _ => route
  }

  predicate NamesRole(h: Hint) { h in {Light, Vision, Background, Everyday, Complex} }

  function DraftOfMessage(cfg: Config, h: Hint): Option<Name> {
    if h == Light then DraftBackground(cfg)
    else if h == Vision then DraftVision(cfg)
    else Or(RouteOf(Targets(cfg), cfg.routes, h), DefaultOf(cfg, Targets(cfg)))
  }

  /** Where the draft sends a request: the empty hint is a hint to it like any other. */
  function DraftName(cfg: Config, q: Request): Option<Name> {
    var h := if q.Prefixed? then NoHint else q.hint;
    if NamesRole(h) || DraftOfHint(cfg, h).Some? then DraftOfHint(cfg, h)
    else
      match q
      case Hinted(_) => DefaultOf(cfg, Targets(cfg))
      case Prefixed(m) => DraftOfMessage(cfg, m)
      case Both(_, m) => DraftOfMessage(cfg, m)
  }

  function Ids(profiles: seq<Profile>): set<Name> { set p | p in profiles :: p.id }

  /** Profiles of their own names, each with a model and an output limit that a deployment accepts. */
  predicate Admissible(profiles: seq<Profile>) {
    && (forall i, j | 0 <= i < j < |profiles| :: profiles[i].id != profiles[j].id)
    && forall i | 0 <= i < |profiles| ::
         profiles[i].model != "" && 1 <= profiles[i].limit <= MAX_OUTPUT && profiles[i].connection != Haiku
  }

  /** What a profile of this name is drafted to call. */
  function DraftModel(cfg: Config, id: Name): string {
    match id
    case Claude => cfg.claudeModel
    case Haiku => HAIKU
    case OpenAI => cfg.openaiModel
    case DeepSeek => Normalised(cfg.deepseekModel)
    case Ollama => cfg.ollamaModel
    case _ => ""
  }

  function ConfiguredLimit(cfg: Config, id: Name): int {
    match id
    case Claude => cfg.claudeLimit
    case Haiku => cfg.claudeLimit
    case OpenAI => cfg.openaiLimit
    case DeepSeek => cfg.deepseekLimit
    case _ => 4096
  }

  /** An output limit from a configured one: a default if it is not positive, and a cap. */
  predicate Limits(configured: int, limit: int) {
    && (configured <= 0 ==> limit == 4096)
    && (1 <= configured <= MAX_OUTPUT ==> limit == configured)
    && (configured > MAX_OUTPUT ==> limit == MAX_OUTPUT)
  }

  /** Each profile is drafted from the configuration of its name. */
  predicate Drafted(cfg: Config, p: Profile) {
    && p.connection == (if p.id == Haiku then Claude else p.id)
    && p.model == DraftModel(cfg, p.id) && Limits(ConfiguredLimit(cfg, p.id), p.limit)
  }

  predicate AllDrafted(cfg: Config, profiles: seq<Profile>) {
    forall i | 0 <= i < |profiles| :: Drafted(cfg, profiles[i])
  }

  method Add(ghost cfg: Config, profiles: seq<Profile>, id: Name, model: string, limit: int) returns (r: seq<Profile>)
    requires Admissible(profiles) && id !in Ids(profiles) && AllDrafted(cfg, profiles)
    requires model == DraftModel(cfg, id) && limit == ConfiguredLimit(cfg, id)
    ensures Admissible(r) && Ids(r) == if model == "" then Ids(profiles) else Ids(profiles) + {id}
    ensures AllDrafted(cfg, r)
  {
    if model == "" { return profiles; }
    var l := limit;
    if l <= 0 { l := 4096; }
    if l > MAX_OUTPUT { l := MAX_OUTPUT; }
    hide Admissible, Ids;
    var p := Profile(id, if id == Haiku then Claude else id, model, l);
    AddedProfile(profiles, p);
    r := profiles + [p];
  }

  lemma AddedProfile(profiles: seq<Profile>, p: Profile)
    requires Admissible(profiles) && p.id !in Ids(profiles)
    requires p.model != "" && 1 <= p.limit <= MAX_OUTPUT && p.connection != Haiku
    ensures Admissible(profiles + [p]) && Ids(profiles + [p]) == Ids(profiles) + {p.id}
  {
    var r := profiles + [p];
    assert forall i | 0 <= i < |profiles| :: profiles[i].id in Ids(profiles);
    assert r[|profiles|] == p && forall i | 0 <= i < |profiles| :: r[i] == profiles[i];
  }

  /** The Claude profiles, and the one that tasks can be lightened to. */
  method AddClaude(cfg: Config) returns (profiles: seq<Profile>)
    ensures Admissible(profiles) && Ids(profiles) == Targets(cfg) * {Claude, Haiku} && AllDrafted(cfg, profiles)
  {
    hide IsHaiku, Admissible, Available, Drafted;
    AvailableIs(cfg);
    profiles := [];
    assert Admissible(profiles) by { NoProfiles(); }
    if cfg.claudeKey {
      profiles := Add(cfg, profiles, Claude, cfg.claudeModel, cfg.claudeLimit);
      if !IsHaiku(cfg.claudeModel) {
        profiles := Add(cfg, profiles, Haiku, HAIKU, cfg.claudeLimit);
      }
    }
  }

  lemma NoProfiles()
    ensures Admissible([])
  {
  }

  lemma CatalogModelsHaveNames(model: string)
    requires InCatalog(Normalised(model))
    ensures model != "" && Normalised(model) != ""
  {
  }

  /** One profile for each target, or nothing if a DeepSeek model is not in the catalog. */
  method DraftProfiles(cfg: Config) returns (profiles: Option<seq<Profile>>)
    ensures profiles.None? <==> cfg.deepseekKey && !InCatalog(Normalised(cfg.deepseekModel))
    ensures profiles.Some? ==> Admissible(profiles.value) && Ids(profiles.value) == Targets(cfg)
    ensures profiles.Some? ==> AllDrafted(cfg, profiles.value)
  {
    hide IsHaiku, Admissible, Ids, Available, InCatalog, Normalised, AllDrafted;
    AvailableIs(cfg);
    var ps := AddClaude(cfg);
    if cfg.openaiKey { ps := Add(cfg, ps, OpenAI, cfg.openaiModel, cfg.openaiLimit); }
    if cfg.deepseekKey {
      var model := Normalised(cfg.deepseekModel);
      if !InCatalog(model) { return None; }
      CatalogModelsHaveNames(cfg.deepseekModel);
      ps := Add(cfg, ps, DeepSeek, model, cfg.deepseekLimit);
    }
    if cfg.ollamaUrl { ps := Add(cfg, ps, Ollama, cfg.ollamaModel, 4096); }
    return Some(ps);
  }

  ghost predicate HintsDrafted(cfg: Config, routes: seq<Route>, m: map<Hint, Name>) {
    forall h :: (if h in m then Some(m[h]) else None) == RouteOf(Targets(cfg), routes, h)
  }

  method DraftHints(cfg: Config, targets: set<Name>, primary: Name) returns (hints: map<Hint, Name>, complex: Name)
    requires targets == Targets(cfg)
    ensures HintsDrafted(cfg, cfg.routes, hints)
    ensures complex == if Complex in hints then hints[Complex] else primary
  {
    hide Targets;
    hints, complex := map[], primary;
    if OpenAI in targets { hints := hints[ForOpenAI := OpenAI]; }
    if DeepSeek in targets { hints := hints[ForDeepSeek := DeepSeek]; }
    if Ollama in targets { hints := hints[ForOllama := Ollama]; }
    for i := 0 to |cfg.routes|
      invariant HintsDrafted(cfg, cfg.routes[..i], hints)
      invariant complex == if Complex in hints then hints[Complex] else primary
    {
      assert cfg.routes[..i + 1][..i] == cfg.routes[..i];
      var route := cfg.routes[i];
      if route.provider in targets {
        hints := hints[route.hint := route.provider];
        if route.hint == Complex { complex := route.provider; }
      }
    }
    assert cfg.routes[..|cfg.routes|] == cfg.routes;
  }

  method LegacyModelSettings(cfg: Config) returns (s: Option<Settings>)
    ensures s.Some? <==> DraftExists(cfg)
    ensures s.Some? ==> Admissible(s.value.profiles) && Ids(s.value.profiles) == Targets(cfg)
    ensures s.Some? ==> AllDrafted(cfg, s.value.profiles)
    ensures s.Some? ==> forall q :: Resolve(s.value.policy, q) == DraftName(cfg, q)
  {
    hide Targets, InCatalog, Normalised, RouteOf, Admissible, AllDrafted, Ids, HintsDrafted, DraftName, Resolve,
         FirstOf;
    var profiles := DraftProfiles(cfg);
    if profiles == None { return None; }
    var targets := Ids(profiles.value);
    var primary := if cfg.defaultProvider in targets then Some(cfg.defaultProvider) else FirstOf(targets);
    if primary == None { return None; }
    var background := primary.value;
    if cfg.lightEnabled && cfg.lightProvider in targets { background := cfg.lightProvider; }
    var vision: Option<Name> := None;
    if Claude in targets {
      vision := Some(Claude);
    } else if Haiku in targets {
      vision := Some(Haiku);
    }
    var hints, complex := DraftHints(cfg, targets, primary.value);
    ghost var all := hints;
    hints := hints - {Light};
    hints := hints - {Vision};
    var p := Policy(primary, Some(complex), Some(background), vision, hints,
                    map[Light := BackgroundRole, Vision := VisionRole]);
    s := Some(Settings(profiles.value, p));
    DraftedComplex(cfg, all, primary.value);
    forall q ensures Resolve(p, q) == DraftName(cfg, q) { PolicyResolves(cfg, all, p, q); }
  }

  /** A policy assembled like this resolves requests as the draft is meant to. */
  lemma PolicyResolves(cfg: Config, all: map<Hint, Name>, p: Policy, q: Request)
    requires HintsDrafted(cfg, cfg.routes, all) && p.profileHints == all - {Light} - {Vision}
    requires p.roleHints == map[Light := BackgroundRole, Vision := VisionRole]
    requires p.everyday.Some? && p.everyday == DefaultOf(cfg, Targets(cfg))
    requires p.background.Some? && p.background == DraftBackground(cfg) && p.vision == DraftVision(cfg)
    requires p.complex == Or(RouteOf(Targets(cfg), cfg.routes, Complex), p.everyday)
    ensures Resolve(p, q) == DraftName(cfg, q)
  {
    hide Targets, RouteOf, DefaultOf, DraftBackground, DraftVision;
  }

  /** The hints of the draft, looked up in the policy under construction. */
  lemma DraftedComplex(cfg: Config, all: map<Hint, Name>, primary: Name)
    requires HintsDrafted(cfg, cfg.routes, all)
    ensures Some(if Complex in all then all[Complex] else primary)
            == Or(RouteOf(Targets(cfg), cfg.routes, Complex), Some(primary))
  {
    hide Targets, RouteOf;
  }

  // ---------- do they agree? ----------

  /** A profile calls the account that startup called under its name.  It names the same model unless DeepSeek's
      is an old alias, and has the same output limit if one was configured that the draft accepts: their defaults
      agree for OpenAI alone, and startup sets none for Ollama. */
  lemma ProfilesCallAlike(cfg: Config, p: Profile)
    requires Drafted(cfg, p) && p.id in Targets(cfg)
    ensures var call := StartupCall(cfg, p.id);
            && p.connection == call.connection
            && (p.model == call.model <==>
                  !(p.id == DeepSeek && cfg.deepseekModel in {"deepseek-v4-flash", "deepseek-v4-flash-vision-exp"}))
            && (Some(p.limit) == call.limit <==>
                  && p.id != Ollama && ConfiguredLimit(cfg, p.id) <= MAX_OUTPUT
                  && (ConfiguredLimit(cfg, p.id) > 0 || p.id == OpenAI))
  {
    hide Available;
    AvailableIs(cfg);
    assert "deepseek-flash"[9] == 'f' && "deepseek-v4-flash"[9] == 'v' && "deepseek-v4-flash-vision-exp"[9] == 'v';
  }

  /** The profile a request is resolved to. */
  function Resolved(s: Settings, q: Request): Option<Profile> {
    var id := Resolve(s.policy, q);
    if id.None? then None else ProfileNamed(s.profiles, id.value)
  }

  function ProfileNamed(profiles: seq<Profile>, id: Name): Option<Profile> {
    if profiles == [] then None
    else if profiles[0].id == id then Some(profiles[0])
    else ProfileNamed(profiles[1..], id)
  }

  lemma {:induction false} NamedProfile(cfg: Config, profiles: seq<Profile>, id: Name)
    requires AllDrafted(cfg, profiles) && id in Ids(profiles)
    ensures var p := ProfileNamed(profiles, id); p.Some? && p.value.id == id && Drafted(cfg, p.value)
  {
    hide Drafted;
    if profiles[0].id != id {
      assert forall p | p in profiles :: p == profiles[0] || p in profiles[1..];
      NamedProfile(cfg, profiles[1..], id);
    }
  }

  lemma {:induction false} RoutesLeadToOffered(offered: set<Name>, routes: seq<Route>, h: Hint)
    ensures RouteOf(offered, routes, h).Some? ==> RouteOf(offered, routes, h).value in offered
  {
    if routes != [] { RoutesLeadToOffered(offered, routes[..|routes| - 1], h); }
  }

  /** The draft sends requests only to profiles it has. */
  lemma DraftStaysWithin(cfg: Config, q: Request)
    ensures DraftName(cfg, q).Some? ==> DraftName(cfg, q).value in Targets(cfg)
  {
    hide Targets, RouteOf;
    RoutesLeadToOffered(Targets(cfg), cfg.routes, NoHint);
    RoutesLeadToOffered(Targets(cfg), cfg.routes, q.hint);
    if q.Both? { RoutesLeadToOffered(Targets(cfg), cfg.routes, q.prefix); }
  }

  /** A request that keeps its provider's name keeps the account it is charged to and, unless DeepSeek's model is
      an old alias, the model that answers it. */
  lemma SameNameSameCall(cfg: Config, s: Settings, q: Request, found: Option<Category>)
    requires AllDrafted(cfg, s.profiles) && Ids(s.profiles) == Targets(cfg) && Resolve(s.policy, q) == DraftName(cfg, q)
    requires DraftName(cfg, q) == ClassifiedName(cfg, q, found) && DraftName(cfg, q).Some?
    ensures var p, n := Resolved(s, q), ClassifiedName(cfg, q, found).value;
            && p.Some? && p.value.connection == StartupCall(cfg, n).connection
            && (p.value.model == StartupCall(cfg, n).model <==>
                  !(n == DeepSeek && cfg.deepseekModel in {"deepseek-v4-flash", "deepseek-v4-flash-vision-exp"}))
  {
    hide Resolve, DraftName, ClassifiedName, Targets, Ids, Drafted, AllDrafted, StartupCall;
    DraftStaysWithin(cfg, q);
    NamedProfile(cfg, s.profiles, DraftName(cfg, q).value);
    ProfilesCallAlike(cfg, Resolved(s, q).value);
  }

  /** Taking Claude away changes a route only if it led to Claude. */
  lemma {:induction false} RouteWithoutClaude(cfg: Config, routes: seq<Route>, h: Hint)
    ensures RouteOf(Available(cfg), routes, h) != Some(Claude) ==>
              RouteOf(Targets(cfg), routes, h) == RouteOf(Available(cfg), routes, h)
    ensures RouteOf(Targets(cfg), routes, h) == Some(Claude) ==> ClaudeNamed(cfg)
  {
    if routes != [] { RouteWithoutClaude(cfg, routes[..|routes| - 1], h); }
  }

  lemma DefaultWithoutClaude(cfg: Config)
    ensures DefaultOf(cfg, Available(cfg)) != Some(Claude) ==>
              DefaultOf(cfg, Targets(cfg)) == DefaultOf(cfg, Available(cfg))
    ensures DefaultOf(cfg, Targets(cfg)) == Some(Claude) ==> ClaudeNamed(cfg)
  {
  }

  /** What a request needs to be sent to the same provider: Claude, if it is the one, must have a model. */
  predicate Nameable(cfg: Config, q: Request) { ClaudeNamed(cfg) || StartupName(cfg, q) != Some(Claude) }

  /** Every hint but the reserved ones and "background" keeps its provider, if and only if the provider is
      not a Claude without a model. */
  lemma HintsKeepTheirProvider(cfg: Config, h: Hint)
    requires h !in {NoHint, Light, Vision, Background}
    ensures DraftName(cfg, Hinted(h)) == StartupName(cfg, Hinted(h)) <==> Nameable(cfg, Hinted(h))
  {
    hide Available, RouteOf, FirstOf;
    RouteWithoutClaude(cfg, cfg.routes, h);
    DefaultWithoutClaude(cfg);
  }

  /** A request without a hint, whatever a classifier would find it to be: with a route for the empty hint,
      which startup never looks up and the draft obeys, it keeps its provider if that is the one; else if its
      category has no route, or one to the default profile, since a draft does not classify. */
  lemma BareRequests(cfg: Config, found: Option<Category>)
    ensures DraftName(cfg, Hinted(NoHint)) == ClassifiedName(cfg, Hinted(NoHint), found) <==>
              var a := Available(cfg);
              var category := if Classifies(cfg) && found.Some? then RouteOf(a, cfg.routes, HintOf(found.value))
                              else None;
              match RouteOf(Targets(cfg), cfg.routes, NoHint)
              case Some(p) => Or(category, DefaultOf(cfg, a)) == Some(p)
              case None =>
                if category.Some? then category == DefaultOf(cfg, Targets(cfg))
                else ClaudeNamed(cfg) || DefaultOf(cfg, a) != Some(Claude)
  {
    hide Available, RouteOf, FirstOf, Classifies;
    DefaultWithoutClaude(cfg);
  }

  /** "background" was an ordinary hint and becomes a role: without a route of its own it goes to the light
      provider where it used to go to the default one. */
  lemma BackgroundHint(cfg: Config)
    ensures DraftName(cfg, Hinted(Background)) == StartupName(cfg, Hinted(Background)) <==>
              (Nameable(cfg, Hinted(Background))
               && (RouteOf(Available(cfg), cfg.routes, Background).Some?
                   || (cfg.lightEnabled && cfg.lightProvider in Targets(cfg) ==>
                         DefaultOf(cfg, Available(cfg)) == Some(cfg.lightProvider))))
  {
    hide Available, RouteOf, FirstOf;
    RouteWithoutClaude(cfg, cfg.routes, Background);
    DefaultWithoutClaude(cfg);
  }

  /** Whether a light task keeps its provider: not if the light provider is left unset (startup takes Claude
      Haiku, the draft the default), nor if a custom route stands in for a light provider that is not
      available. */
  predicate LightKept(cfg: Config) {
    var a, primary := Available(cfg), DefaultOf(cfg, Targets(cfg));
    if cfg.lightEnabled && cfg.lightProvider in a then ClaudeNamed(cfg) || cfg.lightProvider != Claude
    else if cfg.lightEnabled && cfg.lightProvider == Unset && Haiku in a then primary == Some(Haiku)
    else
      match RouteOf(a, cfg.routes, Light)
      case Some(p) => primary == Some(p)
      case None => ClaudeNamed(cfg) || DefaultOf(cfg, a) != Some(Claude)
  }

  lemma LightTasks(cfg: Config)
    ensures DraftName(cfg, Hinted(Light)) == StartupName(cfg, Hinted(Light)) <==> LightKept(cfg)
  {
    hide Available, RouteOf, FirstOf;
    HaikuNeedsClaude(cfg);
    DefaultWithoutClaude(cfg);
  }

  /** Whether images keep their provider: exactly when Claude is one of the profiles.  Otherwise startup leaves
      them to the default provider, and the draft has none for them. */
  predicate VisionKept(cfg: Config) { Claude in Targets(cfg) || Available(cfg) == {} }

  lemma VisionTasks(cfg: Config)
    ensures DraftName(cfg, Hinted(Vision)) == StartupName(cfg, Hinted(Vision)) <==> VisionKept(cfg)
  {
    HaikuNeedsClaude(cfg);
    hide IsHaiku, RouteOf;
    if Claude !in Available(cfg) {
      if Available(cfg) == {} {
        NoRoutes(cfg.routes, Vision);
      } else {
        SomeDefault(cfg);
      }
    }
  }

  lemma SomeDefault(cfg: Config)
    requires Available(cfg) != {}
    ensures DefaultOf(cfg, Available(cfg)).Some?
  {
    hide IsHaiku;
  }

  /** Whether a hint in the message keeps its provider once it is read: "background" and the other roles
      count as ordinary here. */
  predicate ReadAlike(cfg: Config, h: Hint) {
    if h == Light then LightKept(cfg)
    else if h == Vision then VisionKept(cfg)
    else ClaudeNamed(cfg) || Or(RouteAtStartup(cfg, h), DefaultOf(cfg, Available(cfg))) != Some(Claude)
  }

  /** A hint in the message: with a route for the empty hint the draft never reads it, and it keeps its
      provider only if that is the one. */
  predicate MessageKept(cfg: Config, h: Hint) {
    match RouteOf(Targets(cfg), cfg.routes, NoHint)
    case Some(p) => Or(RouteAtStartup(cfg, h), DefaultOf(cfg, Available(cfg))) == Some(p)
    case None => ReadAlike(cfg, h)
  }

  lemma MessageReadAlike(cfg: Config, h: Hint)
    ensures DraftOfMessage(cfg, h) == Or(RouteAtStartup(cfg, h), DefaultOf(cfg, Available(cfg))) <==> ReadAlike(cfg, h)
  {
    hide Available, RouteOf, FirstOf, LightKept, VisionKept;
    LightTasks(cfg);
    VisionTasks(cfg);
    RouteWithoutClaude(cfg, cfg.routes, h);
    DefaultWithoutClaude(cfg);
  }

  lemma MessageHints(cfg: Config, h: Hint)
    ensures DraftName(cfg, Prefixed(h)) == StartupName(cfg, Prefixed(h)) <==> MessageKept(cfg, h)
  {
    MessageReadAlike(cfg, h);
    hide Available, RouteOf, FirstOf, ReadAlike, DraftOfMessage, RouteAtStartup;
  }

  /** A request with both: if startup has a route for the hint, it keeps its provider as without the message,
      save that a light or vision hint must lead to the role's profile.  If it has none, startup reads the
      message; the draft does so only if the hint names no role, and never for the sake of an empty one. */
  lemma BothHints(cfg: Config, h: Hint, m: Hint)
    ensures DraftName(cfg, Both(h, m)) == StartupName(cfg, Both(h, m)) <==>
              var route := RouteAtStartup(cfg, h);
              var rest := Or(RouteAtStartup(cfg, m), DefaultOf(cfg, Available(cfg)));
              if h == NoHint then MessageKept(cfg, m)
              else if h == Light then DraftBackground(cfg) == Or(route, rest)
              else if h == Vision then DraftVision(cfg) == Or(route, rest)
              else if route.Some? then ClaudeNamed(cfg) || route != Some(Claude)
              else if h == Background then DraftBackground(cfg) == rest
              else if h in {Everyday, Complex} then DefaultOf(cfg, Targets(cfg)) == rest
              else ReadAlike(cfg, m)
  {
    MessageReadAlike(cfg, m);
    MessageHints(cfg, m);
    RouteWithoutClaude(cfg, cfg.routes, h);
    NothingUnnamed(cfg, m);
    hide Available, RouteOf, FirstOf, ReadAlike, MessageKept, DraftBackground, DraftVision, DefaultOf;
  }

  /** The draft never sends a request to a Claude without a model. */
  lemma NothingUnnamed(cfg: Config, m: Hint)
    ensures !ClaudeNamed(cfg) ==>
              && DraftOfMessage(cfg, m) != Some(Claude) && DefaultOf(cfg, Targets(cfg)) != Some(Claude)
              && DraftBackground(cfg) != Some(Claude) && DraftVision(cfg) != Some(Claude)
  {
    hide Available, RouteOf;
    RouteWithoutClaude(cfg, cfg.routes, m);
  }

  // ---------- each difference occurs ----------

  /** Nothing configured. */
  const NOTHING := Config(false, "", 0, false, "", 0, false, false, "", 0, false, false, "",
                          false, false, Unset, false, Unset, [], false, Unset)

  const CLAUDE_ONLY := NOTHING.(claudeKey := true, claudeModel := "m")

  const OPENAI_ONLY := NOTHING.(openaiKey := true, openaiModel := "m")

  lemma ClaudeOnly(cfg: Config)
    requires cfg.claudeKey && cfg.claudeModel == "m" && !cfg.openaiKey && !cfg.deepseekKey && !cfg.ollamaUrl
    ensures Available(cfg) == Targets(cfg) == {Claude, Haiku}
  {
    assert "claude-haiku-4-5"[0] == 'c' && "claude-haiku-4-5-20251001"[0] == 'c' && "m"[0] == 'm';
  }

  /** A Claude without a model: the request went to Claude, and goes to OpenAI. */
  lemma AnOrdinaryHintMoves()
    ensures var cfg := OPENAI_ONLY.(claudeKey := true);
            && DraftExists(cfg)
            && StartupName(cfg, Hinted(Everyday)) == StartupName(cfg, Prefixed(Everyday)) == Some(Claude)
            && DraftName(cfg, Hinted(Everyday)) == DraftName(cfg, Prefixed(Everyday)) == Some(OpenAI)
  {
    hide IsHaiku;
  }

  /** A route for the empty hint. */
  lemma ABareRequestMoves()
    ensures var cfg := CLAUDE_ONLY.(routes := [Route(NoHint, Haiku)]);
            && DraftExists(cfg) && StartupName(cfg, Hinted(NoHint)) == Some(Claude)
            && DraftName(cfg, Hinted(NoHint)) == Some(Haiku)
  {
    ClaudeOnly(CLAUDE_ONLY.(routes := [Route(NoHint, Haiku)]));
    hide Available;
  }

  /** The same route: a hint in the message is not read any more. */
  lemma AMessageHintMoves()
    ensures var cfg := CLAUDE_ONLY.(routes := [Route(NoHint, Haiku)]);
            && DraftExists(cfg) && StartupName(cfg, Prefixed(Everyday)) == Some(Claude)
            && DraftName(cfg, Prefixed(Everyday)) == Some(Haiku)
  {
    ClaudeOnly(CLAUDE_ONLY.(routes := [Route(NoHint, Haiku)]));
    hide Available;
  }

  /** A hint that names a role hides the one in the message. */
  lemma AHiddenMessageHintMoves()
    ensures var cfg := CLAUDE_ONLY.(ollamaUrl := true, ollamaModel := "m");
            && DraftExists(cfg) && StartupName(cfg, Both(Everyday, ForOllama)) == Some(Ollama)
            && DraftName(cfg, Both(Everyday, ForOllama)) == Some(Claude)
  {
    hide IsHaiku;
  }

  /** A message that startup classifies as demanding and routes to Ollama. */
  lemma AClassifiedRequestMoves()
    ensures var cfg := CLAUDE_ONLY.(ollamaUrl := true, ollamaModel := "m", classification := true,
                                    routes := [Route(Complex, Ollama)]);
            && DraftExists(cfg) && ClassifiedName(cfg, Hinted(NoHint), Some(Demanding)) == Some(Ollama)
            && DraftName(cfg, Hinted(NoHint)) == Some(Claude)
  {
    hide IsHaiku;
  }

  /** The light provider set to its usual value. */
  lemma TheBackgroundHintMoves()
    ensures var cfg := CLAUDE_ONLY.(lightEnabled := true, lightProvider := Haiku);
            && DraftExists(cfg) && StartupName(cfg, Hinted(Background)) == Some(Claude)
            && DraftName(cfg, Hinted(Background)) == Some(Haiku)
  {
    ClaudeOnly(CLAUDE_ONLY.(lightEnabled := true, lightProvider := Haiku));
    hide Available;
  }

  /** The light provider left unset. */
  lemma LightTasksMove()
    ensures var cfg := CLAUDE_ONLY.(lightEnabled := true);
            && DraftExists(cfg) && StartupName(cfg, Hinted(Light)) == Some(Haiku)
            && DraftName(cfg, Hinted(Light)) == Some(Claude)
  {
    ClaudeOnly(CLAUDE_ONLY.(lightEnabled := true));
    hide Available;
  }

  /** No Claude. */
  lemma ImagesAreLost()
    ensures DraftExists(OPENAI_ONLY) && StartupName(OPENAI_ONLY, Hinted(Vision)) == Some(OpenAI)
            && DraftName(OPENAI_ONLY, Hinted(Vision)) == None
  {
    hide IsHaiku;
  }

  // ---------- the dashboard's view ----------

  /** What the dashboard knows: the policy, whether its revision is the active one and not failed, the
      profiles, the connections with a credential that are not suspended, the forbidden ones, and the
      profiles whose eligibility is proven. */
  datatype View = View(
    policy: Policy, current: bool, profiles: map<Name, Profile>,
    connected: set<Name>, forbidden: set<Name>, proven: set<Name>)

  /** How the dashboard resolves the hint of a job. */
  function JobProfile(p: Policy, h: Hint): Option<Name> {
    if h in p.profileHints then Some(p.profileHints[h])
    else if RoleOf(p, h).Some? then ProfileOf(p, RoleOf(p, h).value)
    else None
  }

  predicate JobEligible(v: View, id: Name) {
    && v.policy.everyday.Some? && v.current && id in v.profiles
    && v.profiles[id].connection !in v.forbidden && v.profiles[id].connection in v.connected && id in v.proven
  }

  predicate JobAccepted(v: View, h: Hint) {
    var id := JobProfile(v.policy, h);
    id.Some? && JobEligible(v, id.value)
  }

  /** `eligible` of a profile snapshot in which some profiles are bound to a client. */
  predicate Served(v: View, bound: set<Name>, id: Name) {
    id in v.profiles && id in bound && id in v.proven && v.profiles[id].connection !in v.forbidden
  }

  /** A job the dashboard accepts runs on the profile it was checked against, and is served if that profile
      is bound.  Of the hints the router would serve, the dashboard refuses exactly those the policy does
      not know and those whose connection or revision is not ready. */
  lemma JobsRunWhereChecked(v: View, bound: set<Name>, h: Hint)
    requires v.policy.everyday.Some?
    ensures JobAccepted(v, h) ==> Resolve(v.policy, Hinted(h)) == JobProfile(v.policy, h)
    ensures JobAccepted(v, h) && JobProfile(v.policy, h).value in bound ==>
              Served(v, bound, JobProfile(v.policy, h).value)
    ensures JobProfile(v.policy, h) != Resolve(v.policy, Hinted(h)) <==>
              h !in v.policy.profileHints && RoleOf(v.policy, h).None?
    ensures var id := Resolve(v.policy, Hinted(h));
            id.Some? && Served(v, bound, id.value) ==>
              (JobAccepted(v, h) <==>
                 && (h in v.policy.profileHints || RoleOf(v.policy, h).Some?)
                 && v.current && v.profiles[id.value].connection in v.connected)
  {
  }
}
