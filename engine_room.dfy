/**
 * The engine room API (server/engine-room/routes.ts): the table of engines,
 * the health classification of one engine, the status summary, the
 * restart/stop/start/info/logs routes dispatching on the engine-to-service
 * map, and the Manus health route.  Authentication, `fetch`, the managed
 * service supervisor and the agents registry answer through parameters.
 */
module EngineRoom {
  import opened Wrappers
  import opened Text
  import AgentRuntime

  datatype EngineType = Python | Php | Node | Java | Ai
  datatype Category = Erp | Intelligence | Data | Fiscal | Automation

  datatype EngineConfig = EngineConfig(name: string, displayName: string, kind: EngineType, port: nat,
                                       healthPath: string, category: Category, description: string)

  const ManusName: string := "manus-ia"
  const PlusName: string := "plus"

  /** `ENGINES`, in declaration order. */
  const Engines: seq<EngineConfig> := [
    EngineConfig(ManusName, "Manus IA (Cerebro Central)", Ai, 5000, "/api/manus/health", Intelligence,
                 "Motor de IA Central - GPT-4o, 56 Tools, Knowledge Graph, Dev Pipeline"),
    EngineConfig(PlusName, "Arcadia Plus (ERP)", Php, 8080, "/", Erp,
                 "Motor Plus - PDV, NF-e, Estoque, Financeiro"),
    EngineConfig("contabil", "Motor Contabil", Python, 8003, "/health", Fiscal,
                 "Contabilidade - Lancamentos, DRE, Balancete, Razao"),
    EngineConfig("fisco", "Motor Fiscal", Python, 8002, "/health", Fiscal,
                 "NF-e/NFC-e - NCMs, CFOPs, CESTs, SEFAZ"),
    EngineConfig("bi-engine", "Motor BI", Python, 8004, "/health", Data,
                 "Business Intelligence - SQL, Charts, Micro-BI, Cache"),
    EngineConfig("automation-engine", "Motor Automacao", Python, 8005, "/health", Automation,
                 "Scheduler, Event Bus, Workflow Executor"),
    EngineConfig("communication", "Motor Comunicação", Node, 8006, "/health", Intelligence,
                 "Inbox Unificada, Contatos, Threads, Canais, Eventos para IA"),
    EngineConfig("metaset", "MetaSet (Motor BI)", Java, 8088, "/api/health", Data,
                 "Motor de BI - Consultas, Dashboards, Gráficos, Análises")
  ]

  // ---------------------------------------------------------------------------
  // checkEngineHealth
  // ---------------------------------------------------------------------------

  const LocalHost: string := "http://localhost:"
  const InternalCheckHeader: string := "x-internal-check"

  /** The probe URL: the engine's port on the local host, then its health path. */
  function HealthUrl(e: EngineConfig): (url: string)
    ensures StartsWith(url, LocalHost) && EndsWith(url, e.healthPath)
    ensures |LocalHost| <= |url| - |e.healthPath|
  {
    EndsWithConcat(LocalHost + NatToString(e.port), e.healthPath);
    LocalHost + NatToString(e.port) + e.healthPath
  }

  /** What lies between the host and the health path reads back as the engine's port. */
  lemma HealthUrlNamesPort(e: EngineConfig)
    ensures var url := HealthUrl(e);
      ParseInt(url[|LocalHost|..|url| - |e.healthPath|]) == Some(e.port as int)
  {
    var url := HealthUrl(e);
    assert url[|LocalHost|..|url| - |e.healthPath|] == NatToString(e.port);
    ParseNatToString(e.port);
  }

  /**
   * The request `checkEngineHealth` sends: Manus is told it is an internal check by a header,
   * Plus's redirects are not followed.
   */
  datatype ProbeRequest = ProbeRequest(url: string, headers: map<string, string>, manualRedirect: bool)

  function ProbeRequestFor(e: EngineConfig): ProbeRequest {
    ProbeRequest(HealthUrl(e),
                 if e.name == ManusName then map[InternalCheckHeader := "engine-room"] else map[],
                 e.name == PlusName)
  }

  /**
   * Over the engine table, only the first engine (Manus) sends `x-internal-check: engine-room`,
   * only the second (Plus) asks for redirects not to be followed, and every probe goes to its
   * engine's health URL.
   */
  lemma TableProbes()
    ensures forall k :: 0 <= k < |Engines| ==> ProbeRequestFor(Engines[k]).url == HealthUrl(Engines[k])
    ensures forall k :: 0 <= k < |Engines| ==>
      (InternalCheckHeader in ProbeRequestFor(Engines[k]).headers <==> k == 0)
    ensures ProbeRequestFor(Engines[0]).headers[InternalCheckHeader] == "engine-room"
    ensures forall k :: 0 <= k < |Engines| ==> (ProbeRequestFor(Engines[k]).manualRedirect <==> k == 1)
  {
    forall k | 1 <= k < |Engines| ensures Engines[k].name != ManusName {
      assert Engines[k].name[0] != ManusName[0] || Engines[k].name[1] != ManusName[1] || |Engines[k].name| != |ManusName|;
    }
    forall k | 0 <= k < |Engines| && k != 1 ensures Engines[k].name != PlusName {
      assert Engines[k].name[0] != PlusName[0] || Engines[k].name[1] != PlusName[1] || |Engines[k].name| != |PlusName|;
    }
  }

  /** What `fetch` of the health URL gave: a response (its parsed JSON body, when it parses) or an exception. */
  datatype Probe =
    | Responded(status: int, elapsed: nat, json: Option<string>, location: Option<string>)
    | Threw(name: string, message: string)

  /** The `details` of an online engine: its JSON body (`{}` when unparsable), or Plus's redirect. */
  datatype Details = JsonBody(text: string) | EmptyObject | Redirect(location: Option<string>)

  datatype Health =
    | Online(responseTime: nat, details: Details)
    | HttpError(responseTime: nat, httpStatus: int)
    | Offline(error: string)

  datatype EngineHealth = EngineHealth(engine: EngineConfig, health: Health)

  /**
   * `checkEngineHealth`: online on `response.ok`, or for Plus on a redirect; any other response is an
   * error carrying its status; an exception is offline, `timeout` when it was the abort.
   */
  function CheckEngineHealth(e: EngineConfig, probe: Probe): (r: EngineHealth)
    ensures r.engine == e
    ensures r.health.Online? <==>
      probe.Responded? && (200 <= probe.status < 300 || (e.name == PlusName && 300 <= probe.status < 400))
    ensures r.health.HttpError? ==> probe.Responded? && r.health.httpStatus == probe.status
    ensures r.health.Offline? <==> probe.Threw?
    ensures r.health.Offline? ==> r.health.error == if probe.name == "AbortError" then "timeout" else probe.message
  {
    match probe
    case Responded(status, elapsed, json, location) =>
      var ok := 200 <= status < 300;
      var isRedirect := status >= 300 && status < 400;
      if ok || (e.name == PlusName && isRedirect) then
        var details := if ok then (if json.Some? then JsonBody(json.value) else EmptyObject) else Redirect(location);
        EngineHealth(e, Online(elapsed, details))
      else EngineHealth(e, HttpError(elapsed, status))
    case Threw(name, message) =>
      EngineHealth(e, Offline(if name == "AbortError" then "timeout" else message))
  }

  /** Only Plus turns a redirect into online; for every other engine a 3xx is an error. */
  lemma RedirectOnlineOnlyForPlus(e: EngineConfig, status: int, elapsed: nat, json: Option<string>, location: Option<string>)
    requires 300 <= status < 400
    ensures CheckEngineHealth(e, Responded(status, elapsed, json, location)).health ==
      if e.name == PlusName then Online(elapsed, Redirect(location)) else HttpError(elapsed, status)
  {
  }

  // ---------------------------------------------------------------------------
  // GET /api/engine-room/status
  // ---------------------------------------------------------------------------

  function CountOnline(results: seq<EngineHealth>): (n: nat)
    ensures n <= |results|
    ensures n == |results| <==> forall k :: 0 <= k < |results| ==> results[k].health.Online?
  {
    if |results| == 0 then 0
    else
      var rest := CountOnline(results[1..]);
      assert forall k :: 1 <= k < |results| ==> results[1..][k - 1] == results[k];
      (if results[0].health.Online? then 1 else 0) + rest
  }

  function CountRunning(agents: seq<AgentRuntime.AgentStatus>): (n: nat)
    ensures n <= |agents|
    ensures n == 0 <==> forall k :: 0 <= k < |agents| ==> !agents[k].running
  {
    if |agents| == 0 then 0
    else
      assert forall k :: 1 <= k < |agents| ==> agents[1..][k - 1] == agents[k];
      (if agents[0].running then 1 else 0) + CountRunning(agents[1..])
  }

  /** Counting online engines is additive over a split of the results, and one result counts iff online. */
  lemma {:induction false} CountOnlineConcat(a: seq<EngineHealth>, b: seq<EngineHealth>)
    ensures CountOnline(a + b) == CountOnline(a) + CountOnline(b)
    ensures |a| == 1 ==> CountOnline(a) == if a[0].health.Online? then 1 else 0
  {
    if |a| > 0 {
      assert (a + b)[1..] == a[1..] + b;
      CountOnlineConcat(a[1..], b);
    } else {
      assert a + b == b;
    }
    if |a| == 1 {
      assert a[1..] == [];
    }
  }

  /** Counting running agents is additive over a split of the list, and one agent counts iff running. */
  lemma {:induction false} CountRunningConcat(a: seq<AgentRuntime.AgentStatus>, b: seq<AgentRuntime.AgentStatus>)
    ensures CountRunning(a + b) == CountRunning(a) + CountRunning(b)
    ensures |a| == 1 ==> CountRunning(a) == if a[0].running then 1 else 0
  {
    if |a| > 0 {
      assert (a + b)[1..] == a[1..] + b;
      CountRunningConcat(a[1..], b);
    } else {
      assert a + b == b;
    }
    if |a| == 1 {
      assert a[1..] == [];
    }
  }

  /** `Math.round(100 * online / total)` on exact rationals: halves round up. */
  function RoundedPercent(online: nat, total: nat): (pct: nat)
    requires online <= total && total > 0
    ensures pct <= 100
    ensures 2 * pct * total <= 200 * online + total < 2 * (pct + 1) * total
  {
    var a, d := 200 * online + total, 2 * total;
    var pct := a / d;
    assert pct <= 100 by {
      DivBounds(a, d);
      MulCancelStrict(pct, 101, d);
    }
    assert 2 * pct * total <= a < 2 * (pct + 1) * total by {
      DivBounds(a, d);
      assert 2 * pct * total == pct * d && 2 * (pct + 1) * total == (pct + 1) * d;
    }
    pct
  }

  datatype Summary = Summary(totalEngines: nat, onlineEngines: nat, offlineEngines: nat, healthPct: nat,
                             totalAgents: nat, runningAgents: nat)

  /** The `summary` block; `agents` is empty when the agents registry cannot be imported. */
  function Summarize(results: seq<EngineHealth>, agents: seq<AgentRuntime.AgentStatus>): (s: Summary)
    ensures s.totalEngines == |results| && s.onlineEngines + s.offlineEngines == s.totalEngines
    ensures s.onlineEngines == CountOnline(results)
    ensures s.healthPct <= 100 && (|results| == 0 ==> s.healthPct == 0)
    ensures |results| > 0 ==> s.healthPct == RoundedPercent(CountOnline(results), |results|)
    ensures s.totalAgents == |agents| && s.runningAgents == CountRunning(agents)
  {
    var online := CountOnline(results);
    var total := |results|;
    Summary(total, online, total - online, if total > 0 then RoundedPercent(online, total) else 0,
            |agents|, CountRunning(agents))
  }

  /** Every engine online rounds to 100. */
  lemma PercentOfAll(total: nat)
    requires total > 0
    ensures RoundedPercent(total, total) == 100
  {
    var pct := RoundedPercent(total, total);
    MulCancel(2 * pct, 201, total);
    MulCancelStrict(201, 2 * (pct + 1), total);
  }

  /** Euclidean division brackets its dividend. */
  lemma DivBounds(a: nat, d: nat)
    requires d > 0
    ensures (a / d) * d <= a < (a / d + 1) * d
  {
  }

  /** Dividing both sides of `a * t <= b * t` by a positive `t`. */
  lemma MulCancel(a: int, b: int, t: int)
    requires t > 0 && a * t <= b * t
    ensures a <= b
  {
    assert (b - a) * t == b * t - a * t;
  }

  /** Dividing both sides of `a * t < b * t` by a positive `t`. */
  lemma MulCancelStrict(a: int, b: int, t: int)
    requires t > 0 && a * t < b * t
    ensures a < b
  {
    assert (b - a) * t == b * t - a * t;
  }

  /** With fewer than 200 engines, 100 is reached only when every engine is online. */
  lemma PercentBelowAll(online: nat, total: nat)
    requires online <= total && 0 < total < 200
    ensures RoundedPercent(online, total) == 100 ==> online == total
  {
    if RoundedPercent(online, total) == 100 {
      assert 200 * total <= 200 * online + total;
      assert 200 * (total - online) <= total;
    }
  }

  /** The health percentage is 100 when every engine is online, and with the eight engines only then. */
  lemma FullHealth(results: seq<EngineHealth>, agents: seq<AgentRuntime.AgentStatus>)
    requires |results| > 0
    ensures (forall k :: 0 <= k < |results| ==> results[k].health.Online?) ==> Summarize(results, agents).healthPct == 100
    ensures |results| == |Engines| && Summarize(results, agents).healthPct == 100 ==>
      forall k :: 0 <= k < |results| ==> results[k].health.Online?
  {
    var online := CountOnline(results);
    PercentOfAll(|results|);
    if |results| == |Engines| {
      PercentBelowAll(online, |results|);
    }
  }

  /** The status route: 401 when not signed in, otherwise every engine probed in table order; `fetch` answers each probe request. */
  datatype StatusReply = Unauthorized | StatusReport(engines: seq<EngineHealth>, agents: seq<AgentRuntime.AgentStatus>, summary: Summary)

  function StatusRoute(authenticated: bool, fetch: ProbeRequest -> Probe, agents: Option<seq<AgentRuntime.AgentStatus>>): (r: StatusReply)
    ensures !authenticated <==> r.Unauthorized?
    ensures r.StatusReport? ==> |r.engines| == |Engines|
    ensures r.StatusReport? ==> forall k :: 0 <= k < |Engines| ==>
      r.engines[k] == CheckEngineHealth(Engines[k], fetch(ProbeRequestFor(Engines[k])))
    ensures r.StatusReport? ==> r.agents == agents.GetOr([]) && r.summary == Summarize(r.engines, r.agents)
  {
    if !authenticated then Unauthorized
    else
      var results := seq(|Engines|, k requires 0 <= k < |Engines| => CheckEngineHealth(Engines[k], fetch(ProbeRequestFor(Engines[k]))));
      var listed := agents.GetOr([]);
      StatusReport(results, listed, Summarize(results, listed))
  }

  /** `ENGINES.find(e => e.name === name)`. */
  function FindEngine(engines: seq<EngineConfig>, name: string): (r: Option<EngineConfig>)
    ensures r.Some? ==> r.value in engines && r.value.name == name
    ensures r.None? ==> forall k :: 0 <= k < |engines| ==> engines[k].name != name
  {
    if |engines| == 0 then None
    else if engines[0].name == name then Some(engines[0])
    else FindEngine(engines[1..], name)
  }

  datatype HealthReply = HealthUnauthorized | EngineNotFound | Checked(result: EngineHealth)

  /** `GET /engine/:name/health`: 401, 404 for a name not in the table, else that engine probed. */
  function EngineHealthRoute(authenticated: bool, name: string, fetch: ProbeRequest -> Probe): (r: HealthReply)
    ensures !authenticated <==> r.HealthUnauthorized?
    ensures r.EngineNotFound? <==> authenticated && forall k :: 0 <= k < |Engines| ==> Engines[k].name != name
    ensures r.Checked? ==> r.result.engine in Engines && r.result.engine.name == name &&
                           r.result == CheckEngineHealth(r.result.engine, fetch(ProbeRequestFor(r.result.engine)))
  {
    if !authenticated then HealthUnauthorized
    else
      match FindEngine(Engines, name)
      case None => EngineNotFound
      case Some(e) => Checked(CheckEngineHealth(e, fetch(ProbeRequestFor(e))))
  }

  // ---------------------------------------------------------------------------
  // Control routes
  // ---------------------------------------------------------------------------

  /** `ENGINE_NAME_MAP`: engine name to managed service name. */
  const ServiceNames: map<string, string> := map[
    "contabil" := "contabil", "fisco" := "fisco", "bi-engine" := "bi",
    "automation-engine" := "automation", "metaset" := "metaset"
  ]

  /** `ENGINE_NAME_MAP[engineName]`, a missing or empty entry counting as none. */
  function ServiceOf(names: map<string, string>, engineName: string): (r: Option<string>)
    ensures r.Some? <==> engineName in names && names[engineName] != ""
    ensures r.Some? ==> r.value == names[engineName]
  {
    if engineName in names && names[engineName] != "" then Some(names[engineName]) else None
  }

  datatype Action = Restart | Stop | Start

  /** The supervisor call a control route makes: start goes through `restartManagedService` too. */
  datatype ServiceCall = RestartService(service: string) | StopService(service: string)

  function CallFor(action: Action, service: string): ServiceCall {
    if action == Stop then StopService(service) else RestartService(service)
  }

  datatype Reply = Reply(status: nat, message: string)

  datatype ControlOutcome = ControlOutcome(reply: Reply, call: Option<ServiceCall>)

  function Verb(action: Action): string {
    match action
    case Restart => "reiniciado"
    case Stop => "parado"
    case Start => "iniciado"
  }

  function SuccessMessage(action: Action, engineName: string): string {
    match action
    case Restart => "Motor " + engineName + " reiniciando..."
    case Stop => "Motor " + engineName + " parado"
    case Start => "Motor " + engineName + " iniciando..."
  }

  function FailureMessage(action: Action, engineName: string): string {
    match action
    case Restart => "Falha ao reiniciar motor " + engineName
    case Stop => "Motor " + engineName + " ja esta parado ou nao encontrado"
    case Start => "Falha ao iniciar motor " + engineName
  }

  /**
   * `POST /engine/:name/{restart,stop,start}`: 401, then Plus refused with 400, then an unmapped
   * engine 404; otherwise the supervisor is called and its answer decides 200 or 500.
   */
  function Control(names: map<string, string>, action: Action, authenticated: bool, engineName: string,
                   supervisor: ServiceCall -> bool): (r: ControlOutcome)
    ensures !authenticated ==> r.reply.status == 401 && r.call.None?
    ensures authenticated && engineName == PlusName ==> r.reply.status == 400 && r.call.None?
    ensures r.call.Some? <==> authenticated && engineName != PlusName && ServiceOf(names, engineName).Some?
    ensures r.call.Some? ==> r.call.value == CallFor(action, names[engineName])
    ensures r.call.Some? ==> (r.reply.status == 200 <==> supervisor(r.call.value))
  {
    if !authenticated then ControlOutcome(Reply(401, "Not authenticated"), None)
    else
      var serviceName := ServiceOf(names, engineName);
      if engineName == PlusName then
        ControlOutcome(Reply(400, "Plus (Laravel) nao pode ser " + Verb(action) + " por aqui"), None)
      else if serviceName.None? then ControlOutcome(Reply(404, "Motor nao encontrado"), None)
      else
        var call := CallFor(action, serviceName.value);
        if supervisor(call) then ControlOutcome(Reply(200, SuccessMessage(action, engineName)), Some(call))
        else ControlOutcome(Reply(500, FailureMessage(action, engineName)), Some(call))
  }

  /** The real map never reaches the supervisor for Plus or for an engine it does not list. */
  lemma ControlOnlyManaged(action: Action, engineName: string, supervisor: ServiceCall -> bool)
    requires engineName !in ServiceNames
    ensures Control(ServiceNames, action, true, engineName, supervisor).call.None?
    ensures Control(ServiceNames, action, true, engineName, supervisor).reply.status ==
      if engineName == PlusName then 400 else 404
  {
  }

  /** What `getManagedServiceInfo` knows of a service. */
  datatype ServiceInfo = ServiceInfo(name: string, port: nat, running: bool)

  datatype InfoReply =
    | InfoUnauthorized
    | NotFound(error: string)
    | ManagedExternally(name: string, port: nat)
    | Info(info: ServiceInfo)

  /** `GET /engine/:name/info`: an unmapped Plus is managed externally, any other unmapped name 404. */
  function InfoRoute(names: map<string, string>, authenticated: bool, engineName: string,
                     lookup: string -> Option<ServiceInfo>): (r: InfoReply)
    ensures !authenticated <==> r.InfoUnauthorized?
    ensures r.ManagedExternally? <==> authenticated && ServiceOf(names, engineName).None? && engineName == PlusName
    ensures r.ManagedExternally? ==> r.port == 8080
    ensures r.Info? <==> authenticated && ServiceOf(names, engineName).Some? && lookup(names[engineName]).Some?
    ensures r.Info? ==> r.info == lookup(names[engineName]).value
  {
    if !authenticated then InfoUnauthorized
    else
      var serviceName := ServiceOf(names, engineName);
      if serviceName.None? then
        if engineName == PlusName then ManagedExternally(PlusName, 8080) else NotFound("Motor nao encontrado")
      else
        match lookup(serviceName.value)
        case None => NotFound("Servico nao encontrado no gerenciador")
        case Some(info) => Info(info)
  }

  /** `parseInt(lines) || 50`: a missing, unparsable or zero count gives 50; a negative one is kept. */
  function LogLines(query: Option<string>): (n: int)
    ensures n != 0
    ensures query.None? ==> n == 50
    ensures query.Some? && (ParseInt(query.value).None? || ParseInt(query.value) == Some(0)) ==> n == 50
    ensures query.Some? && ParseInt(query.value).Some? && ParseInt(query.value).value != 0 ==> n == ParseInt(query.value).value
  {
    if query.None? then 50
    else
      match ParseInt(query.value)
      case None => 50
      case Some(v) => if v == 0 then 50 else v
  }

  /** A positive count written in decimal is used as it is, and so is a negative one. */
  lemma LogLinesOfNumber(k: nat)
    requires k > 0
    ensures LogLines(Some(NatToString(k))) == k
    ensures LogLines(Some("-" + NatToString(k))) == -(k as int)
  {
    ParseNegatedNat(k);
  }

  /** `"0"` and text that is not a number both fall back to 50. */
  lemma LogLinesFallback()
    ensures LogLines(Some("0")) == 50 && LogLines(Some("all")) == 50
  {
    ParseNatToString(0);
    assert NatToString(0) == "0";
  }

  datatype LogsReply = LogsUnauthorized | LogsNotFound | Logs(engine: string, lines: nat, logs: seq<string>)

  /** `GET /engine/:name/logs`: 404 for any unmapped name (Plus included), else the supervisor's lines. */
  function LogsRoute(names: map<string, string>, authenticated: bool, engineName: string, query: Option<string>,
                     logsOf: (string, int) -> seq<string>): (r: LogsReply)
    ensures !authenticated <==> r.LogsUnauthorized?
    ensures r.LogsNotFound? <==> authenticated && ServiceOf(names, engineName).None?
    ensures r.Logs? ==> r.engine == engineName && r.logs == logsOf(names[engineName], LogLines(query)) &&
                        r.lines == |r.logs|
  {
    if !authenticated then LogsUnauthorized
    else
      var serviceName := ServiceOf(names, engineName);
      if serviceName.None? then LogsNotFound
      else
        var logs := logsOf(serviceName.value, LogLines(query));
        Logs(engineName, |logs|, logs)
  }

  // ---------------------------------------------------------------------------
  // GET /api/manus/health
  // ---------------------------------------------------------------------------

  const InternalCheck: string := "engine-room"

  /** What the tools module offers for counting: `getToolNames()` and `tools.size`, when present. */
  datatype ToolsView = ToolsUnavailable | ToolsModule(names: Option<nat>, size: Option<nat>)

  /** `getToolNames?.()?.length || tools?.size || 56`, and 56 when the import fails. */
  function ToolCount(tools: ToolsView): (n: nat)
    ensures n > 0
    ensures tools.ToolsUnavailable? ==> n == 56
    ensures tools.ToolsModule? && tools.names.Some? && tools.names.value != 0 ==> n == tools.names.value
    ensures tools.ToolsModule? && tools.names.GetOr(0) == 0 && tools.size.Some? && tools.size.value != 0 ==> n == tools.size.value
    ensures tools.ToolsModule? && tools.names.GetOr(0) == 0 && tools.size.GetOr(0) == 0 ==> n == 56
  {
    match tools
    case ToolsUnavailable => 56
    case ToolsModule(names, size) =>
      if names.GetOr(0) != 0 then names.value
      else if size.GetOr(0) != 0 then size.value
      else 56
  }

  datatype ManusMetrics = ManusMetrics(totalCalls: nat, totalTokens: nat, errorCount: nat, lastCallAt: Option<int>)

  datatype ManusReply =
    | ManusUnauthorized
    | ManusHealth(online: bool, model: string, aiConfigured: bool, tools: nat, agents: nat, metrics: ManusMetrics)

  /**
   * The Manus health route: authentication is skipped only for the engine room's own probe; the
   * engine is online iff the AI key is configured; `lastCallAt` of 0 is reported as null.
   */
  function ManusHealthRoute(internalHeader: Option<string>, authenticated: bool, manus: AgentRuntime.ManusIntelligence,
                            keyConfigured: bool, tools: ToolsView, agents: Option<seq<AgentRuntime.AgentStatus>>): (r: ManusReply)
    reads manus
    ensures r.ManusUnauthorized? <==> internalHeader != Some(InternalCheck) && !authenticated
    ensures r.ManusHealth? ==> r.online == keyConfigured && r.aiConfigured == keyConfigured
    ensures r.ManusHealth? ==> r.metrics.totalCalls == manus.callCount && r.metrics.errorCount == manus.errorCount
    ensures r.ManusHealth? ==> r.agents == CountRunning(agents.GetOr([])) && r.tools == ToolCount(tools)
  {
    var isInternal := internalHeader == Some(InternalCheck);
    if !isInternal && !authenticated then ManusUnauthorized
    else
      var lastCall := if manus.lastCallAt == 0 then None else Some(manus.lastCallAt);
      ManusHealth(keyConfigured, manus.model, keyConfigured, ToolCount(tools), CountRunning(agents.GetOr([])),
                  ManusMetrics(manus.callCount, manus.tokenCount, manus.errorCount, lastCall))
  }
}
