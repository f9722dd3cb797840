/**
 * The tool-invocation gateway (server/autonomous/tools/ToolManager.ts): a
 * registry of tools, per-pipeline plan-mode contexts, a command transcript
 * shared by all pipelines, and `execute`, which sends every call through
 * not-found, plan-mode, RBAC, governance and parameter-validation checks
 * before running the tool.
 *
 * The RBAC table, the governance service and the tools themselves are not
 * part of this model: their answers are parameters of `Execute`, and the
 * checks it actually consulted are returned as a list of steps.
 */
module ToolGateway {
  import opened Wrappers
  import opened Text
  import Seqs

  /** Tools refused while a pipeline is in plan mode. */
  const WriteTools: set<string> := {"write_file", "github_commit", "git_local_commit", "run_command"}

  /** Declared by the source as the read-only tools; none of them is a write tool (`ReadOnlyToolsListed`). */
  const ReadOnlyTools: set<string> := {
    "read_file", "list_directory", "search_code", "git_status", "analyze_external_repo",
    "read_external_file", "typecheck", "metaset.query", "metaset.list_tables",
    "metaset.table_fields", "metaset.list_questions", "metaset.list_dashboards", "metaset.health"
  }

  /** The transcript is trimmed when it grows past LogLimit entries ... */
  const LogLimit: nat := 500
  /** ... down to its newest LogKeep entries. */
  const LogKeep: nat := 250
  /** Tool output kept in a transcript entry. */
  const OutputLimit: nat := 5000

  datatype Mode = Plan | Act

  /** A registered tool, as far as the gateway looks at it. */
  datatype Tool = Tool(name: string, category: string, description: string)

  /** The parameter fields the gateway itself reads; the rest belong to the tool. */
  datatype ToolParams = ToolParams(path: Option<string>, file: Option<string>, command: Option<string>)

  datatype SearchMatch = SearchMatch(file: string, line: int, content: string)

  /** A tool's answer; `matches` stands for `data.results` of the code-search tool. */
  datatype ToolResult = ToolResult(success: bool, result: Option<string>, error: Option<string>, matches: seq<SearchMatch>)

  /** A pipeline id as the gateway holds it: a number, or `NaN`, which `parseInt` gives for text that is not a number. */
  datatype PipelineId = Num(n: int) | NaN

  /** `tag === id` on a transcript entry's tag: `NaN` equals nothing, itself included, and an untagged entry matches no id. */
  predicate Tagged(tag: Option<PipelineId>, id: PipelineId) {
    id.Num? && tag == Some(id)
  }

  datatype CommandEntry = CommandEntry(command: string, output: string, timestamp: string, success: bool, pipelineId: Option<PipelineId>)

  datatype PipelineContext = PipelineContext(planMode: bool, commandLog: seq<CommandEntry>)

  /** The context a pipeline gets on first use: act mode, empty transcript. */
  const DefaultContext := PipelineContext(false, [])

  /** The context `id` has in `ctxs`, or the one it would be given on first use. */
  function ContextOrDefault(ctxs: map<PipelineId, PipelineContext>, id: PipelineId): PipelineContext {
    if id in ctxs then ctxs[id] else DefaultContext
  }

  /** The key the `planMode` getter may add: the active pipeline's, if there is one. */
  function ActiveKey(active: Option<PipelineId>): set<PipelineId> {
    if active.Some? then {active.value} else {}
  }

  /** What the `xosToolRegistry` query gave: it threw, found no row, or found a row. */
  datatype RegistryLookup = LookupFailed | NoRow | Row(allowedAgents: Option<seq<string>>)

  datatype RbacDecision = Allowed | Denied(reason: string)

  /** The governance service's verdict for (agent, tool, target, params). */
  datatype PolicyDecision = PolicyDecision(allowed: bool, reason: string, matchedPolicyName: Option<string>)

  /** The tool's own `validateParams` verdict. */
  datatype Validation = Validation(valid: bool, error: Option<string>)

  /** How the tool's `execute` ended. */
  datatype ToolRun = Returned(result: ToolResult) | Raised(message: string)

  datatype AuditRecord = AuditRecord(agentName: string, action: string, target: string, decision: string, justification: Option<string>, durationMs: nat)

  /** The outside services `execute` consulted, in order. */
  datatype Step =
    | RbacLookedUp(tool: string, agent: string)
    | PolicyEvaluated(agent: string, tool: string, target: string)
    | ParamsValidated
    | ToolExecuted

  /** JavaScript truthiness of an optional string: present and non-empty. */
  predicate Truthy(o: Option<string>) {
    o.Some? && o.value != ""
  }

  /** `o || fallback` for an optional string. */
  function OrElse(o: Option<string>, fallback: string): (r: string)
    ensures Truthy(o) ==> r == o.value
    ensures !Truthy(o) ==> r == fallback
  {
    if Truthy(o) then o.value else fallback
  }

  /** `if (agentName)`: an agent name counts only when present and non-empty. */
  predicate AgentGiven(agentName: Option<string>) {
    Truthy(agentName)
  }

  const NotFoundMessage: string := "Ferramenta não encontrada: "
  const NotFoundCode: string := "TOOL_NOT_FOUND: "
  const PlanBlockedOpening: string := "[PLAN MODE] Ferramenta \""
  const PlanBlockedClosing: string :=
    "\" bloqueada. Em modo planejamento, apenas ferramentas de leitura são permitidas. Analise o código e gere um plano detalhado."
  const PlanBlockedCode: string := "PLAN_MODE_BLOCKED: "
  const RbacMessage: string := "RBAC: "
  const RbacCode: string := "RBAC_DENIED: "
  const GovernanceMessage: string := "Bloqueado pela governança: "
  const GovernanceCode: string := "GOVERNANCE_DENIED: "
  const ExecutionMessage: string := "Erro ao executar ferramenta: "
  const RbacDeniedAgent: string := "Agente \""
  const RbacDeniedTool: string := "\" não tem permissão para usar \""
  const RbacDeniedList: string := "\". Agentes permitidos: "

  function NotFound(toolName: string): ToolResult {
    ToolResult(false, Some(NotFoundMessage + toolName), Some(NotFoundCode + toolName), [])
  }

  function PlanBlocked(toolName: string): ToolResult {
    ToolResult(false,
      Some(PlanBlockedOpening + toolName + PlanBlockedClosing), Some(PlanBlockedCode + toolName), [])
  }

  function RbacRefused(toolName: string, reason: string): ToolResult {
    ToolResult(false, Some(RbacMessage + reason), Some(RbacCode + toolName), [])
  }

  function GovernanceRefused(policy: PolicyDecision): ToolResult {
    ToolResult(false, Some(GovernanceMessage + policy.reason),
      Some(GovernanceCode + OrElse(policy.matchedPolicyName, "unknown")), [])
  }

  function InvalidParams(v: Validation): ToolResult {
    ToolResult(false, Some(OrElse(v.error, "Parâmetros inválidos")), v.error, [])
  }

  function ExecutionFailed(message: string): ToolResult {
    ToolResult(false, Some(ExecutionMessage + message), Some(message), [])
  }

  /** `checkRBAC`: fail-open on a failed lookup, a missing row or an empty list. */
  function CheckRbac(toolName: string, agentName: string, lookup: RegistryLookup): (d: RbacDecision)
  {
    match lookup
    case LookupFailed => Allowed
    case NoRow => Allowed
    case Row(agents) =>
      if agents.None? || |agents.value| == 0 then Allowed
      else if agentName in agents.value || "*" in agents.value then Allowed
      else Denied(RbacDeniedAgent + agentName + RbacDeniedTool + toolName + RbacDeniedList + Join(agents.value, ", "))
  }

  /** RBAC denies exactly when a non-empty allow-list names neither the agent nor "*". */
  lemma RbacDeniesExactly(toolName: string, agentName: string, lookup: RegistryLookup)
    ensures CheckRbac(toolName, agentName, lookup).Denied? <==>
      (lookup.Row? && lookup.allowedAgents.Some? && |lookup.allowedAgents.value| > 0
       && agentName !in lookup.allowedAgents.value && "*" !in lookup.allowedAgents.value)
  {
  }

  /** The target the governance service is asked about. */
  function PolicyTarget(params: ToolParams, toolName: string): string {
    OrElse(params.path, OrElse(params.file, OrElse(params.command, toolName)))
  }

  /** The target written into an audit record (the command is not consulted there). */
  function AuditTarget(params: ToolParams, toolName: string): string {
    OrElse(params.path, OrElse(params.file, toolName))
  }

  /** Only shell and verification tools leave a transcript entry. */
  predicate LogsCommand(toolName: string) {
    toolName == "run_command" || toolName == "typecheck"
  }

  /** `result.result?.slice(0, 5000) || ""`. */
  function ClippedOutput(result: Option<string>): (out: string)
    ensures |out| <= OutputLimit
    ensures result.Some? && |result.value| <= OutputLimit ==> out == result.value
    ensures out <= result.GetOr("")
  {
    if result.None? then ""
    else if |result.value| <= OutputLimit then result.value
    else result.value[..OutputLimit]
  }

  function AuditFor(agentName: string, toolName: string, params: ToolParams, r: ToolResult, durationMs: nat): AuditRecord {
    AuditRecord(agentName, toolName, AuditTarget(params, toolName),
      if r.success then "executed" else "failed",
      if r.success then Some("Executado com sucesso em " + NatToString(durationMs) + "ms") else r.error,
      durationMs)
  }

  /** The checks that come before parameter validation, as consulted for this call. */
  function PolicySteps(toolName: string, params: ToolParams, agentName: Option<string>): (checks: seq<Step>)
    ensures ParamsValidated !in checks && ToolExecuted !in checks
    ensures |checks| == if AgentGiven(agentName) then 2 else 0
  {
    if AgentGiven(agentName)
    then [RbacLookedUp(toolName, agentName.value), PolicyEvaluated(agentName.value, toolName, PolicyTarget(params, toolName))]
    else []
  }

  /** `s` ends with `suffix`: the entries `suffix` keeps are the newest ones of `s`, in order. */
  predicate IsSuffix<T(==)>(suffix: seq<T>, s: seq<T>) {
    |suffix| <= |s| && s[|s| - |suffix|..] == suffix
  }

  /** `push` followed by `slice(-250)` when the transcript grew past 500 entries. */
  function AppendLog(log: seq<CommandEntry>, e: CommandEntry): (r: seq<CommandEntry>)
    requires |log| <= LogLimit
    ensures 0 < |r| <= LogLimit && r[|r| - 1] == e
    ensures IsSuffix(r, log + [e])
    ensures |log| < LogLimit ==> r == log + [e]
    ensures |log| == LogLimit ==> |r| == LogKeep
  {
    var grown := log + [e];
    if |grown| > LogLimit then grown[|grown| - LogKeep..] else grown
  }

  /** `getCommandLog(id)`: the entries tagged with pipeline `id`, in order. */
  function Only(log: seq<CommandEntry>, id: PipelineId): (r: seq<CommandEntry>)
    ensures |r| <= |log|
    ensures forall k :: 0 <= k < |r| ==> r[k] in log && Tagged(r[k].pipelineId, id)
  {
    if |log| == 0 then []
    else (if Tagged(log[0].pipelineId, id) then [log[0]] else []) + Only(log[1..], id)
  }

  /** `filter(l => l.pipelineId !== id)`: every entry not tagged with `id`, in order. */
  function Without(log: seq<CommandEntry>, id: PipelineId): (r: seq<CommandEntry>)
    ensures |r| <= |log|
    ensures forall k :: 0 <= k < |r| ==> r[k] in log && !Tagged(r[k].pipelineId, id)
  {
    if |log| == 0 then []
    else (if !Tagged(log[0].pipelineId, id) then [log[0]] else []) + Without(log[1..], id)
  }

  /** The transcript of `id` holds exactly the entries tagged with `id`. */
  lemma {:induction false} OnlyMembers(log: seq<CommandEntry>, id: PipelineId)
    ensures forall e :: e in Only(log, id) <==> e in log && Tagged(e.pipelineId, id)
    decreases |log|
  {
    if |log| > 0 {
      OnlyMembers(log[1..], id);
      assert log == [log[0]] + log[1..];
    }
  }

  /** One entry is kept exactly when it is tagged with `id`; with `OnlyConcat` this fixes the order. */
  lemma OnlyOne(e: CommandEntry, id: PipelineId)
    ensures Only([e], id) == if Tagged(e.pipelineId, id) then [e] else []
  {
    assert [e][1..] == [];
  }

  /** The removal keeps exactly the entries not tagged with `id`. */
  lemma {:induction false} WithoutMembers(log: seq<CommandEntry>, id: PipelineId)
    ensures forall e :: e in Without(log, id) <==> e in log && !Tagged(e.pipelineId, id)
    decreases |log|
  {
    if |log| > 0 {
      WithoutMembers(log[1..], id);
      assert log == [log[0]] + log[1..];
    }
  }

  /** One entry is kept exactly when it is not tagged with `id`. */
  lemma WithoutOne(e: CommandEntry, id: PipelineId)
    ensures Without([e], id) == if !Tagged(e.pipelineId, id) then [e] else []
  {
    assert [e][1..] == [];
  }

  /** The removal keeps the order: it distributes over concatenation. */
  lemma {:induction false} WithoutConcat(a: seq<CommandEntry>, b: seq<CommandEntry>, id: PipelineId)
    ensures Without(a + b, id) == Without(a, id) + Without(b, id)
    decreases |a|
  {
    if |a| > 0 {
      WithoutConcat(a[1..], b, id);
      assert (a + b)[0] == a[0] && (a + b)[1..] == a[1..] + b;
      Seqs.AppendAssoc(if !Tagged(a[0].pipelineId, id) then [a[0]] else [], Without(a[1..], id), Without(b, id));
    } else {
      assert a + b == b;
    }
  }

  /** `NaN` selects no entry: its transcript is empty and removing its entries removes nothing. */
  lemma {:induction false} NaNSelectsNothing(log: seq<CommandEntry>)
    ensures Only(log, NaN) == [] && Without(log, NaN) == log
    decreases |log|
  {
    NoneTagged(log, NaN);
    if |log| > 0 {
      NaNSelectsNothing(log[1..]);
      assert log == [log[0]] + log[1..];
    }
  }

  /** Removing pipeline `id`'s entries leaves every other pipeline's transcript as it was. */
  lemma {:induction false} WithoutKeepsOthers(log: seq<CommandEntry>, id: PipelineId, other: PipelineId)
    requires other != id
    ensures Only(Without(log, id), other) == Only(log, other)
  {
    if |log| > 0 {
      WithoutKeepsOthers(log[1..], id, other);
      var head := if !Tagged(log[0].pipelineId, id) then [log[0]] else [];
      OnlyConcat(head, Without(log[1..], id), other);
    }
  }

  /** After removing pipeline `id`'s entries, none are left for it. */
  lemma {:induction false} WithoutClears(log: seq<CommandEntry>, id: PipelineId)
    ensures Only(Without(log, id), id) == []
  {
    var w := Without(log, id);
    NoneTagged(w, id);
  }

  lemma {:induction false} NoneTagged(log: seq<CommandEntry>, id: PipelineId)
    requires forall k :: 0 <= k < |log| ==> !Tagged(log[k].pipelineId, id)
    ensures Only(log, id) == []
  {
    if |log| > 0 {
      NoneTagged(log[1..], id);
    }
  }

  lemma {:induction false} OnlyConcat(a: seq<CommandEntry>, b: seq<CommandEntry>, id: PipelineId)
    ensures Only(a + b, id) == Only(a, id) + Only(b, id)
  {
    if |a| == 0 {
      assert a + b == b;
    } else {
      var head := if Tagged(a[0].pipelineId, id) then [a[0]] else [];
      assert (a + b)[1..] == a[1..] + b;
      OnlyConcat(a[1..], b, id);
      Seqs.AppendAssoc(head, Only(a[1..], id), Only(b, id));
    }
  }

  /** The registered tools in registration order (`listTools`). */
  function ToolsInOrder(order: seq<string>, tools: map<string, Tool>): (defs: seq<Tool>)
    requires forall k :: 0 <= k < |order| ==> order[k] in tools
    ensures |defs| == |order|
    ensures forall k :: 0 <= k < |order| ==> defs[k] == tools[order[k]]
  {
    if |order| == 0 then [] else [tools[order[0]]] + ToolsInOrder(order[1..], tools)
  }

  /** `filter(t => !WRITE_TOOLS.has(t.name))`. */
  function ReadTools(defs: seq<Tool>): (r: seq<Tool>)
    ensures forall t :: t in r <==> t in defs && t.name !in WriteTools
  {
    if |defs| == 0 then []
    else (if defs[0].name !in WriteTools then [defs[0]] else []) + ReadTools(defs[1..])
  }

  /** The write-tool filter keeps the tools' order: it distributes over concatenation. */
  lemma {:induction false} ReadToolsConcat(a: seq<Tool>, b: seq<Tool>)
    ensures ReadTools(a + b) == ReadTools(a) + ReadTools(b)
    decreases |a|
  {
    if |a| == 0 {
      assert a + b == b;
    } else {
      var head := if a[0].name !in WriteTools then [a[0]] else [];
      assert (a + b)[1..] == a[1..] + b;
      ReadToolsConcat(a[1..], b);
      Seqs.AppendAssoc(head, ReadTools(a[1..]), ReadTools(b));
    }
  }

  /** One tool is kept exactly when it is not a write tool; with `ReadToolsConcat` this fixes the order. */
  lemma ReadToolsOne(t: Tool)
    ensures ReadTools([t]) == if t.name !in WriteTools then [t] else []
  {
    assert [t][1..] == [];
  }

  /** Every tool the source declares read-only stays listed in plan mode. */
  lemma ReadOnlyToolsListed(t: Tool)
    requires t.name in ReadOnlyTools
    ensures ReadTools([t]) == [t]
  {
    ReadToolsOne(t);
  }

  /** `indexOf` + `splice(index, 1)`: drop the first occurrence of `x`, if any. */
  function RemoveFirst(s: seq<string>, x: string): seq<string> {
    if |s| == 0 then []
    else if s[0] == x then s[1..] else [s[0]] + RemoveFirst(s[1..], x)
  }

  /** Exactly one copy of `x` goes, when there is one; nothing else changes. */
  lemma RemoveFirstCounts(s: seq<string>, x: string)
    ensures var r := RemoveFirst(s, x);
      && (x in s ==> |r| == |s| - 1)
      && (x !in s ==> r == s)
      && multiset(r) == multiset(s) - multiset{x}
  {
    RemoveFirstAbsent(s, x);
    RemoveFirstMultiset(s, x);
    assert |multiset(RemoveFirst(s, x))| == |RemoveFirst(s, x)|;
  }

  lemma {:induction false} RemoveFirstAbsent(s: seq<string>, x: string)
    ensures x !in s ==> RemoveFirst(s, x) == s
  {
    if |s| > 0 && s[0] != x {
      RemoveFirstAbsent(s[1..], x);
      assert s == [s[0]] + s[1..];
    }
  }

  lemma {:induction false} RemoveFirstMultiset(s: seq<string>, x: string)
    ensures multiset(RemoveFirst(s, x)) == multiset(s) - multiset{x}
  {
    if |s| > 0 {
      assert s == [s[0]] + s[1..];
      if s[0] != x {
        RemoveFirstMultiset(s[1..], x);
      }
    }
  }

  /** Every check before the tool runs passed: registered, not plan-blocked, RBAC and governance agreed, parameters valid. */
  predicate Cleared(known: bool, planOn: bool, toolName: string, agentName: Option<string>,
                    lookup: RegistryLookup, policy: PolicyDecision, validation: Validation)
  {
    && known && !(planOn && toolName in WriteTools)
    && (AgentGiven(agentName) ==> CheckRbac(toolName, agentName.value, lookup).Allowed? && policy.allowed)
    && validation.valid
  }

  /** The answer of the first check that refuses the call, if any, and the services consulted on the way. */
  datatype Gate = Gate(refusal: Option<ToolResult>, steps: seq<Step>)

  function GateFor(known: bool, planOn: bool, toolName: string, params: ToolParams, agentName: Option<string>,
                   lookup: RegistryLookup, policy: PolicyDecision, validation: Validation): Gate
  {
    var checks := PolicySteps(toolName, params, agentName);
    if !known then Gate(Some(NotFound(toolName)), [])
    else if planOn && toolName in WriteTools then Gate(Some(PlanBlocked(toolName)), [])
    else if AgentGiven(agentName) && CheckRbac(toolName, agentName.value, lookup).Denied? then
      Gate(Some(RbacRefused(toolName, CheckRbac(toolName, agentName.value, lookup).reason)), checks[..1])
    else if AgentGiven(agentName) && !policy.allowed then Gate(Some(GovernanceRefused(policy)), checks)
    else if !validation.valid then Gate(Some(InvalidParams(validation)), checks + [ParamsValidated])
    else Gate(None, checks + [ParamsValidated])
  }

  /** What one `execute` call answers and leaves behind. */
  datatype Outcome = Outcome(result: ToolResult, steps: seq<Step>, log: seq<CommandEntry>, audits: seq<AuditRecord>)

  /** What a cleared call does: run the tool, then write the transcript entry and the audit record. */
  function RunSpec(active: Option<PipelineId>, log: seq<CommandEntry>, audits: seq<AuditRecord>,
                   toolName: string, params: ToolParams, agentName: Option<string>,
                   checked: seq<Step>, run: ToolRun, now: string, durationMs: nat): Outcome
    requires |log| <= LogLimit
  {
    match run
    case Raised(m) => Outcome(ExecutionFailed(m), checked + [ToolExecuted], log, audits)
    case Returned(res) =>
      Outcome(res, checked + [ToolExecuted],
        if LogsCommand(toolName)
        then AppendLog(log, CommandEntry(OrElse(params.command, toolName), ClippedOutput(res.result), now, res.success, active))
        else log,
        if AgentGiven(agentName) then audits + [AuditFor(agentName.value, toolName, params, res, durationMs)] else audits)
  }

  /**
   * `execute` as a function of the state it reads: whether the tool is registered,
   * the active plan flag, the active pipeline, the transcript and the audit trail.
   */
  function ExecuteSpec(known: bool, planOn: bool, active: Option<PipelineId>, log: seq<CommandEntry>, audits: seq<AuditRecord>,
                       toolName: string, params: ToolParams, agentName: Option<string>,
                       lookup: RegistryLookup, policy: PolicyDecision, validation: Validation,
                       run: ToolRun, now: string, durationMs: nat): Outcome
    requires |log| <= LogLimit
  {
    var g := GateFor(known, planOn, toolName, params, agentName, lookup, policy, validation);
    if g.refusal.Some? then Outcome(g.refusal.value, g.steps, log, audits)
    else RunSpec(active, log, audits, toolName, params, agentName, g.steps, run, now, durationMs)
  }

  /** The gate refuses exactly the calls that are not cleared, and never lists the tool as run. */
  lemma {:induction false} GateRefusesUncleared(known: bool, planOn: bool, toolName: string, params: ToolParams, agentName: Option<string>,
                                                lookup: RegistryLookup, policy: PolicyDecision, validation: Validation)
    ensures var g := GateFor(known, planOn, toolName, params, agentName, lookup, policy, validation);
      && (g.refusal.None? <==> Cleared(known, planOn, toolName, agentName, lookup, policy, validation))
      && ToolExecuted !in g.steps
      && (g.refusal.Some? ==> !g.refusal.value.success)
      && (g.refusal.None? ==> g.steps == PolicySteps(toolName, params, agentName) + [ParamsValidated])
  {
  }

  /** An unknown tool is refused with TOOL_NOT_FOUND before any other check is consulted. */
  lemma ExecuteUnknownFirst(planOn: bool, active: Option<PipelineId>, log: seq<CommandEntry>, audits: seq<AuditRecord>,
                            toolName: string, params: ToolParams, agentName: Option<string>,
                            lookup: RegistryLookup, policy: PolicyDecision, validation: Validation,
                            run: ToolRun, now: string, durationMs: nat)
    requires |log| <= LogLimit
    ensures var o := ExecuteSpec(false, planOn, active, log, audits, toolName, params, agentName, lookup, policy, validation, run, now, durationMs);
      && !o.result.success && o.result.error == Some(NotFoundCode + toolName)
      && o.steps == [] && o.log == log && o.audits == audits
  {
  }

  /**
   * With the plan flag set, a registered tool gets PLAN_MODE_BLOCKED (and nothing is consulted)
   * exactly when it is one of the four write tools; the read-only list plays no part.
   */
  lemma ExecutePlanMode(active: Option<PipelineId>, log: seq<CommandEntry>, audits: seq<AuditRecord>,
                        toolName: string, params: ToolParams, agentName: Option<string>,
                        lookup: RegistryLookup, policy: PolicyDecision, validation: Validation,
                        run: ToolRun, now: string, durationMs: nat)
    requires |log| <= LogLimit
    ensures var o := ExecuteSpec(true, true, active, log, audits, toolName, params, agentName, lookup, policy, validation, run, now, durationMs);
      && (toolName in WriteTools ==> o == Outcome(PlanBlocked(toolName), [], log, audits))
      && (toolName !in WriteTools ==> o == ExecuteSpec(true, false, active, log, audits, toolName, params, agentName, lookup, policy, validation, run, now, durationMs))
  {
  }

  /** Without a named agent neither RBAC nor governance is consulted. */
  lemma ExecuteAnonymousSkipsPolicy(planOn: bool, active: Option<PipelineId>, log: seq<CommandEntry>, audits: seq<AuditRecord>,
                                    toolName: string, params: ToolParams, agentName: Option<string>,
                                    lookup: RegistryLookup, policy: PolicyDecision, validation: Validation,
                                    run: ToolRun, now: string, durationMs: nat)
    requires |log| <= LogLimit && !AgentGiven(agentName)
    ensures var o := ExecuteSpec(true, planOn, active, log, audits, toolName, params, agentName, lookup, policy, validation, run, now, durationMs);
      forall k :: 0 <= k < |o.steps| ==> o.steps[k] == ParamsValidated || o.steps[k] == ToolExecuted
  {
  }

  /**
   * A named agent is checked by RBAC first; governance is asked only after RBAC allowed, and a
   * denial by either answers RBAC_DENIED or GOVERNANCE_DENIED without running the tool.
   */
  lemma ExecutePolicyOrder(active: Option<PipelineId>, log: seq<CommandEntry>, audits: seq<AuditRecord>,
                           toolName: string, params: ToolParams, agentName: Option<string>,
                           lookup: RegistryLookup, policy: PolicyDecision, validation: Validation,
                           run: ToolRun, now: string, durationMs: nat)
    requires |log| <= LogLimit && AgentGiven(agentName)
    ensures var o := ExecuteSpec(true, false, active, log, audits, toolName, params, agentName, lookup, policy, validation, run, now, durationMs);
      var agent := agentName.value;
      && |o.steps| >= 1 && o.steps[0] == RbacLookedUp(toolName, agent)
      && (CheckRbac(toolName, agent, lookup).Denied? ==>
            o.steps == [RbacLookedUp(toolName, agent)] && o.result.error == Some(RbacCode + toolName))
      && (CheckRbac(toolName, agent, lookup).Allowed? ==>
            |o.steps| >= 2 && o.steps[1] == PolicyEvaluated(agent, toolName, PolicyTarget(params, toolName)))
      && (CheckRbac(toolName, agent, lookup).Allowed? && !policy.allowed ==>
            o.result.error == Some(GovernanceCode + OrElse(policy.matchedPolicyName, "unknown")) && |o.steps| == 2)
      && (!o.result.success && ToolExecuted !in o.steps ==> o.log == log && o.audits == audits)
  {
  }

  /** The tool runs exactly when every check passed, and a refused or raising call leaves no trace. */
  lemma ExecuteRunsOnlyWhenCleared(known: bool, planOn: bool, active: Option<PipelineId>, log: seq<CommandEntry>, audits: seq<AuditRecord>,
                                   toolName: string, params: ToolParams, agentName: Option<string>,
                                   lookup: RegistryLookup, policy: PolicyDecision, validation: Validation,
                                   run: ToolRun, now: string, durationMs: nat)
    requires |log| <= LogLimit
    ensures var o := ExecuteSpec(known, planOn, active, log, audits, toolName, params, agentName, lookup, policy, validation, run, now, durationMs);
      && (ToolExecuted in o.steps <==> Cleared(known, planOn, toolName, agentName, lookup, policy, validation))
      && (o.result.success ==> ToolExecuted in o.steps)
      && (!(ToolExecuted in o.steps && run.Returned?) ==> o.log == log && o.audits == audits)
  {
    GateRefusesUncleared(known, planOn, toolName, params, agentName, lookup, policy, validation);
  }

  /**
   * After a finished run only `run_command` and `typecheck` add one transcript entry, tagged with the
   * active pipeline and with at most 5000 characters of output; an audit record is written only for
   * a named agent. This holds in act mode for every tool, and in plan mode for every tool it lets through.
   */
  lemma ExecuteRecords(planOn: bool, active: Option<PipelineId>, log: seq<CommandEntry>, audits: seq<AuditRecord>,
                       toolName: string, params: ToolParams, agentName: Option<string>,
                       lookup: RegistryLookup, policy: PolicyDecision, validation: Validation,
                       res: ToolResult, now: string, durationMs: nat)
    requires |log| <= LogLimit && validation.valid && !(planOn && toolName in WriteTools)
    requires AgentGiven(agentName) ==> CheckRbac(toolName, agentName.value, lookup).Allowed? && policy.allowed
    ensures var o := ExecuteSpec(true, planOn, active, log, audits, toolName, params, agentName, lookup, policy, validation, Returned(res), now, durationMs);
      && o.result == res
      && (LogsCommand(toolName) ==> |o.log| <= LogLimit && o.log[|o.log| - 1].pipelineId == active
                                    && |o.log[|o.log| - 1].output| <= OutputLimit && IsSuffix(o.log, log + [o.log[|o.log| - 1]]))
      && (!LogsCommand(toolName) ==> o.log == log)
      && |o.audits| == |audits| + (if AgentGiven(agentName) then 1 else 0)
  {
  }

  class ToolManager {
    var tools: map<string, Tool>
    /** Registration order of `tools`, as a JavaScript Map iterates it. */
    var order: seq<string>
    var categories: map<string, seq<string>>
    var activePipeline: Option<PipelineId>
    var contexts: map<PipelineId, PipelineContext>
    var commandLog: seq<CommandEntry>
    /** The `recordAudit` calls made to the governance service. */
    var audits: seq<AuditRecord>

    ghost predicate Valid()
      reads this
    {
      && (forall n :: n in tools ==> tools[n].name == n)
      && Distinct(order)
      && (forall n :: n in order <==> n in tools)
      && |commandLog| <= LogLimit
    }

    constructor ()
      ensures Valid()
      ensures tools == map[] && order == [] && categories == map[]
      ensures activePipeline == None && contexts == map[] && commandLog == [] && audits == []
    {
      tools, order, categories := map[], [], map[];
      activePipeline, contexts, commandLog, audits := None, map[], [], [];
    }

    /** The plan flag that applies to the next call: the active pipeline's, false when none. */
    function PlanOn(): bool
      reads this
    {
      activePipeline.Some? && activePipeline.value in contexts && contexts[activePipeline.value].planMode
    }

    /** The plan flag of pipeline `id`, false for a pipeline without a context. */
    function PlanFlag(id: PipelineId): bool
      reads this
    {
      id in contexts && contexts[id].planMode
    }

    /** `getCommandLog(pipelineId?)`. */
    function CommandLogFor(pipelineId: Option<PipelineId>): seq<CommandEntry>
      reads this
    {
      if pipelineId.Some? then Only(commandLog, pipelineId.value) else commandLog
    }

    /** `listTools()`. */
    function ListTools(): seq<Tool>
      reads this
      requires Valid()
    {
      ToolsInOrder(order, tools)
    }

    /** `getToolsForMode`: everything in act mode, everything but the write tools in plan mode. */
    function ToolsForMode(mode: Mode): (defs: seq<Tool>)
      reads this
      requires Valid()
      ensures mode == Act ==> defs == ListTools()
      ensures mode == Plan ==> defs == ReadTools(ListTools())
      ensures mode == Plan ==> forall t :: t in defs <==> t in ListTools() && t.name !in WriteTools
    {
      if mode == Act then ListTools() else ReadTools(ListTools())
    }

    /** `get(toolName)`. */
    function Get(toolName: string): (t: Option<Tool>)
      reads this
      requires Valid()
      ensures t.Some? <==> toolName in order
      ensures t.Some? ==> t.value == tools[toolName] && t.value.name == toolName
    {
      if toolName in tools then Some(tools[toolName]) else None
    }

    /** `getPipelineContext`: resolves the id, creating a default context on first use. */
    method GetPipelineContext(pipelineId: Option<PipelineId>) returns (ctx: Option<PipelineContext>)
      modifies this`contexts
      ensures var id := if pipelineId.Some? then pipelineId else activePipeline;
        && (id.None? ==> ctx.None? && contexts == old(contexts))
        && (id.Some? ==> contexts.Keys == old(contexts).Keys + {id.value})
        && (id.Some? && id.value in old(contexts) ==> contexts == old(contexts) && ctx == Some(contexts[id.value]))
        && (id.Some? && id.value !in old(contexts) ==>
              contexts == old(contexts)[id.value := DefaultContext] && ctx == Some(DefaultContext))
    {
      var id := if pipelineId.Some? then pipelineId else activePipeline;
      if id.None? {
        return None;
      }
      if id.value !in contexts {
        contexts := contexts[id.value := DefaultContext];
      }
      ctx := Some(contexts[id.value]);
    }

    method SetActivePipeline(pipelineId: Option<PipelineId>)
      modifies this`activePipeline
      ensures activePipeline == pipelineId
    {
      activePipeline := pipelineId;
    }

    /** The `planMode` getter: reading it also creates the active pipeline's context. */
    method PlanMode() returns (on: bool)
      modifies this`contexts
      ensures on == old(PlanOn())
      ensures activePipeline.None? ==> contexts == old(contexts)
      ensures activePipeline.Some? ==> contexts.Keys == old(contexts).Keys + {activePipeline.value}
      ensures forall id :: id in old(contexts) ==> id in contexts && contexts[id] == old(contexts)[id]
      ensures forall id :: id in contexts && id !in old(contexts) ==> contexts[id] == DefaultContext
    {
      var ctx := GetPipelineContext(None);
      on := if ctx.Some? then ctx.value.planMode else false;
    }

    /** `setPlanMode(enabled, pipelineId?)`: sets the flag of the given or the active pipeline. */
    method SetPlanMode(enabled: bool, pipelineId: Option<PipelineId>)
      modifies this`contexts
      ensures var id := if pipelineId.Some? then pipelineId else activePipeline;
        && (id.None? ==> contexts == old(contexts))
        && (id.Some? ==> contexts.Keys == old(contexts).Keys + {id.value} && PlanFlag(id.value) == enabled)
        && (id.Some? ==> contexts[id.value] == ContextOrDefault(old(contexts), id.value).(planMode := enabled))
        && (id.Some? ==> forall other :: other in old(contexts) && other != id.value ==> contexts[other] == old(contexts)[other])
    {
      var id := if pipelineId.Some? then pipelineId else activePipeline;
      if id.Some? {
        var ctx := GetPipelineContext(id);
        contexts := contexts[id.value := ctx.value.(planMode := enabled)];
      }
    }

    /** `isWriteTool`. */
    predicate IsWriteTool(toolName: string) {
      toolName in WriteTools
    }

    method ClearCommandLog(pipelineId: Option<PipelineId>)
      requires Valid()
      modifies this`commandLog
      ensures Valid()
      ensures pipelineId.None? ==> commandLog == []
      ensures pipelineId.Some? ==> commandLog == Without(old(commandLog), pipelineId.value)
    {
      if pipelineId.Some? {
        commandLog := Without(commandLog, pipelineId.value);
      } else {
        commandLog := [];
      }
    }

    /** `addCommandLog`: tags the entry with the active pipeline and keeps at most 500 entries. */
    method AddCommandLog(command: string, output: string, timestamp: string, success: bool)
      requires Valid()
      modifies this`commandLog
      ensures Valid()
      ensures commandLog == AppendLog(old(commandLog), CommandEntry(command, output, timestamp, success, activePipeline))
    {
      commandLog := AppendLog(commandLog, CommandEntry(command, output, timestamp, success, activePipeline));
    }

    /** `cleanupPipeline(id)`: drops id's context and transcript entries and releases the active pointer. */
    method CleanupPipeline(id: PipelineId)
      requires Valid()
      modifies this`contexts, this`commandLog, this`activePipeline
      ensures Valid()
      ensures contexts == old(contexts) - {id}
      ensures commandLog == Without(old(commandLog), id)
      ensures activePipeline == if Tagged(old(activePipeline), id) then None else old(activePipeline)
      ensures CommandLogFor(Some(id)) == []
      ensures forall other :: other != id ==> CommandLogFor(Some(other)) == old(CommandLogFor(Some(other)))
    {
      contexts := contexts - {id};
      commandLog := Without(commandLog, id);
      if Tagged(activePipeline, id) {
        activePipeline := None;
      }
      WithoutClears(old(commandLog), id);
      forall other | other != id
        ensures Only(commandLog, other) == Only(old(commandLog), other)
      {
        WithoutKeepsOthers(old(commandLog), id, other);
      }
    }

    /** `register`: (re)binds the name, keeps its registration position, and files it under its category. */
    method Register(tool: Tool)
      requires Valid()
      modifies this`tools, this`order, this`categories
      ensures Valid()
      ensures tools == old(tools)[tool.name := tool]
      ensures order == if tool.name in old(tools) then old(order) else old(order) + [tool.name]
      ensures categories == old(categories)[tool.category :=
        (if tool.category in old(categories) then old(categories)[tool.category] else []) + [tool.name]]
    {
      if tool.name !in tools {
        order := order + [tool.name];
      }
      tools := tools[tool.name := tool];
      var listed := if tool.category in categories then categories[tool.category] else [];
      categories := categories[tool.category := listed + [tool.name]];
    }

    /** `unregister`: false for an unknown name; otherwise forgets the tool and its first category entry. */
    method Unregister(toolName: string) returns (removed: bool)
      requires Valid()
      modifies this`tools, this`order, this`categories
      ensures Valid()
      ensures removed <==> toolName in old(tools)
      ensures !removed ==> tools == old(tools) && order == old(order) && categories == old(categories)
      ensures removed ==> tools == old(tools) - {toolName} && order == RemoveFirst(old(order), toolName)
      ensures removed ==> var cat := old(tools)[toolName].category;
        categories == if cat in old(categories) then old(categories)[cat := RemoveFirst(old(categories)[cat], toolName)] else old(categories)
    {
      if toolName !in tools {
        return false;
      }
      var tool := tools[toolName];
      tools := tools - {toolName};
      RemoveFirstUnique(order, toolName);
      order := RemoveFirst(order, toolName);
      if tool.category in categories {
        categories := categories[tool.category := RemoveFirst(categories[tool.category], toolName)];
      }
      removed := true;
    }

    /**
     * `execute`: the checks run in the order not-found, plan mode, RBAC, governance,
     * parameter validation; the first that fails decides the answer and nothing runs.
     */
    method Execute(toolName: string, params: ToolParams, agentName: Option<string>,
                   lookup: RegistryLookup, policy: PolicyDecision, validation: Validation,
                   run: ToolRun, now: string, durationMs: nat)
      returns (r: ToolResult, steps: seq<Step>)
      requires Valid()
      modifies this`contexts, this`commandLog, this`audits
      ensures Valid()
      ensures toolName !in old(tools) ==> contexts == old(contexts)
      ensures toolName in old(tools) && activePipeline.None? ==> contexts == old(contexts)
      ensures toolName in old(tools) && activePipeline.Some? ==> contexts.Keys == old(contexts).Keys + {activePipeline.value}
      ensures forall id :: id in old(contexts) ==> id in contexts && contexts[id] == old(contexts)[id]
      ensures forall id :: id in contexts && id !in old(contexts) ==> contexts[id] == DefaultContext
      ensures Outcome(r, steps, commandLog, audits) ==
        ExecuteSpec(old(toolName in tools), old(PlanOn()), old(activePipeline), old(commandLog), old(audits),
                    toolName, params, agentName, lookup, policy, validation, run, now, durationMs)
    {
      ghost var gate := GateFor(toolName in tools, PlanOn(), toolName, params, agentName, lookup, policy, validation);
      steps := [];
      if toolName !in tools {
        r := NotFound(toolName);
        return;
      }
      var planOn := PlanMode();
      if planOn && toolName in WriteTools {
        r := PlanBlocked(toolName);
        return;
      }
      if AgentGiven(agentName) {
        var agent := agentName.value;
        steps := [RbacLookedUp(toolName, agent)];
        var rbac := CheckRbac(toolName, agent, lookup);
        if rbac.Denied? {
          r := RbacRefused(toolName, rbac.reason);
          assert gate == Gate(Some(r), steps);
          return;
        }
        steps := steps + [PolicyEvaluated(agent, toolName, PolicyTarget(params, toolName))];
        if !policy.allowed {
          r := GovernanceRefused(policy);
          assert gate == Gate(Some(r), steps);
          return;
        }
      }
      assert steps == PolicySteps(toolName, params, agentName);
      steps := steps + [ParamsValidated];
      if !validation.valid {
        r := InvalidParams(validation);
        assert gate == Gate(Some(r), steps);
        return;
      }
      assert gate == Gate(None, steps);
      r, steps := RunTool(toolName, params, agentName, steps, run, now, durationMs);
    }

    /** The end of `execute` once every check passed: run the tool, then log and audit what it returned. */
    method RunTool(toolName: string, params: ToolParams, agentName: Option<string>, checked: seq<Step>,
                   run: ToolRun, now: string, durationMs: nat)
      returns (r: ToolResult, steps: seq<Step>)
      requires Valid()
      modifies this`commandLog, this`audits
      ensures Valid()
      ensures Outcome(r, steps, commandLog, audits) ==
        RunSpec(activePipeline, old(commandLog), old(audits), toolName, params, agentName, checked, run, now, durationMs)
    {
      steps := checked + [ToolExecuted];
      match run
      case Raised(message) =>
        r := ExecutionFailed(message);
      case Returned(res) =>
        if LogsCommand(toolName) {
          AddCommandLog(OrElse(params.command, toolName), ClippedOutput(res.result), now, res.success);
        }
        if AgentGiven(agentName) {
          audits := audits + [AuditFor(agentName.value, toolName, params, res, durationMs)];
        }
        r := res;
    }
  }

  /** No name occurs twice. */
  predicate Distinct(s: seq<string>) {
    forall i, j :: 0 <= i < j < |s| ==> s[i] != s[j]
  }

  lemma DistinctTail(s: seq<string>)
    requires |s| > 0 && Distinct(s)
    ensures Distinct(s[1..]) && s[0] !in s[1..]
  {
    forall j | 0 <= j < |s[1..]| ensures s[1..][j] != s[0] {
      assert s[1..][j] == s[j + 1];
    }
  }

  lemma DistinctCons(a: string, t: seq<string>)
    requires Distinct(t) && a !in t
    ensures Distinct([a] + t)
  {
    forall i, j | 0 <= i < j < |[a] + t| ensures ([a] + t)[i] != ([a] + t)[j] {
      assert ([a] + t)[j] == t[j - 1];
      if i > 0 {
        assert ([a] + t)[i] == t[i - 1];
      }
    }
  }

  /** Removing a name that occurs once keeps the registration order duplicate-free and drops only that name. */
  lemma RemoveFirstUnique(s: seq<string>, x: string)
    requires Distinct(s)
    ensures var r := RemoveFirst(s, x);
      && Distinct(r)
      && (forall n :: n in r <==> n in s && n != x)
  {
    RemoveFirstDistinct(s, x);
    RemoveFirstMembers(s, x);
  }

  lemma {:induction false} RemoveFirstDistinct(s: seq<string>, x: string)
    requires Distinct(s)
    ensures Distinct(RemoveFirst(s, x)) && (forall n :: n in RemoveFirst(s, x) ==> n in s)
  {
    if |s| > 0 {
      DistinctTail(s);
      if s[0] != x {
        var t := RemoveFirst(s[1..], x);
        RemoveFirstDistinct(s[1..], x);
        assert RemoveFirst(s, x) == [s[0]] + t;
        DistinctCons(s[0], t);
      }
    }
  }

  lemma {:induction false} RemoveFirstMembers(s: seq<string>, x: string)
    requires Distinct(s)
    ensures forall n :: n in RemoveFirst(s, x) <==> n in s && n != x
  {
    if |s| > 0 {
      DistinctTail(s);
      assert forall n :: n in s <==> n == s[0] || n in s[1..];
      if s[0] != x {
        RemoveFirstMembers(s[1..], x);
        assert RemoveFirst(s, x) == [s[0]] + RemoveFirst(s[1..], x);
      }
    }
  }
}
