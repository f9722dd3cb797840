# Arcádia Suite core, modelled in Dafny

Arcádia Suite is an ERP and development platform. Its server lets a set of AI agents cooperate through a shared *blackboard* of tasks, and it exposes their work through HTTP routes and a development-center page. This project models the parts of that server and client that make decisions, and proves what those decisions guarantee:

- **Tool gateway** (`ToolGateway`, server/autonomous/tools/ToolManager.ts): the tool registry and the per-pipeline plan mode. It also covers the bounded command transcript and `execute`. Every tool call passes through the not-found, plan-mode, RBAC, governance and validation checks before the tool runs.
- **Agent runtime** (`AgentRuntime`, `Blackboard`, server/blackboard/BaseBlackboardAgent.ts): the `ManusIntelligence` facade with its counters and keyword-based context enrichment. It also covers the base agent's start/poll/stop life cycle: which tasks are claimed, processed or failed, and in what order.
- **Architect agent** (`Architect`, server/blackboard/agents/ArchitectAgent.ts): which tasks it takes and the code-search query it builds. It also covers how it extracts a JSON spec from the model's answer and the blackboard calls it makes.
- **Pipeline routes** (`PipelineRoutes`, server/blackboard/pipelineRoutes.ts): validation of a new pipeline and the plan/act prompt rewrite. It also covers the mode switches, the list limit and the per-pipeline event stream's listener registry.
- **Module migrator and loaders** (`Migrator`, `SchemaIndex`, `ModuleLoader`; server/modules/migrator.ts, shared/schemas/loader.ts, server/modules/loader.ts): registering a schema module in shared/schemas/index.ts, the status report, and mounting module routers.
- **Plus proxy** (`PlusProxy`, server/plus/proxy.ts): the `/plus` path rewrite and forwarded headers. It also covers the rewrite of `Location` headers and the status classification.
- **Engine room** (`EngineRoom`, server/engine-room/routes.ts): engine health and the status summary. It also covers the control routes dispatched through the engine-to-service map, and the Manus health route.
- **Client logic** (`DevCenter`, `SoeMotor`, `TenantFeatures`): the development center's preview routes, diff rows, pending-change de-duplication and approve body. It also covers the ERP motor choice kept in local storage, and the tenant feature flags laid over their defaults.

`Wrappers`, `Seqs` and `Text` hold Option/Result values, sequence facts and the JavaScript string operations the rest relies on.

Foreign services are not part of this model. This covers the language model, the governance and blackboard services, the database, `fetch`, the file system, `exec` and dynamic `import`. Their replies are parameters of the operation that consults them. Where the source calls a service for its effect, the call is recorded in a class field (`Blackboard.Services`, `PipelineRoutes.Orchestrator`, `ModuleLoader.App`) and the contracts state the recorded sequence.

## Model

| member | source | states |
|---|---|---|
| ToolGateway.OrElse | server/autonomous/tools/ToolManager.ts:215 | `x \|\| fallback` for an optional string: the value when it is present and non-empty, the fallback otherwise |
| ToolGateway.RbacDeniesExactly | server/autonomous/tools/ToolManager.ts:157-178 | `checkRBAC` denies exactly when the registry row has a non-empty allow-list naming neither the agent nor `*`; a failed lookup, a missing row and a null or empty list all allow |
| ToolGateway.ClippedOutput | server/autonomous/tools/ToolManager.ts:239 | the transcript output is at most 5000 characters, a prefix of the tool's result, the whole result when it fits, and empty when there is none |
| ToolGateway.PolicySteps | server/autonomous/tools/ToolManager.ts:199-218 | RBAC and governance are consulted (two services) exactly when an agent name is given, and never count as validation or execution |
| ToolGateway.AppendLog | server/autonomous/tools/ToolManager.ts:93-98 | the transcript never exceeds 500 entries, ends with the new entry, keeps the newest entries in their order, grows by one below the limit and drops to 250 entries on overflow |
| ToolGateway.Only | server/autonomous/tools/ToolManager.ts:78-83 | `getCommandLog(id)`: no longer than the log, and every entry comes from the log and is tagged with `id` |
| ToolGateway.OnlyMembers | server/autonomous/tools/ToolManager.ts:78-83 | the transcript of `id` holds exactly the log entries tagged with `id` |
| ToolGateway.OnlyOne | server/autonomous/tools/ToolManager.ts:78-83 | one entry is kept exactly when it is tagged with `id` |
| ToolGateway.Without | server/autonomous/tools/ToolManager.ts:85-91 | the filter is no longer than the log, and every entry comes from the log and is not tagged with `id` |
| ToolGateway.WithoutMembers | server/autonomous/tools/ToolManager.ts:85-91 | the removal keeps exactly the entries not tagged with `id` |
| ToolGateway.WithoutOne | server/autonomous/tools/ToolManager.ts:85-91 | one entry is kept exactly when it is not tagged with `id` |
| ToolGateway.WithoutConcat | server/autonomous/tools/ToolManager.ts:85-91 | the removal keeps the order: it distributes over concatenation |
| ToolGateway.NaNSelectsNothing | server/autonomous/tools/ToolManager.ts:78-91 | `NaN` equals no tag: its transcript is empty and removing its entries removes nothing |
| ToolGateway.WithoutKeepsOthers | server/autonomous/tools/ToolManager.ts:100-104 | removing pipeline `id`'s entries leaves every other pipeline's transcript exactly as it was |
| ToolGateway.WithoutClears | server/autonomous/tools/ToolManager.ts:100-104 | after removing pipeline `id`'s entries, its transcript is empty |
| ToolGateway.NoneTagged | server/autonomous/tools/ToolManager.ts:78-83 | a log with no entry tagged `id` has an empty transcript for `id` |
| ToolGateway.OnlyConcat | server/autonomous/tools/ToolManager.ts:78-83 | a pipeline's transcript of a concatenated log is the concatenation of the two transcripts |
| ToolGateway.ToolsInOrder | server/autonomous/tools/ToolManager.ts:268-270 | `listTools` gives one definition per registered name, in registration order |
| ToolGateway.ReadTools | server/autonomous/tools/ToolManager.ts:108 | the plan-mode filter keeps exactly the tools that are not write tools |
| ToolGateway.ReadToolsConcat | server/autonomous/tools/ToolManager.ts:108 | the filter keeps the tools' order: filtering `a + b` gives `a`'s kept tools, then `b`'s |
| ToolGateway.ReadToolsOne | server/autonomous/tools/ToolManager.ts:108 | one tool is kept exactly when its name is not a write tool |
| ToolGateway.ReadOnlyToolsListed | server/autonomous/tools/ToolManager.ts:7-28 | a tool whose name is in the declared read-only set is never a write tool, so plan mode keeps it listed |
| ToolGateway.RemoveFirstCounts | server/autonomous/tools/ToolManager.ts:144-147 | `indexOf` + `splice`: exactly one copy of the name is removed when there is one, nothing otherwise (as multisets) |
| ToolGateway.RemoveFirstAbsent | server/autonomous/tools/ToolManager.ts:144-147 | removing an absent name leaves the list unchanged |
| ToolGateway.RemoveFirstMultiset | server/autonomous/tools/ToolManager.ts:144-147 | the multiset of names loses exactly one copy of the removed name |
| ToolGateway.RemoveFirstUnique | server/autonomous/tools/ToolManager.ts:136-151 | on a duplicate-free list the removal keeps it duplicate-free and drops exactly that name |
| ToolGateway.RemoveFirstDistinct | server/autonomous/tools/ToolManager.ts:144-147 | the removal keeps a duplicate-free list duplicate-free and adds no names |
| ToolGateway.RemoveFirstMembers | server/autonomous/tools/ToolManager.ts:144-147 | on a duplicate-free list, the names left are exactly the old names other than the removed one |
| ToolGateway.GateRefusesUncleared | server/autonomous/tools/ToolManager.ts:180-227 | the check chain refuses exactly the calls that are not cleared (unknown, plan-blocked, RBAC, governance, invalid parameters), always with `success: false`, never running the tool |
| ToolGateway.ExecuteUnknownFirst | server/autonomous/tools/ToolManager.ts:181-189 | an unregistered tool fails with `TOOL_NOT_FOUND: <name>` before any service is consulted and leaves the transcript and audits unchanged |
| ToolGateway.ExecutePlanMode | server/autonomous/tools/ToolManager.ts:7-12 | in plan mode exactly the four write tools are refused with `PLAN_MODE_BLOCKED` and nothing else happens; every other tool behaves as outside plan mode |
| ToolGateway.ExecuteAnonymousSkipsPolicy | server/autonomous/tools/ToolManager.ts:199-218 | without an agent name neither RBAC nor governance is consulted |
| ToolGateway.ExecutePolicyOrder | server/autonomous/tools/ToolManager.ts:199-218 | with an agent name RBAC is consulted first; a denial gives `RBAC_DENIED`, a governance refusal `GOVERNANCE_DENIED: <policy or unknown>`, and neither runs the tool nor records anything |
| ToolGateway.ExecuteRunsOnlyWhenCleared | server/autonomous/tools/ToolManager.ts:180-266 | the tool runs exactly when every check passed; success implies it ran; a refused or raising call leaves transcript and audits unchanged |
| ToolGateway.ExecuteRecords | server/autonomous/tools/ToolManager.ts:236-257 | after a run, in act mode and in plan mode for every tool plan mode lets through, the result is returned as is; only `run_command`/`typecheck` append one entry (tagged with the active pipeline, output at most 5000 characters, log bounded); an audit record is written exactly for a named agent |
| ToolGateway.ToolManager.constructor | server/autonomous/tools/ToolManager.ts:35-41 | the gateway starts with no tools, no categories, no contexts, no active pipeline and an empty transcript |
| ToolGateway.ToolManager.ToolsForMode | server/autonomous/tools/ToolManager.ts:106-109 | act mode lists every tool; plan mode lists the registered tools through the order-keeping filter `ReadTools` (see ReadToolsConcat, ReadToolsOne), so exactly those that are not write tools, in registration order |
| ToolGateway.ToolManager.Get | server/autonomous/tools/ToolManager.ts:153-155 | a tool is found exactly when its name is registered, and it is the tool of that name |
| ToolGateway.ToolManager.GetPipelineContext | server/autonomous/tools/ToolManager.ts:43-50 | the given or the active id is used; none gives no context; an unknown id gets a fresh context `{planMode: false, commandLog: []}`; known contexts are returned unchanged |
| ToolGateway.ToolManager.SetActivePipeline | server/autonomous/tools/ToolManager.ts:52-54 | the active pipeline becomes the given one |
| ToolGateway.ToolManager.PlanMode | server/autonomous/tools/ToolManager.ts:60-63 | the active pipeline's plan flag, false without one; reading it only adds a default context for the active pipeline |
| ToolGateway.ToolManager.SetPlanMode | server/autonomous/tools/ToolManager.ts:65-72 | the given or active pipeline's context is its old one, or the default one when new, with the flag set to `enabled`; the only key added is that pipeline's; every other context is unchanged; without an id nothing changes |
| ToolGateway.ToolManager.ClearCommandLog | server/autonomous/tools/ToolManager.ts:85-91 | with an id only that pipeline's entries go; without one the transcript is emptied |
| ToolGateway.ToolManager.AddCommandLog | server/autonomous/tools/ToolManager.ts:93-98 | the transcript becomes `AppendLog` of the entry tagged with the active pipeline, so it stays within 500 entries |
| ToolGateway.ToolManager.CleanupPipeline | server/autonomous/tools/ToolManager.ts:100-104 | the pipeline's context and entries go, the active pointer is released only if it was that pipeline, and every other pipeline's transcript is unchanged |
| ToolGateway.ToolManager.Register | server/autonomous/tools/ToolManager.ts:111-119 | the name is (re)bound to the tool, keeps its registration position, and is appended to its category's list |
| ToolGateway.ToolManager.Unregister | server/autonomous/tools/ToolManager.ts:136-151 | false and no change for an unknown name; otherwise the tool is forgotten and the first entry of its name leaves its category |
| ToolGateway.ToolManager.Execute | server/autonomous/tools/ToolManager.ts:180-266 | the answer, the services consulted, the transcript and the audits are those of the check chain followed by the run; for a known tool the only key added is the active pipeline's (reading `planMode`), with a default context; no existing context changes; an unknown tool changes no context |
| ToolGateway.ToolManager.RunTool | server/autonomous/tools/ToolManager.ts:229-266 | once the checks passed, the answer, the transcript and the audits are those of running the tool and then logging and auditing what it returned |
| AgentRuntime.Pieces | server/blackboard/BaseBlackboardAgent.ts:121 | a split at each single whitespace character (so a run of whitespace leaves empty pieces, which `split(/\s+/)` would not): at least one piece, and no piece holds whitespace |
| AgentRuntime.PiecesGlue | server/blackboard/BaseBlackboardAgent.ts:121 | gluing the pieces back with the whitespace characters of the text, in order, gives the text |
| AgentRuntime.PiecesOfGlue | server/blackboard/BaseBlackboardAgent.ts:121 | splitting words glued with single whitespace characters gives back the words |
| AgentRuntime.LongWordsMembers | server/blackboard/BaseBlackboardAgent.ts:121 | `filter(w => w.length > 4)`: exactly the words longer than 4 characters |
| AgentRuntime.LongWordsConcat | server/blackboard/BaseBlackboardAgent.ts:121 | the filter keeps order: it distributes over concatenation |
| AgentRuntime.LongWordsOne | server/blackboard/BaseBlackboardAgent.ts:121 | one word is kept exactly when it is longer than 4 characters |
| AgentRuntime.KeywordsShape | server/blackboard/BaseBlackboardAgent.ts:121 | `slice(0, 5)`: the first `min(5, n)` long words, in order, each longer than 4 characters and without whitespace |
| AgentRuntime.KeywordsOfWords | server/blackboard/BaseBlackboardAgent.ts:121 | for words glued by whitespace, the keywords are the long words, cut at five |
| AgentRuntime.EnrichSearchMentions | server/blackboard/BaseBlackboardAgent.ts:121-126 | the context lookup calls `search_code` with at most 5 results and a query containing every keyword |
| AgentRuntime.FirstPieceIsPrefix | server/blackboard/BaseBlackboardAgent.ts:121 | the first piece of a split is a prefix of the text |
| AgentRuntime.ContainsTail | server/blackboard/BaseBlackboardAgent.ts:121 | what occurs in the text's tail occurs in the text |
| AgentRuntime.AllOccurCons | server/blackboard/BaseBlackboardAgent.ts:121 | the pieces occurring in the text stay so when one more occurring piece is put in front |
| AgentRuntime.AllOccurTail | server/blackboard/BaseBlackboardAgent.ts:121 | dropping the first piece keeps the others occurring |
| AgentRuntime.AllOccurWiden | server/blackboard/BaseBlackboardAgent.ts:121 | pieces occurring in the text's tail occur in the text |
| AgentRuntime.PiecesOccur | server/blackboard/BaseBlackboardAgent.ts:121 | every piece of the split occurs in the text |
| AgentRuntime.KeywordsOccur | server/blackboard/BaseBlackboardAgent.ts:121 | every keyword sent to the code search occurs in the prompt |
| AgentRuntime.MatchLines | server/blackboard/BaseBlackboardAgent.ts:130 | one `file:line - content` line per search match, in order |
| AgentRuntime.Enrichment | server/blackboard/BaseBlackboardAgent.ts:117-137 | the context block is empty exactly when the search failed, threw or found nothing; otherwise the header followed by the match lines |
| AgentRuntime.Enriched | server/blackboard/BaseBlackboardAgent.ts:58-64 | the enriched prompt starts with the prompt; it is the prompt alone when enrichment is switched off, and the prompt plus the context block otherwise |
| AgentRuntime.ErrorThought | server/blackboard/BaseBlackboardAgent.ts:109-113 | a failed `think` answers a finished thought `Erro ao processar: …` carrying the error |
| AgentRuntime.CountOr | server/blackboard/BaseBlackboardAgent.ts:72 | `n \|\| fallback` for a count: a non-zero count, else the fallback |
| AgentRuntime.ManusIntelligence.constructor | server/blackboard/BaseBlackboardAgent.ts:39-46 | model `gpt-4o`, every counter 0, started now |
| AgentRuntime.ManusIntelligence.Generate | server/blackboard/BaseBlackboardAgent.ts:55-84 | `callCount` goes up by one on every call; `errorCount` exactly on failure, which is raised again; success returns the content (or empty) and adds its tokens; the request holds the enriched prompt and `max_tokens` (8000 by default) |
| AgentRuntime.ManusIntelligence.Think | server/blackboard/BaseBlackboardAgent.ts:86-115 | `callCount` goes up by one on every call; the prompt is enriched with the `search_code` request for the keywords; a failed request counts one error and yields the error thought; a completed one adds its tokens and parses `content \|\| '{}'`, an unparsable answer counting one error |
| AgentRuntime.ManusSlot.constructor | server/blackboard/BaseBlackboardAgent.ts:40 | no facade exists before the first `getInstance` |
| AgentRuntime.ManusSlot.GetInstance | server/blackboard/BaseBlackboardAgent.ts:48-53 | the first call creates a fresh facade with zero counters, and every later call returns that same object |
| AgentRuntime.TaskCalls | server/blackboard/BaseBlackboardAgent.ts:236-248 | a task leads to blackboard calls exactly when `canHandle` holds, and the first is its claim |
| AgentRuntime.LoopOrder | server/blackboard/BaseBlackboardAgent.ts:235-250 | the loop starts with a claim; `process` comes right after the claim of the same task, and `failTask` right after that task's `process`, naming the agent |
| AgentRuntime.TaskCallsShape | server/blackboard/BaseBlackboardAgent.ts:236-248 | a task's calls are its claim, `process` only after a granted claim, and `failTask` with the message only when `process` threw |
| AgentRuntime.LoopCallOrigin | server/blackboard/BaseBlackboardAgent.ts:235-250 | every call of the loop belongs to one of the fetched tasks |
| AgentRuntime.LoopJustified | server/blackboard/BaseBlackboardAgent.ts:233-250 | only handled tasks are claimed, by this agent; only granted claims are processed; `failTask` carries exactly the message `process` threw |
| AgentRuntime.FailureContained | server/blackboard/BaseBlackboardAgent.ts:242-247 | a task whose `process` threw does not stop the loop: the calls split at any point before the first claim that throws |
| AgentRuntime.FailureSpan | server/blackboard/BaseBlackboardAgent.ts:242-247 | the same split for any stretch of tasks without a throwing claim |
| AgentRuntime.SpanStep | server/blackboard/BaseBlackboardAgent.ts:235-250 | one task of such a stretch contributes its own calls and then the rest |
| AgentRuntime.HandledTasksVisited | server/blackboard/BaseBlackboardAgent.ts:235-250 | when no claim throws, every handled task is claimed, every granted one processed, and every granted one whose processing threw is reported with `failTask` and its message |
| AgentRuntime.LoopStep | server/blackboard/BaseBlackboardAgent.ts:235-250 | task `i` contributes its calls, and the loop goes on unless its claim threw |
| AgentRuntime.Agent.constructor | server/blackboard/BaseBlackboardAgent.ts:155-162 | a new agent is stopped, with no timer, and keeps its configuration |
| AgentRuntime.Agent.PollDelay | server/blackboard/BaseBlackboardAgent.ts:255 | `pollInterval || 2000`: the configured interval when it is non-zero, 2000 when absent or 0, so never 0 |
| AgentRuntime.Agent.Status | server/blackboard/BaseBlackboardAgent.ts:267-273 | `running` is the running flag; name and capabilities come from the configuration |
| AgentRuntime.Agent.Poll | server/blackboard/BaseBlackboardAgent.ts:229-256 | a stopped agent does nothing; a running one fetches, visits the tasks and arms the timer with its delay, even when fetching failed |
| AgentRuntime.Agent.VisitTasks | server/blackboard/BaseBlackboardAgent.ts:235-250 | the task loop makes exactly the specified calls, in fetched order |
| AgentRuntime.Agent.VisitTask | server/blackboard/BaseBlackboardAgent.ts:236-248 | one task's calls, and whether its claim threw |
| AgentRuntime.Agent.Start | server/blackboard/BaseBlackboardAgent.ts:220-227 | afterwards the agent runs; a running agent does nothing else; a stopped one polls once |
| AgentRuntime.Agent.Stop | server/blackboard/BaseBlackboardAgent.ts:258-265 | the running flag is cleared and the timer is gone |
| AgentRuntime.Agent.Log | server/blackboard/BaseBlackboardAgent.ts:198-210 | an action log followed by an audit record, as `LogCallsAudit` states |
| AgentRuntime.Agent.GenerateWithAI | server/blackboard/BaseBlackboardAgent.ts:190-196 | the call uses the given system prompt or the agent's own, 8000 tokens and the prompt enriched by the `search_code` request for its keywords; it returns the content (or empty) and raises the request's error |
| AgentRuntime.Clip | server/blackboard/BaseBlackboardAgent.ts:205-207 | `slice(0, n)`: a prefix of at most `n` characters, the whole text when it fits |
| AgentRuntime.LogCallsAudit | server/blackboard/BaseBlackboardAgent.ts:198-210 | `log` makes two calls, the action log then a `logged` audit for the agent and task, with the thought cut to 200 and the observation to 500 characters |
| AgentRuntime.ArtifactLines | server/blackboard/BaseBlackboardAgent.ts:181-183 | one line per artifact, the `k`-th being `- name (type): <its first 500 characters, or undefined without content>...` for the `k`-th artifact |
| AgentRuntime.ArtifactBlock | server/blackboard/BaseBlackboardAgent.ts:181-184 | the artifact block is empty exactly when there are no artifacts, and holds every artifact line |
| AgentRuntime.ThinkContext | server/blackboard/BaseBlackboardAgent.ts:185 | the task context starts `TAREFA: <title>` + `DESCRIÇÃO: `, holds the context and every artifact line in order, and ends with the fixed JSON instruction |
| Blackboard.Services.constructor | server/blackboard/BaseBlackboardAgent.ts:12 | no call has been made to the blackboard or governance services yet |
| Blackboard.Services.Record | server/blackboard/BaseBlackboardAgent.ts:12 | each service call is appended to the recorded calls |
| Architect.ArchitectClaimsOnlyItsTasks | server/blackboard/agents/ArchitectAgent.ts:98-101 | the architect claims and processes only tasks in phase `design` or assigned to `architect` |
| Architect.Take | server/blackboard/agents/ArchitectAgent.ts:112 | `slice(0, 3)`: a prefix of the words, of length `min(3, count)` |
| Architect.JoinPrefix | server/blackboard/agents/ArchitectAgent.ts:112 | joining the first words gives a prefix of joining them all |
| Architect.SearchQueryWords | server/blackboard/agents/ArchitectAgent.ts:111-114 | the code-search query is one to three space-free words of the title, taken from its start and joined with `\|` |
| Architect.LastIndex | server/blackboard/agents/ArchitectAgent.ts:138 | the last position of a character, or none when it does not occur |
| Architect.BraceSpan | server/blackboard/agents/ArchitectAgent.ts:138 | the greedy match of `/\{[\s\S]*\}/`: from the first `{` to the last `}` after it, and no match exactly when no `}` follows the first `{` |
| Architect.ExtractSpec | server/blackboard/agents/ArchitectAgent.ts:136-142 | no braces give `{raw}`; the greedy span starts with `{` and ends with `}`; a parsable span gives the parsed span; an unparsable one gives `{raw, parseError: true}` |
| Architect.RelevantCode | server/blackboard/agents/ArchitectAgent.ts:110-118 | the relevant-code block is empty exactly when the search failed or found nothing |
| Architect.SpecPrompt | server/blackboard/agents/ArchitectAgent.ts:120-131 | the spec prompt holds the project context and the relevant code and ends with the fixed instructions |
| Architect.ArtifactsMembers | server/blackboard/agents/ArchitectAgent.ts:144-159 | the artifact calls picked out of a call list are exactly its `addArtifact` calls |
| Architect.ArtifactsConcat | server/blackboard/agents/ArchitectAgent.ts:144-159 | picking artifacts distributes over concatenation |
| Architect.NoArtifacts | server/blackboard/agents/ArchitectAgent.ts:144-159 | a call list without `addArtifact` calls has no artifacts |
| Architect.ProcessArtifacts | server/blackboard/agents/ArchitectAgent.ts:144-159 | a processed task gets exactly two artifacts, `specification.json` (spec) then `project-context.md` (doc), both by `architect`; a failed generation gets none |
| Architect.ProcessSubtaskAndCompletion | server/blackboard/agents/ArchitectAgent.ts:161-178 | a `codegen` subtask for `generator` depending on the task is created exactly when a main task exists; `completeTask` with the spec is the last call and happens only after a successful generation |
| Architect.ClosingShape | server/blackboard/agents/ArchitectAgent.ts:163-178 | at most one subtask, and the completion is the last call |
| Architect.Prelude | server/blackboard/agents/ArchitectAgent.ts:104-132 | the three `log` calls, `thinking`, `analyzing` and `generating` (action log and audit each), are recorded in that order |
| Architect.Publish | server/blackboard/agents/ArchitectAgent.ts:144-178 | the artifacts, the completion log, the main-task lookup, the optional subtask and the completion are recorded in order |
| Architect.AskForSpec | server/blackboard/agents/ArchitectAgent.ts:134 | the spec prompt is sent, enriched, under the agent's configured system prompt with 8000 maximum tokens, counting one call; the answer's content (or empty) comes back, or the request's error |
| Architect.Process | server/blackboard/agents/ArchitectAgent.ts:103-179 | one model call, under the agent's configured system prompt with 8000 maximum tokens; the search query and prompt are derived from the task; a failed generation ends the call list after the `generating` log and throws; otherwise the whole sequence is recorded |
| PipelineRoutes.ValidateCreate | server/blackboard/pipelineRoutes.ts:8-25 | a create request is accepted exactly when the prompt is a string of at least 5 characters, the mode is absent, `plan` or `act`, and the plan context is absent or a string; mode defaults to `act`; a short prompt reports the 5-character message |
| PipelineRoutes.IssueText | server/blackboard/pipelineRoutes.ts:24 | the 400 error is the schema's own message `O prompt deve ter pelo menos 5 caracteres` exactly for a too-short prompt |
| PipelineRoutes.PlanPromptEndsWithRequest | server/blackboard/pipelineRoutes.ts:37-38 | in plan mode the prompt is the fixed planning prefix ending `Solicitação: ` followed by the request |
| PipelineRoutes.RewritePrompt | server/blackboard/pipelineRoutes.ts:36-41 | whatever the mode, the rewritten prompt ends with the original request; in act mode without a (non-empty) plan it is unchanged |
| PipelineRoutes.ActPromptCarriesPlan | server/blackboard/pipelineRoutes.ts:39-40 | in act mode with a plan, the plan sits between `--- PLANO ---` and `--- FIM DO PLANO ---` and the prompt ends `Solicitação original: <request>` |
| PipelineRoutes.Orchestrator.constructor | server/blackboard/pipelineRoutes.ts:2 | no orchestrator call has been made yet |
| PipelineRoutes.Orchestrator.Record | server/blackboard/pipelineRoutes.ts:43-48 | each orchestrator call is appended to the recorded calls |
| PipelineRoutes.CreateCall | server/blackboard/pipelineRoutes.ts:27-43 | the pipeline is created with the rewritten prompt, the user id or `anonymous`, and metadata holding the mode and the plan context only when it is non-empty |
| PipelineRoutes.Create | server/blackboard/pipelineRoutes.ts:20-55 | an invalid body gets a 400 with nothing created; a failed creation a 500; otherwise the new pipeline becomes active, its context (the old one, or the default when new) gets plan flag `mode == plan`, it is the only key added, other contexts are unchanged, and `startPipeline` is called after |
| PipelineRoutes.QueryId | server/blackboard/pipelineRoutes.ts:59 | `pipelineId ? parseInt(pipelineId) : undefined`: no id exactly for a missing or empty parameter; an unparsable one gives `NaN`; the decimal text of `n` gives `n` |
| PipelineRoutes.ParseId | server/blackboard/pipelineRoutes.ts:59 | `parseInt` as a pipeline id: `NaN` exactly when no number starts the text, the number otherwise |
| PipelineRoutes.JsonId | server/blackboard/pipelineRoutes.ts:72 | `res.json` writes a numeric id as itself and `NaN` (or none) as `null` |
| PipelineRoutes.AgentTerminal | server/blackboard/pipelineRoutes.ts:57-65 | without an id the whole transcript; with one only its entries; `NaN` lists nothing |
| PipelineRoutes.GetMode | server/blackboard/pipelineRoutes.ts:67-73 | a given id (`NaN` included) becomes active; the answer is the active pipeline's plan flag and its id, `NaN` written as `null`; the only key added is the active pipeline's, with a default context; no existing context changes |
| PipelineRoutes.BodyPipelineId | server/blackboard/pipelineRoutes.ts:80 | a missing, empty or zero `pipelineId` gives no id; a non-zero number is taken as is; other text is parsed, `NaN` when it does not start with a number |
| PipelineRoutes.PostMode | server/blackboard/pipelineRoutes.ts:75-83 | any mode other than `plan`/`act` gets a 400 and changes nothing; otherwise the target (the given pipeline, or else the active one) gets its old or default context with plan flag `mode == plan`; the keys added are the target's and the active pipeline's, any other new context is the default; every other context is unchanged; with no target nothing changes |
| PipelineRoutes.ListLimit | server/blackboard/pipelineRoutes.ts:87 | `min(parseInt(limit) \|\| 20, 50)`: 20 when absent, unparsable or zero, the parsed value capped at 50 otherwise |
| PipelineRoutes.ListLimitSmall | server/blackboard/pipelineRoutes.ts:87 | a limit written as a number from 1 to 50 is used as given |
| PipelineRoutes.WithPending | server/blackboard/pipelineRoutes.ts:89-92 | each listed pipeline keeps its row and count, with `hasPendingChanges` exactly when the count is positive |
| PipelineRoutes.List | server/blackboard/pipelineRoutes.ts:85-97 | the orchestrator is asked for the clamped number of pipelines, then for each one's pending count in order; a failure gives a 500 |
| PipelineRoutes.PendingQueries | server/blackboard/pipelineRoutes.ts:89-90 | one pending-count query per listed pipeline, in order |
| PipelineRoutes.PendingQueriesSnoc | server/blackboard/pipelineRoutes.ts:89-90 | the queries for one more pipeline extend those before by its own query |
| PipelineRoutes.StreamListeners | server/blackboard/pipelineRoutes.ts:194-199 | a stream registers six listeners, one per `pipeline:` event, in order |
| PipelineRoutes.WithoutConn | server/blackboard/pipelineRoutes.ts:229-234 | closing removes exactly the closing connection's listeners |
| PipelineRoutes.WithoutAbsentConn | server/blackboard/pipelineRoutes.ts:229-234 | closing leaves other connections' listeners in place |
| PipelineRoutes.WithoutOwnConn | server/blackboard/pipelineRoutes.ts:229-234 | closing removes all of a connection's own listeners |
| PipelineRoutes.WithoutConnConcat | server/blackboard/pipelineRoutes.ts:229-234 | removal distributes over concatenation |
| PipelineRoutes.StreamHub.constructor | server/blackboard/pipelineRoutes.ts:174-236 | no listener and no status poll before any stream opens |
| PipelineRoutes.StreamHub.Open | server/blackboard/pipelineRoutes.ts:187-214 | opening adds the six listeners and the 5 s poll; the connection forwards each of the six events, and only for its own pipeline |
| PipelineRoutes.StreamHub.Close | server/blackboard/pipelineRoutes.ts:227-235 | closing removes the connection's listeners and poll; it then forwards nothing |
| PipelineRoutes.OpenCloseRestores | server/blackboard/pipelineRoutes.ts:194-199 | open followed by close restores the listener registry exactly |
| Migrator.PushFailed | server/modules/migrator.ts:70 | the non-fatal migration error ends by naming the manual command `npx drizzle-kit push` |
| Migrator.ContainsAfterNewline | server/modules/migrator.ts:47-50 | text inserted after a newline occurs in the result |
| Migrator.InsertedContained | server/modules/migrator.ts:46-50 | after the marker is replaced by marker + `\n` + line, the line occurs in the index |
| Migrator.AppendedContained | server/modules/migrator.ts:52 | after appending `\n` + line + `\n`, the line occurs in the index |
| Migrator.EditLine | server/modules/migrator.ts:41-54 | the index is edited exactly when it lacks the line, and an edited index contains it |
| Migrator.IndexEdit | server/modules/migrator.ts:41-54 | the index is edited exactly when it lacks the module's export line, and an edited index contains it |
| Migrator.EditIdempotent | server/modules/migrator.ts:44 | a second registration of the same module finds the line and does not edit again |
| Migrator.OccursShorter | server/modules/migrator.ts:47-50 | where `p + q` occurs, `p` occurs |
| Migrator.FirstOfLonger | server/modules/migrator.ts:47-50 | when the first `p` is followed by `q`, the first `p + q` is at the same place |
| Migrator.MarkerEndsLine | shared/schemas/loader.ts:42-46 | when the first marker ends its line, the first `marker\n` is that same marker |
| Migrator.InsertionsAgree | shared/schemas/loader.ts:42-46 | when the first marker ends its line, the migrator's insertion (`marker` → `marker\nline`) and the schema loader's (`marker\n` → `marker\nline\n`) give the same index |
| Migrator.NewlineMoves | server/modules/migrator.ts:47-50 | inserting `\nx` before a newline equals inserting `x\n` after it |
| Migrator.EditAgreesWithRegister | server/modules/migrator.ts:44-53 | with the marker ending its line, the migrator's edit equals `registerModuleSchema`'s |
| Migrator.EditAgreesWithoutMarker | server/modules/migrator.ts:51-53 | without the marker both append `\n` + line + `\n` alike |
| Migrator.RegisterAndMigrate | server/modules/migrator.ts:25-80 | a missing schema fails without edit or push; a read failure reports its message; success equals schema registration; the index is written only when the line was absent; the push runs exactly on success and a failed push is non-fatal, reported with the manual command |
| Migrator.ListModuleSchemas | server/modules/migrator.ts:82-89 | no directory gives `[]`; otherwise the names are exactly the schema files' names with the first `.ts` removed |
| Migrator.ListModuleSchemasConcat | server/modules/migrator.ts:86-88 | the listing keeps the directory's order: listing `a + b` gives `a`'s modules, then `b`'s |
| Migrator.ListModuleSchemasOne | server/modules/migrator.ts:86-88 | one file is listed, without its `.ts`, exactly when it is a schema file |
| Migrator.RouteFiles | server/modules/migrator.ts:102-104 | route files are exactly the listed `.ts` files not starting with `_` other than `loader.ts` and `migrator.ts` |
| Migrator.RouteFilesConcat | server/modules/migrator.ts:102-104 | the filter keeps the listing's order: filtering `a + b` gives `a`'s route files, then `b`'s |
| Migrator.RouteFilesOne | server/modules/migrator.ts:102-104 | one file is kept exactly when it is a route file |
| Migrator.Dedupe | server/modules/migrator.ts:110 | `filter((v, i, a) => a.indexOf(v) === i)`: the same names, each once |
| Migrator.IndexOfName | server/modules/migrator.ts:110 | `indexOf`: the first position of a name in the list |
| Migrator.IndexOfNameSnoc | server/modules/migrator.ts:110 | appending a name does not move the first position of a name already present |
| Migrator.DedupeOrder | server/modules/migrator.ts:110 | the kept names come in the order of their first occurrence |
| Migrator.DedupeDistinct | server/modules/migrator.ts:110 | a duplicate-free list is left as it is |
| Migrator.StatusProbe | server/modules/migrator.ts:117 | the registration probe is the export line without its `;` |
| Migrator.StatusNames | server/modules/migrator.ts:106-110 | the status covers exactly the union of schema and route names, each once |
| Migrator.StatusNamesOrder | server/modules/migrator.ts:106-110 | the status names come in the order of first occurrence in schema names followed by route names |
| Migrator.ModuleStatus | server/modules/migrator.ts:91-122 | one entry per name of the union, each with `hasSchema`, `hasRoutes` and `isRegistered` computed from the listings and the index (empty when missing) |
| Migrator.StatusOf | server/modules/migrator.ts:112-119 | the loop fills exactly the given names, each with its flags |
| Migrator.RegisteredAfterEdit | server/modules/migrator.ts:42-53 | after the migrator edits the index, the module reports `isRegistered` |
| Migrator.PlainSchemaReported | server/modules/migrator.ts:107-115 | a schema file `<name>.ts` is reported under `name` with `hasSchema` |
| SchemaIndex.ExportLine | shared/schemas/loader.ts:36 | the export line reads `export * from "./…";` and has no newline when the name has none |
| SchemaIndex.RegisterLine | shared/schemas/loader.ts:32-53 | a present line leaves the content as is; without line and marker the line is appended with two newlines, after the unchanged content |
| SchemaIndex.Register | shared/schemas/loader.ts:32-53 | a present export line leaves the index as is; without it and without the marker the index grows by the appended line, after the unchanged content |
| SchemaIndex.RemoveLine | shared/schemas/loader.ts:55-63 | without `line\n` the content is unchanged; with it one `line\n` is cut out, so the content shrinks by its length |
| SchemaIndex.Unregister | shared/schemas/loader.ts:55-63 | without the export line and its newline the index is unchanged; with them one such line is cut out, so the index shrinks by its length |
| SchemaIndex.StripTsSuffix | shared/schemas/loader.ts:20 | `replace(".ts", "")` gives back a name that has no `.ts` inside |
| SchemaIndex.SchemaFiles | shared/schemas/loader.ts:18-19 | the filter keeps exactly the `.ts` files not starting with `_` other than `index.ts` and `loader.ts` |
| SchemaIndex.SchemaFilesConcat | shared/schemas/loader.ts:18-19 | the filter keeps the listing's order: filtering `a + b` gives `a`'s schema files, then `b`'s |
| SchemaIndex.SchemaFilesOne | shared/schemas/loader.ts:19 | one file is kept exactly when it is a schema file |
| SchemaIndex.StripAll | shared/schemas/loader.ts:20 | one stripped name per file, in order |
| SchemaIndex.RegisteredModules | shared/schemas/loader.ts:15-21 | the registered modules are exactly the stripped names of the schema files |
| SchemaIndex.RegisteredModulesConcat | shared/schemas/loader.ts:18-20 | the module list keeps the listing's order: `a + b` gives `a`'s modules, then `b`'s |
| SchemaIndex.RegisteredModulesOne | shared/schemas/loader.ts:18-20 | one file gives its name without `.ts` exactly when it is a schema file |
| SchemaIndex.RegisteredExcludesInfrastructure | shared/schemas/loader.ts:18-20 | no registered module comes from `index.ts` or `loader.ts` |
| SchemaIndex.ExportLines | shared/schemas/loader.ts:28 | one export line per module, in order |
| SchemaIndex.SchemaExports | shared/schemas/loader.ts:23-30 | no modules give the fixed comment line; the text always ends with a newline |
| SchemaIndex.SchemaExportsMention | shared/schemas/loader.ts:27-29 | every module's export line occurs in the generated text |
| SchemaIndex.ExportsContain | shared/schemas/loader.ts:27-29 | the `k`-th module's export line occurs in the generated text |
| SchemaIndex.SchemaExportsSplit | shared/schemas/loader.ts:27-29 | split at newlines, the generated text gives back exactly the export lines and a final empty line |
| SchemaIndex.SplitFirst | shared/schemas/loader.ts:27-29 | splitting at the first separator gives the first piece followed by the split of the rest |
| SchemaIndex.SplitJoinedLines | shared/schemas/loader.ts:27-29 | lines without newlines, joined by `\n` with a trailing `\n`, split back into the same lines and an empty one |
| SchemaIndex.InsertAfterFirst | shared/schemas/loader.ts:43-46 | replacing the first `q` by `q + ins` inserts `ins` right after the first `q` |
| SchemaIndex.RegisterAfterMarker | shared/schemas/loader.ts:41-46 | with the line absent, the export line is inserted right after the first `marker\n` |
| SchemaIndex.RegisterUnchanged | shared/schemas/loader.ts:37-49 | the content is left unchanged exactly when the line is already present, or the marker is present but never followed by a newline |
| SchemaIndex.ContainsInserted | shared/schemas/loader.ts:43-48 | an inserted line occurs in the result |
| SchemaIndex.RegisterAdds | shared/schemas/loader.ts:32-53 | registering either leaves the content unchanged or makes it contain the export line |
| SchemaIndex.RegisterAddsAfterMarker | shared/schemas/loader.ts:41-46 | with the line absent and the marker ending a line, registering adds the line |
| SchemaIndex.RegisterIdempotent | shared/schemas/loader.ts:37-39 | registering twice is the same as registering once |
| SchemaIndex.NoEarlyLine | shared/schemas/loader.ts:59-60 | `line\n` does not start inside a prefix that ends a line and lacks the line |
| SchemaIndex.FirstLineAfter | shared/schemas/loader.ts:59-60 | the first `line\n` is the one placed right after such a prefix |
| SchemaIndex.RemoveLineAfter | shared/schemas/loader.ts:59-60 | removing the first `line\n` removes exactly that inserted line |
| SchemaIndex.EndsLikeFirst | shared/schemas/loader.ts:43-46 | the text up to the end of the first `q` ends with `q`'s last character |
| SchemaIndex.PrefixLacks | shared/schemas/loader.ts:59-60 | a prefix of text lacking `p` lacks `p` |
| SchemaIndex.InsertLineAfterFirst | shared/schemas/loader.ts:43-46 | inserting `line\n` after the first `q` splits the content at the end of that `q` |
| SchemaIndex.LineBoundary | shared/schemas/loader.ts:43-46 | the content up to the end of the first `marker\n` ends a line and lacks the export line |
| SchemaIndex.InsertThenRemove | shared/schemas/loader.ts:32-63 | inserting a fresh line after the first `q` ending in a newline and then removing the first `line\n` restores the content |
| SchemaIndex.RegisterUnregister | shared/schemas/loader.ts:32-63 | with the marker present and the line absent, `unregisterModuleSchema` after `registerModuleSchema` restores the index exactly |
| SchemaIndex.RegisterUnregisterWithoutMarker | shared/schemas/loader.ts:47-60 | without the marker the round trip leaves one extra `\n` at the end |
| ModuleLoader.ModuleName | server/modules/loader.ts:37 | `replace(/\.(ts\|js)$/, "")`: a trailing `.ts` or `.js` is removed and nothing else; other names are kept |
| ModuleLoader.ModuleNameOfFile | server/modules/loader.ts:37 | `<name>.ts` and `<name>.js` both give `name` |
| ModuleLoader.ModuleFiles | server/modules/loader.ts:27-34 | the module files are exactly the `.ts`/`.js` files not starting with `_` other than `loader.ts`/`.js` and `migrator.ts`/`.js` |
| ModuleLoader.ModuleFilesConcat | server/modules/loader.ts:27-34 | the filter keeps the listing's order: filtering `a + b` gives `a`'s module files, then `b`'s |
| ModuleLoader.ModuleFilesOne | server/modules/loader.ts:27-34 | one file is kept exactly when it is a module file |
| ModuleLoader.GetLoadedModules | server/modules/loader.ts:62-69 | a missing directory gives `[]`; otherwise one name per module file, in order |
| ModuleLoader.MountsOf | server/modules/loader.ts:44 | each loaded module is mounted at `/api/modules/<name>` |
| ModuleLoader.LoadedMembership | server/modules/loader.ts:36-53 | a name is loaded exactly when some module file of that name imports with a truthy `default` or `router`; failing imports are skipped |
| ModuleLoader.LoadedSnoc | server/modules/loader.ts:36-53 | one more file adds at most its own name |
| ModuleLoader.SomeLoadsAsSnoc | server/modules/loader.ts:36-53 | the same step for the reference definition |
| ModuleLoader.LoadedAreListed | server/modules/loader.ts:62-69 | every name `loadModuleRoutes` returns is listed by `getLoadedModules` |
| ModuleLoader.AllLoaded | server/modules/loader.ts:36-53 | when every import exports a router, every module file is loaded, in order |
| ModuleLoader.ListedNamesExcludeReserved | server/modules/loader.ts:27-34 | no listed name is `loader`, `migrator` or starts with `_` |
| ModuleLoader.App.constructor | server/modules/loader.ts:18 | the application starts with no mounted module router |
| ModuleLoader.App.Use | server/modules/loader.ts:44 | `app.use` appends one mount |
| ModuleLoader.LoadModuleRoutes | server/modules/loader.ts:18-60 | the returned names are the loaded modules, and exactly their mounts are added, in order |
| PlusProxy.StripPlus | server/plus/proxy.ts:24 | `replace(/^\/plus/, "")`: one leading `/plus` is removed, other paths are kept |
| PlusProxy.PathRewrite | server/plus/proxy.ts:23-34 | the upstream path is `/empresas` or a suffix of the request path |
| PlusProxy.PathRewriteUnderPlus | server/plus/proxy.ts:23-34 | `/plus` + rest goes to `/empresas` when rest is empty, `/` or `/home`, and to rest otherwise |
| PlusProxy.PathRewriteOutsidePlus | server/plus/proxy.ts:23-34 | a path not under `/plus` goes through the same home rule unchanged otherwise |
| PlusProxy.ForwardedHeaders | server/plus/proxy.ts:45-54 | the forwarded host is a non-empty string `x-forwarded-host`; an empty string one gives `localhost`; without a string one, a non-empty `host` header, else `localhost`; the protocol is a string `x-forwarded-proto` else `https`; the prefix is `/plus` |
| PlusProxy.RewriteLocation | server/plus/proxy.ts:56-67 | a rewritten root-relative `Location` always stays under `/plus` |
| PlusProxy.RewriteWithoutOrigins | server/plus/proxy.ts:58-67 | where neither upstream origin occurs, the location is only moved under `/plus` and the home collapsed |
| PlusProxy.RootRelativeMoved | server/plus/proxy.ts:61-63 | a root-relative path outside `/plus` (not the home page, no upstream origin inside) becomes `/plus` + path |
| PlusProxy.ForeignLocationKept | server/plus/proxy.ts:56-67 | a location that is not root-relative and holds neither upstream origin, such as an absolute URL to another site, is returned unchanged |
| PlusProxy.HomeCollapses | server/plus/proxy.ts:61-67 | a root-relative `/empresas` or `/home` becomes `/plus` |
| PlusProxy.PlusHomeCollapses | server/plus/proxy.ts:65-67 | `/plus/empresas` and `/plus/home` become `/plus` |
| PlusProxy.DevHomeCollapses | server/plus/proxy.ts:58-67 | `http://localhost:8080/empresas` or `/home` becomes `/plus`, when the configured origin is that one or does not occur in the location |
| PlusProxy.MovedStaysUnderPlus | server/plus/proxy.ts:61-67 | a local path moved under `/plus`, with the home rule applied, stays under `/plus` |
| PlusProxy.ReplaceAllAfter | server/plus/proxy.ts:60 | a global replacement does not touch a prefix that cannot start the pattern |
| PlusProxy.UpstreamRedirect | server/plus/proxy.ts:55-70 | a redirect to an upstream path (other than home) is sent back as `/plus` + path |
| PlusProxy.ProxyResponse.constructor | server/plus/proxy.ts:55 | the response holds the upstream headers |
| PlusProxy.OnProxyRes | server/plus/proxy.ts:55-70 | a non-empty string `location` is rewritten in place; anything else is left as is |
| PlusProxy.StatusOf | server/plus/proxy.ts:79-110 | online exactly on a 2xx or 3xx answer, error with `httpStatus` on any other answer, offline with `timeout` exactly for an abort and the message otherwise |
| DevCenter.FirstKey | client/src/pages/DevCenter.tsx:141-143 | `Object.entries(...).find`: the first key in declaration order that matches, and none only when no key matches |
| DevCenter.Lookup | client/src/pages/DevCenter.tsx:128 | a key is found exactly when the table has it, and the route found is one the table pairs with it |
| DevCenter.StripScriptExt | client/src/pages/DevCenter.tsx:127 | stripping the extension gives a prefix of the file name |
| DevCenter.StripScriptExtOf | client/src/pages/DevCenter.tsx:127 | `.tsx`, `.ts`, `.jsx` and `.js` are each removed exactly |
| DevCenter.XosRoute | client/src/pages/DevCenter.tsx:131-138 | the result is `/xos` exactly when no keyword of crm, inbox, ticket, campaign, automation, site occurs in the path; otherwise it is the route of a keyword that occurs with no earlier keyword occurring |
| DevCenter.RouteFor | client/src/pages/DevCenter.tsx:126-157 | an exact key with a non-empty route wins; otherwise a path under `/xos/` gets its `/xos` route; otherwise the folder rules decide |
| DevCenter.RouteFromFilePath | client/src/pages/DevCenter.tsx:126-157 | every route found is `/xos`, a route of the file table or an `/xos` route |
| DevCenter.FirstContainedInIs | client/src/pages/DevCenter.tsx:141-143 | the first key contained in a name is the one at `k` when it matches and no earlier key does |
| DevCenter.ComponentRoute | client/src/pages/DevCenter.tsx:146-155 | a route exactly when the parent folder exists, is not empty or `components`, and contains a table key; it is the route of the first such key |
| DevCenter.FolderRoute | client/src/pages/DevCenter.tsx:140-155 | under `pages/` the route of the first table key contained in the base name; otherwise the component rule under `components/`, and none elsewhere |
| DevCenter.PageFolderFirstKeyWins | client/src/pages/DevCenter.tsx:140-145 | under `pages/` the first table key contained in the base name gives the route |
| DevCenter.ComponentsFolderUnrouted | client/src/pages/DevCenter.tsx:148-150 | a file directly in `components/` gets no component route |
| DevCenter.FolderRouteInTable | client/src/pages/DevCenter.tsx:140-155 | a folder route is always one of the table's routes |
| DevCenter.ExactNameWins | client/src/pages/DevCenter.tsx:126-128 | a base name that is a key with a non-empty route gets that route before any other rule |
| DevCenter.XosPathRouted | client/src/pages/DevCenter.tsx:130-139 | without an exact match, a path containing `/xos/` (any case) always gets `/xos` or one of the six `/xos` routes |
| DevCenter.RouteComesFromTables | client/src/pages/DevCenter.tsx:126-157 | every route found is `/xos`, a table route or an `/xos` route |
| DevCenter.UnmatchedHasNoRoute | client/src/pages/DevCenter.tsx:156 | a path with no exact match and none of `/xos/`, `pages/`, `components/` gets no route |
| DevCenter.DisplayLines | client/src/pages/DevCenter.tsx:1069-1070 | `min(max(a, b, 200), 200)` is always 200 |
| DevCenter.LineAt | client/src/pages/DevCenter.tsx:1075-1076 | line `i` exists exactly when `i` is within the lines |
| DevCenter.Classify | client/src/pages/DevCenter.tsx:1074-1085 | add exactly when only the modified text has the line, remove when only the original has it, same when both are equal (both missing included), modify otherwise; the row keeps the line number and the lines shown |
| DevCenter.InlineDiff | client/src/pages/DevCenter.tsx:1066-1086 | exactly 200 rows, row `i` being the classification of line `i` of each side with line number `i + 1` |
| DevCenter.DiffRowsOfEqualLines | client/src/pages/DevCenter.tsx:1080-1081 | equal or both-missing lines give a `same` row |
| DevCenter.PendingOf | client/src/pages/DevCenter.tsx:1138 | exactly the changes whose status is `pending` |
| DevCenter.PendingOfConcat | client/src/pages/DevCenter.tsx:1138 | the filter keeps the changes' order: filtering `a + b` gives `a`'s pending changes, then `b`'s |
| DevCenter.PendingOfOne | client/src/pages/DevCenter.tsx:1138 | one change is kept exactly when its status is `pending` |
| DevCenter.PathsOf | client/src/pages/DevCenter.tsx:1141 | the file path of each change, in order |
| DevCenter.PathKeysSpec | client/src/pages/DevCenter.tsx:1139-1141 | the map's keys are exactly the paths that occur, each once |
| DevCenter.LastWithIsLast | client/src/pages/DevCenter.tsx:1139-1141 | a path's entry exists exactly when the path occurs, and it is the last change with that path |
| DevCenter.LastWithFound | client/src/pages/DevCenter.tsx:1139-1141 | a path's entry exists exactly when the path occurs |
| DevCenter.LastWithLatest | client/src/pages/DevCenter.tsx:1139-1141 | a path's entry is the last change with that path |
| DevCenter.PathKeysSnoc | client/src/pages/DevCenter.tsx:1140 | `Map.set` keeps a key's first position and appends a new key |
| DevCenter.LastWithSnoc | client/src/pages/DevCenter.tsx:1140 | `Map.set` makes the newest change the entry of its path |
| DevCenter.DedupeStep | client/src/pages/DevCenter.tsx:1140 | one `set` keeps the key order and the last-writer-wins entries |
| DevCenter.DedupePending | client/src/pages/DevCenter.tsx:1138-1141 | one row per distinct pending path, in first-occurrence order, each being the last pending change for that path |
| DevCenter.PendingRowsCover | client/src/pages/DevCenter.tsx:1138-1141 | every pending change's path has a row |
| DevCenter.ApproveBody | client/src/pages/DevCenter.tsx:1146-1148 | the selection is sent only when fewer files are selected than there are pending rows, and then as is |
| DevCenter.SelectingAllApprovesAll | client/src/pages/DevCenter.tsx:1146-1148 | selecting every pending path sends the empty body (approve all) |
| DevCenter.PartialSelectionSent | client/src/pages/DevCenter.tsx:1146-1148 | leaving out one pending path sends exactly the selection |
| DevCenter.WordRun | client/src/pages/DevCenter.tsx:1170 | the longest run of `\w` characters at the start |
| DevCenter.PageNameAtMatches | client/src/pages/DevCenter.tsx:1170 | the name captured at a position is exactly `name` when `pages/<name>.tsx` occurs there with `name` a non-empty `\w` run |
| DevCenter.PageNameLeftmost | client/src/pages/DevCenter.tsx:1170 | `PageName` gives none exactly when the pattern matches nowhere, and otherwise the name of the leftmost match |
| DevCenter.ClientPageRecognised | client/src/pages/DevCenter.tsx:1170 | the path `client/src/pages/<name>.tsx` is recognised as page `name` |
| DevCenter.PageFileUnder | client/src/pages/DevCenter.tsx:1170 | a page file under a directory whose name has no `p` is recognised as that page |
| DevCenter.PageFileRecognised | client/src/pages/DevCenter.tsx:1170 | the path `pages/<name>.tsx` is recognised as page `name` |
| DevCenter.PageFileDetected | client/src/pages/DevCenter.tsx:1169-1175 | a page `pages/<name>.tsx` listed with a non-empty route is detected with that route |
| DevCenter.DetectRoute | client/src/pages/DevCenter.tsx:1169-1179 | a page `pages/<name>.tsx` gets its listed route or `/`; other paths get `/` under `server/routes`, `/apps` under `modules/`, and none otherwise; a route is never empty |
| DevCenter.InitialPreview | client/src/pages/DevCenter.tsx:1180 | from `/` the preview moves to the first detected route of the pending changes; from anywhere else, or with no route, it stays |
| DevCenter.FirstRoute | client/src/pages/DevCenter.tsx:1180 | the detected route of the first change that has one (no earlier change has one), none exactly when no change has one; never empty |
| DevCenter.FirstPresent | client/src/pages/DevCenter.tsx:1180 | `find(r => r !== null)`: the position of the first present route, with none before it, and none exactly when no route is present |
| EngineRoom.HealthUrl | server/engine-room/routes.ts:91 | the probe URL starts with `http://localhost:` and ends with the engine's health path |
| EngineRoom.HealthUrlNamesPort | server/engine-room/routes.ts:91 | the text between the host and the health path reads back as the engine's port |
| EngineRoom.TableProbes | server/engine-room/routes.ts:91-105 | every probe goes to its engine's health URL; in the table only Manus sends `x-internal-check: engine-room` and only Plus asks for redirects not to be followed |
| EngineRoom.CheckEngineHealth | server/engine-room/routes.ts:90-133 | online exactly when the answer is 2xx, or 3xx for `plus`; any other answer is an error carrying `httpStatus`; offline exactly when the request threw, with `timeout` exactly for an abort |
| EngineRoom.RedirectOnlineOnlyForPlus | server/engine-room/routes.ts:109-124 | a 3xx answer is online (with its location) for `plus` and an HTTP error for every other engine |
| EngineRoom.CountOnline | server/engine-room/routes.ts:152 | the online count is at most the total and equals it exactly when every engine is online |
| EngineRoom.CountOnlineConcat | server/engine-room/routes.ts:152 | the online count adds up over concatenation, and one engine counts 1 exactly when online |
| EngineRoom.CountRunning | server/engine-room/routes.ts:164 | the running-agent count is at most the number of agents, and 0 exactly when none is running |
| EngineRoom.CountRunningConcat | server/engine-room/routes.ts:164 | the running count adds up over concatenation, and one agent counts 1 exactly when running |
| EngineRoom.RoundedPercent | server/engine-room/routes.ts:162 | `Math.round(online / total * 100)` in integers: at most 100 and the nearest integer, halves rounded up |
| EngineRoom.Summarize | server/engine-room/routes.ts:152-165 | online + offline = total; the percentage is the rounded share of online engines, at most 100, and 0 with no engines; the agent totals are counted |
| EngineRoom.PercentOfAll | server/engine-room/routes.ts:162 | all engines online gives 100 |
| EngineRoom.PercentBelowAll | server/engine-room/routes.ts:162 | with fewer than 200 engines, 100 is reported only when all are online |
| EngineRoom.FullHealth | server/engine-room/routes.ts:152-165 | for the eight engines, `health_pct` is 100 exactly when every engine is online |
| EngineRoom.StatusRoute | server/engine-room/routes.ts:136-172 | unauthenticated gets 401; otherwise one health result per engine in table order, each from what `fetch` answered to that engine's probe request, the agents (or none when they cannot be loaded) and their summary |
| EngineRoom.FindEngine | server/engine-room/routes.ts:180 | the engine of that name, none exactly when the table has no such name |
| EngineRoom.EngineHealthRoute | server/engine-room/routes.ts:174-190 | 401 unauthenticated, 404 exactly for an unknown name, otherwise the health of that engine from the answer to its probe request |
| EngineRoom.ServiceOf | server/engine-room/routes.ts:261-267 | a service name exactly for the five mapped engines |
| EngineRoom.Control | server/engine-room/routes.ts:269-351 | 401 unauthenticated; `plus` is refused with 400 before the lookup; the supervisor is called exactly for a mapped engine, and 200 is answered exactly when it succeeds |
| EngineRoom.ControlOnlyManaged | server/engine-room/routes.ts:278-284 | for an unmapped engine no supervisor call is made: 400 for `plus`, 404 otherwise |
| EngineRoom.InfoRoute | server/engine-room/routes.ts:353-378 | 401 unauthenticated; `plus` is reported as managed externally on port 8080; mapped engines return the supervisor's info when it has one |
| EngineRoom.LogLines | server/engine-room/routes.ts:393 | `parseInt(lines) \|\| 50`: 50 when absent, unparsable or zero, the parsed value (negative included) otherwise |
| EngineRoom.LogLinesOfNumber | server/engine-room/routes.ts:393 | a positive decimal count is used as given, and its negation gives the negative count |
| EngineRoom.LogLinesFallback | server/engine-room/routes.ts:393 | `lines=0` and `lines=all` both give 50 |
| EngineRoom.LogsRoute | server/engine-room/routes.ts:380-400 | 401 unauthenticated, 404 exactly for an unmapped engine, otherwise the supervisor's logs for the line count, with `lines` their number |
| EngineRoom.ToolCount | server/engine-room/routes.ts:411-417 | `names.length \|\| size \|\| 56`: the tool names' count when non-zero, else the registry size when non-zero, else 56, and 56 when the module is unavailable |
| EngineRoom.ManusHealthRoute | server/engine-room/routes.ts:402-455 | 401 exactly when neither the internal `engine-room` header nor a session is present; otherwise online exactly when the key is configured, with the facade's call and error counters and the running-agent count |
| SoeMotor.InitialMotor | client/src/contexts/SoeMotorContext.tsx:18-21 | the initial motor is a non-empty `arcadia_soe_motor`, else a non-empty `arcadia_erp_profile`, else (both missing or empty) `plus`, unvalidated |
| SoeMotor.Flags | client/src/contexts/SoeMotorContext.tsx:29-30 | `usePlus` exactly for `plus`, `useERPNext` exactly for `erpnext`, never both |
| SoeMotor.GetApiUrl | client/src/contexts/SoeMotorContext.tsx:32-40 | `/plus/api` + plus path for `plus`; the ERPNext path for `erpnext` when it is non-empty; the local path otherwise |
| SoeMotor.SoeMotorProvider.constructor | client/src/contexts/SoeMotorContext.tsx:17-21 | the provider starts from the stored motor |
| SoeMotor.SoeMotorProvider.Value | client/src/contexts/SoeMotorContext.tsx:43 | the context exposes the motor as both `motor` and `profile`, with the two flags |
| SoeMotor.SoeMotorProvider.SetMotor | client/src/contexts/SoeMotorContext.tsx:23-27 | the motor changes and the same value is written under both storage keys |
| SoeMotor.SetMotorPersists | client/src/contexts/SoeMotorContext.tsx:18-27 | after `setMotor`, the next provider starts with that motor |
| SoeMotor.UseSoeMotor | client/src/contexts/SoeMotorContext.tsx:49-55 | the hook returns the context inside a provider and fails with its message outside one |
| TenantFeatures.Merge | client/src/hooks/use-tenant-features.ts:51 | object spread: every server key overrides, every other default is kept, and no other key appears |
| TenantFeatures.Features | client/src/hooks/use-tenant-features.ts:51 | the features hold exactly the default and server keys, server values overriding and defaults kept otherwise |
| TenantFeatures.Plan | client/src/hooks/use-tenant-features.ts:56 | `plan` is the response's own, unchanged, and absent without data |
| TenantFeatures.NoDataMeansDefaults | client/src/hooks/use-tenant-features.ts:30-37 | without data or without `features`, the features are exactly the defaults |
| TenantFeatures.ServerValueDecides | client/src/hooks/use-tenant-features.ts:51-57 | a key the server sends is enabled exactly when the server's value is truthy |
| TenantFeatures.TruthinessOfNonBooleans | client/src/hooks/use-tenant-features.ts:57 | `!!` on every value: an array is truthy even when empty, a number exactly when non-zero, a string exactly when non-empty; so `ideMode: 'none'` and a non-zero default count are enabled, a zero count is not |
| Text.IndexOf | server/modules/migrator.ts:44-50 | `indexOf`: the first occurrence of the pattern, or none exactly when it does not occur |
| Text.Split | shared/schemas/loader.ts:27-29 | `split`: at least one piece, none containing the separator |
| Text.JoinSplit | client/src/pages/DevCenter.tsx:1066-1067 | joining the pieces of a split with the separator gives back the text |
| Text.JoinContains | server/blackboard/BaseBlackboardAgent.ts:125 | every joined piece occurs in the joined text |
| Text.Lower | client/src/pages/DevCenter.tsx:129 | `toLowerCase` maps each character, keeping the length |
| Text.TrimStart | server/blackboard/pipelineRoutes.ts:87 | `parseInt` skips leading whitespace: the result is the suffix of the input after a run of white space, and does not itself start with white space |
| Text.ParseInt | server/blackboard/pipelineRoutes.ts:87 | `parseInt` gives NaN exactly when no digit follows the leading whitespace and sign |
| Text.ParseNatToString | server/blackboard/pipelineRoutes.ts:59 | parsing the decimal text of `n` gives `n` |
| Text.ParseDigits | server/blackboard/pipelineRoutes.ts:87 | a run of digits parses to its decimal value |
| Text.ParseIntTrailing | server/blackboard/pipelineRoutes.ts:87 | `parseInt` stops at the first non-digit: digits then anything else parse to the digits' value |
| Text.ParseIntPadded | server/blackboard/pipelineRoutes.ts:87 | leading white space does not change `parseInt` |
| Text.ParseIntSigned | server/engine-room/routes.ts:393 | a leading `-` negates the parsed number and a leading `+` leaves it |
| Text.ParseNegatedNat | server/engine-room/routes.ts:393 | the decimal text of `n` parses to `n`, and with a leading `-` to `-n` |
| Text.ReplaceAllAbsent | server/plus/proxy.ts:60 | a global replacement of an absent pattern changes nothing |

## Left out

- Foreign calls (OpenAI, governance, blackboard storage, the database, `fetch`, the file system, `exec`, dynamic `import`): their replies are parameters, or the calls are recorded; what those services do is not modelled.
- Timers and concurrency: one `poll` round and the delay it re-arms are modelled, but not the scheduler or interleaved requests. The pipeline stream's status events and its 5-second polling payload are also not modelled, only its listener registry.
- ToolManager's `syncWithGovernance`, `listToolsByCategory`, `listCategories`, `getToolsForPrompt` and `getToolCount` are not modelled, and neither is console logging. They only format or forward registry data to other services. The `activePipelineId` getter is a plain field read.
- ToolGateway.Execute: an exception thrown by the RBAC lookup is modelled (it allows the call), but one thrown by `evaluatePolicy`, `recordAudit` or a tool's `validateParams` is not.
- Architect.Process: only a failed generation makes it throw. In the source, a `logAction`, `recordAudit`, `addArtifact`, `getMainTask`, `createSubtask` or `completeTask` that throws also rejects `process`, and `poll` then calls `failTask`; the blackboard services are modelled as always succeeding.
- AgentRuntime.Agent.Poll: a `claimTask` that throws ends the round, as the outer `catch` does, but a `failTask` or `recordAudit` that throws inside the handler is not modelled.
- Lengths and slices (the 5000-character transcript output, the 200 and 500 audit clips) count characters, not UTF-16 code units.
- Text.Lower: only ASCII letters are lower-cased, because Unicode case mapping tables are out of scope. Likewise `\s` matches only the ASCII white-space characters and the no-break space, and `\w` matches only ASCII word characters.
- Text.ParseInt: models `parseInt` in base 10 only; hexadecimal prefixes are not modelled. It gives `None` where JavaScript gives `NaN`; the pipeline routes turn that `None` into the `NaN` pipeline id (`PipelineRoutes.ParseId`), while the list limit and log line count treat it as falsy, as `||` does. JSON numbers in request bodies are integers.
- AgentRuntime.Pieces: it splits at every single whitespace character, where `split(/\s+/)` splits at runs, so `"a  b"` gives `a`, an empty piece and `b` instead of `a` and `b`. The keywords are the same either way, because LongWords drops the empty pieces. Its own contract states only that there is at least one piece and that none holds whitespace; the exact split is stated by PiecesGlue and PiecesOfGlue.
- Architect.SearchQuery, Architect.CanHandle, TenantFeatures.IsEnabled: these only compute a value; what they promise is stated by the lemmas SearchQueryWords, ArchitectClaimsOnlyItsTasks, ServerValueDecides and TruthinessOfNonBooleans.
- EngineRoom.RoundedPercent: `Math.round` over floating point is stated exactly, in integers (half rounds up).
- Architect: the system prompt text is abbreviated to a constant; only its role in the call is modelled.
- Text.ReplaceAll, Text.ReplaceFirst: the replacement is taken literally, so `$` patterns in a replacement string (`$&`, `$$`, ...) are not modelled. This matters for `SchemaIndex.RegisterLine` and `Migrator.EditLine`, whose replacement text holds the module name: a name containing `$` would be expanded by JavaScript and kept as is here. The route lookup tables are maps, so a key such as `constructor` finds nothing, where a JavaScript object would find its inherited member.
- PipelineRoutes.Create: the request's metadata and budget are passed through unexamined. A failing `getPendingStagingCount` is not modelled.
- PipelineRoutes: `GET /:id`, `/:id/staging`, `/:id/runbook`, `/:id/approve`, `/:id/reject`, `/:id/rollback` and `/modules/status` (pipelineRoutes.ts:99-172, 238) only forward to the orchestrator or the migrator and are not modelled.
- PlusProxy: the proxy's 502 error handler and the launcher that starts the Laravel server are not modelled. A non-numeric `PLUS_PORT` is not modelled either.
- EngineRoom: the `/api/engine-room/agents` routes (routes.ts:205-259) and the `/engines` listing (routes.ts:192-203) are not modelled; they copy registry data. Uptime and timestamps are clock readings and are left out.
- TenantFeatures.Merge: a `features` value that is not an object is treated as `{}`.
- DevCenter: the diff viewer's markup and its truncation note are not modelled, only the rows it computes.
- ModuleLoader, SchemaIndex: the scanned directory and the index are parameters. The source resolves them against `process.cwd()` itself (server/modules/loader.ts:16,19; shared/schemas/loader.ts:13,16,33), while the migrator joins `shared/schemas` and `server/modules` to the working directory (server/modules/migrator.ts:34,40,83,92-94). Run from the repository root, the loader would scan the root and the schema utility would edit `<root>/index.ts`; this is most likely a bug in the source. The model does not choose a directory, so its statements hold for whichever directory is listed.
- SchemaIndex.RegisterUnregister: without the marker line, registering and then removing a module leaves one extra newline at the end of the index. The lemma RegisterUnregisterWithoutMarker states this.
