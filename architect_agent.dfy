/**
 * The architect agent (server/blackboard/agents/ArchitectAgent.ts): which tasks
 * it takes, the code-search query it derives from a title, how it extracts a
 * JSON spec from the model's answer, and the sequence of blackboard calls its
 * `process` makes.
 */
module Architect {
  import opened Wrappers
  import opened Text
  import opened Blackboard
  import opened AgentRuntime
  import TG = ToolGateway
  import Seqs

  const AgentName: string := "architect"
  /** Title words used for the code search. */
  const QueryWords: nat := 3
  /** The architect's code search asks for at most this many matches. */
  const SearchMaxResults: nat := 10

  /* The notes of the four `log` calls and the codegen subtask's texts. */
  const ThinkingNote: string := "Analisando projeto e requisitos..."
  const AnalyzingNote: string := "Consultando estrutura do projeto..."
  const GeneratingNote: string := "Criando especificação técnica..."
  const CompletedNote: string := "Especificação técnica criada com contexto do projeto"
  const SubtaskTitle: string := "Gerar código"
  const SubtaskDescription: string := "Gerar código baseado na especificação do arquiteto"

  const ArchitectConfig: AgentConfig := AgentConfig(
    AgentName, "Agente Arquiteto", "Analisa requisitos e cria especificações técnicas",
    "Você é o Agente Arquiteto do Arcadia Suite.",
    ["Análise de requisitos", "Leitura de código existente", "Design de schema de banco",
     "Definição de APIs REST", "Especificação de componentes UI"],
    Some(2000))

  /** `canHandle`: design-phase tasks and tasks assigned to the architect. */
  predicate CanHandle(task: Task) {
    task.phase == Some("design") || task.assignedAgent == Some(AgentName)
  }

  /** A poll of the architect claims and processes only design tasks and tasks assigned to it. */
  lemma ArchitectClaimsOnlyItsTasks(tasks: seq<Task>, claims: seq<ClaimReply>, outcomes: seq<ProcessResult>)
    requires |claims| == |tasks| && |outcomes| == |tasks|
    ensures var c := LoopCalls(AgentName, tasks, CanHandle, claims, outcomes);
      forall k :: 0 <= k < |c| && (c[k].ClaimTask? || c[k].Processing?) ==>
        exists j :: 0 <= j < |tasks| && tasks[j].id == c[k].taskId
                    && (tasks[j].phase == Some("design") || tasks[j].assignedAgent == Some(AgentName))
  {
    LoopJustified(AgentName, tasks, CanHandle, claims, outcomes);
  }

  /** `parts.slice(0, n)`. */
  function Take(parts: seq<string>, n: nat): (r: seq<string>)
    ensures |r| == if |parts| < n then |parts| else n
    ensures r <= parts
  {
    if |parts| <= n then parts else parts[..n]
  }

  /** Joining a prefix of the parts gives a prefix of the joined whole. */
  lemma {:induction false} JoinPrefix(parts: seq<string>, n: nat, sep: string)
    requires n <= |parts|
    ensures Join(parts[..n], sep) <= Join(parts, sep)
    decreases n
  {
    if n == 0 {
    } else if |parts| == 1 {
      assert parts[..n] == parts;
    } else if n == 1 {
      assert Join(parts[..1], sep) == parts[0];
    } else {
      assert parts[..n][1..] == parts[1..][..n - 1];
      JoinPrefix(parts[1..], n - 1, sep);
    }
  }

  /** The code-search query: the first three space-separated title words, joined with `|`. */
  function SearchQuery(title: string): string {
    Join(Take(Split(title, ' '), QueryWords), "|")
  }

  /**
   * The query is made of one to three space-free words, which, read with single spaces,
   * are the beginning of the title.
   */
  lemma SearchQueryWords(title: string)
    ensures var words := Take(Split(title, ' '), QueryWords);
      && 1 <= |words| <= QueryWords
      && SearchQuery(title) == Join(words, "|")
      && (forall w :: w in words ==> ' ' !in w)
      && Join(words, " ") <= title
  {
    var parts := Split(title, ' ');
    JoinSplit(title, ' ');
    JoinPrefix(parts, |Take(parts, QueryWords)|, " ");
    assert Take(parts, QueryWords) == parts[..|Take(parts, QueryWords)|];
  }

  /** `s.lastIndexOf(c)`, as an option. */
  function LastIndex(s: string, c: char): (r: Option<nat>)
    ensures r.Some? ==> r.value < |s| && s[r.value] == c && c !in s[r.value + 1..]
    ensures r.None? ==> c !in s
    decreases |s|
  {
    if |s| == 0 then None
    else if s[|s| - 1] == c then Some(|s| - 1)
    else
      var r := LastIndex(s[..|s| - 1], c);
      assert s == s[..|s| - 1] + [s[|s| - 1]];
      if r.Some? then assert s[r.value + 1..] == s[..|s| - 1][r.value + 1..] + [s[|s| - 1]]; r else r
  }

  /**
   * The match of `/\{[\s\S]*\}/`: from the first `{` to the last `}` after it, as the
   * pair of their indices.
   */
  function BraceSpan(s: string): (r: Option<(nat, nat)>)
    ensures r.Some? ==> var (i, j) := r.value;
      && i < j < |s| && s[i] == '{' && s[j] == '}' && '{' !in s[..i] && '}' !in s[j + 1..]
    ensures r.None? <==> '{' !in s || '}' !in s[FirstIndex(s, '{') + 1..]
  {
    if '{' !in s then None
    else
      var i := FirstIndex(s, '{');
      var after := s[i + 1..];
      match LastIndex(after, '}')
      case None => None
      case Some(k) =>
        assert s[i + 1 + k + 1..] == after[k + 1..];
        Some((i, i + 1 + k))
  }

  /**
   * The spec of an answer: the braced span when `JSON.parse` accepts it, the raw answer when
   * there is no span, the raw answer marked unparseable when the span does not parse.
   */
  function ExtractSpec(content: string, parses: string -> bool): (spec: Spec)
    ensures BraceSpan(content).None? ==> spec == Raw(content)
    ensures BraceSpan(content).Some? ==>
      var (i, j) := BraceSpan(content).value;
      var span := content[i..j + 1];
      && StartsWith(span, "{") && EndsWith(span, "}")
      && (parses(span) ==> spec == Parsed(span))
      && (!parses(span) ==> spec == RawParseError(content))
  {
    match BraceSpan(content)
    case None => Raw(content)
    case Some((i, j)) =>
      var span := content[i..j + 1];
      if parses(span) then Parsed(span) else RawParseError(content)
  }

  /** The code found by the architect's search, as it is appended to the spec prompt. */
  function RelevantCode(search: TG.ToolResult): (r: string)
    ensures r == "" <==> !(search.success && |search.matches| > 0)
  {
    if search.success && |search.matches| > 0
    then "\n\nCÓDIGO RELEVANTE ENCONTRADO:\n" + Join(MatchLines(search.matches), "\n")
    else ""
  }

  const SpecInstructions: string :=
    "\n\nCom base no contexto acima, crie uma especificação técnica completa em JSON seguindo o formato especificado.\n"
    + "Considere os módulos e schemas existentes para evitar duplicação.\n"
    + "Indique quais arquivos existentes precisam ser modificados."

  /** The spec prompt: the task, the project context and the code found, then the instructions. */
  function SpecPrompt(task: Task, projectContext: string, relevantCode: string): (p: string)
    ensures Contains(p, projectContext) && Contains(p, relevantCode)
    ensures EndsWith(p, SpecInstructions)
  {
    var head := "TAREFA: " + task.title + "\n\nDESCRIÇÃO: " + task.description + "\n\nCONTEXTO DO PROJETO:\n";
    PartsOfPrompt(head, projectContext, "\n", relevantCode, SpecInstructions);
    head + projectContext + "\n" + relevantCode + SpecInstructions
  }

  /** A text built as `a + b + c + d + e` contains `b` and `d` and ends with `e`. */
  lemma PartsOfPrompt(a: string, b: string, c: string, d: string, e: string)
    ensures var s := a + b + c + d + e;
      Contains(s, b) && Contains(s, d) && EndsWith(s, e)
  {
    ContainsMiddle(a, b, c);
    ContainsWithin([], a + b + c, d + e, b);
    assert [] + (a + b + c) + (d + e) == a + b + c + d + e;
    ContainsMiddle(a + b + c, d, e);
    EndsWithConcat(a + b + c + d, e);
  }

  /** The spec artifact: `specification.json`, by the architect, with metadata `{version: 1, hasContext: true}`. */
  function SpecArtifact(taskId: int, spec: Spec): Call {
    AddArtifact(taskId, "spec", "specification.json", SpecContent(spec), AgentName, Some(ArtifactMetadata(1, true)))
  }

  /** The project-context artifact: `project-context.md`, by the architect. */
  function ContextArtifact(taskId: int, projectContext: string): Call {
    AddArtifact(taskId, "doc", "project-context.md", TextContent(projectContext), AgentName, None)
  }

  /** The codegen subtask under the main task, for the generator, depending on this task. */
  function CodegenSubtask(mainTaskId: int, taskId: int): Call {
    CreateSubtask(mainTaskId, SubtaskTitle, SubtaskDescription, "generator", [taskId], "codegen")
  }

  /** The calls after the two artifacts: a log, the main-task lookup, the subtask if any, completion. */
  function ClosingCalls(task: Task, spec: Spec, mainTask: Option<int>): seq<Call> {
    LogCalls(AgentName, task.id, "completed", CompletedNote, None)
    + [GetMainTask(task.id)]
    + (if mainTask.Some? then [CodegenSubtask(mainTask.value, task.id)] else [])
    + [CompleteTask(task.id, AgentName, spec, true)]
  }

  /** The calls after a successful generation. */
  function PublishCalls(task: Task, projectContext: string, spec: Spec, mainTask: Option<int>): seq<Call> {
    [SpecArtifact(task.id, spec), ContextArtifact(task.id, projectContext)] + ClosingCalls(task, spec, mainTask)
  }

  /** The three logs `process` writes before generating. */
  function PreludeCalls(task: Task): seq<Call> {
    LogCalls(AgentName, task.id, "thinking", ThinkingNote, None)
    + LogCalls(AgentName, task.id, "analyzing", AnalyzingNote, None)
    + LogCalls(AgentName, task.id, "generating", GeneratingNote, None)
  }

  /** What the generation gave: the spec extracted from the answer, or the error it failed with. */
  function SpecOf(completion: Completion, parses: string -> bool): Result<Spec, string> {
    if completion.Completed? then Ok(ExtractSpec(completion.content.GetOr(""), parses)) else Err(completion.message)
  }

  /** Every blackboard and governance call of `process`; a failed generation stops after the third log. */
  function ProcessCalls(task: Task, projectContext: string, generated: Result<Spec, string>, mainTask: Option<int>): seq<Call>
  {
    PreludeCalls(task)
    + (if generated.Ok? then PublishCalls(task, projectContext, generated.value, mainTask) else [])
  }

  /** The artifact calls among `calls`, in order. */
  function Artifacts(calls: seq<Call>): seq<Call> {
    if |calls| == 0 then []
    else (if calls[0].AddArtifact? then [calls[0]] else []) + Artifacts(calls[1..])
  }

  /** The artifact calls are the calls that add an artifact, and no others. */
  lemma {:induction false} ArtifactsMembers(calls: seq<Call>)
    ensures |Artifacts(calls)| <= |calls|
    ensures forall c :: c in Artifacts(calls) <==> c in calls && c.AddArtifact?
  {
    if |calls| > 0 {
      ArtifactsMembers(calls[1..]);
      assert calls == [calls[0]] + calls[1..];
    }
  }

  lemma {:induction false} ArtifactsConcat(a: seq<Call>, b: seq<Call>)
    ensures Artifacts(a + b) == Artifacts(a) + Artifacts(b)
  {
    if |a| == 0 {
      assert a + b == b;
    } else {
      assert (a + b)[1..] == a[1..] + b;
      ArtifactsConcat(a[1..], b);
    }
  }

  /**
   * A successful `process` adds exactly two artifacts, the spec then the project
   * context, both by the architect; a failed generation adds none.
   */
  lemma ProcessArtifacts(task: Task, projectContext: string, generated: Result<Spec, string>, mainTask: Option<int>)
    ensures var arts := Artifacts(ProcessCalls(task, projectContext, generated, mainTask));
      && (generated.Err? ==> arts == [])
      && (generated.Ok? ==> arts == [SpecArtifact(task.id, generated.value), ContextArtifact(task.id, projectContext)])
  {
    var logs := PreludeCalls(task);
    NoArtifacts(logs);
    if generated.Ok? {
      var spec := generated.value;
      var two := [SpecArtifact(task.id, spec), ContextArtifact(task.id, projectContext)];
      var rest := ClosingCalls(task, spec, mainTask);
      NoArtifacts(rest);
      assert Artifacts(two) == two by {
        assert Artifacts(two[1..][1..]) == [];
        assert Artifacts(two[1..]) == [two[1]];
      }
      ArtifactsConcat(two, rest);
      ArtifactsConcat(logs, two + rest);
    } else {
      assert ProcessCalls(task, projectContext, generated, mainTask) == logs;
    }
  }

  lemma {:induction false} NoArtifacts(calls: seq<Call>)
    requires forall c :: c in calls ==> !c.AddArtifact?
    ensures Artifacts(calls) == []
  {
    if |calls| > 0 {
      assert calls[0] in calls;
      NoArtifacts(calls[1..]);
    }
  }

  /**
   * The codegen subtask (for the generator, depending on this task) is created exactly when
   * the generation succeeded and a main task was found; `completeTask` is then the last call
   * and the only one; a failed generation completes nothing.
   */
  lemma ProcessSubtaskAndCompletion(task: Task, projectContext: string, generated: Result<Spec, string>, mainTask: Option<int>)
    ensures var calls := ProcessCalls(task, projectContext, generated, mainTask);
      && ((exists k :: 0 <= k < |calls| && calls[k].CreateSubtask?) <==> generated.Ok? && mainTask.Some?)
      && (forall k :: 0 <= k < |calls| && calls[k].CreateSubtask? ==>
            calls[k] == CodegenSubtask(mainTask.value, task.id))
      && (generated.Ok? ==> calls[|calls| - 1] == CompleteTask(task.id, AgentName, generated.value, true))
      && (forall k :: 0 <= k < |calls| && calls[k].CompleteTask? ==> generated.Ok? && k == |calls| - 1)
  {
    var calls := ProcessCalls(task, projectContext, generated, mainTask);
    var pre := PreludeCalls(task);
    assert NeitherSubtaskNorCompletion(pre);
    if generated.Ok? {
      var spec := generated.value;
      var opening := pre + [SpecArtifact(task.id, spec), ContextArtifact(task.id, projectContext)]
                     + LogCalls(AgentName, task.id, "completed", CompletedNote, None) + [GetMainTask(task.id)];
      assert NeitherSubtaskNorCompletion(opening);
      var sub := if mainTask.Some? then [CodegenSubtask(mainTask.value, task.id)] else [];
      assert calls == opening + sub + [CompleteTask(task.id, AgentName, spec, true)];
      ClosingShape(opening, sub, CompleteTask(task.id, AgentName, spec, true));
    } else {
      assert calls == pre;
    }
  }

  predicate NeitherSubtaskNorCompletion(calls: seq<Call>) {
    forall c :: c in calls ==> !c.CreateSubtask? && !c.CompleteTask?
  }

  /** Calls that end with at most one subtask then a completion have those two in those places only. */
  lemma ClosingShape(opening: seq<Call>, sub: seq<Call>, last: Call)
    requires NeitherSubtaskNorCompletion(opening)
    requires |sub| <= 1 && (forall c :: c in sub ==> c.CreateSubtask?) && last.CompleteTask?
    ensures var calls := opening + sub + [last];
      && ((exists k :: 0 <= k < |calls| && calls[k].CreateSubtask?) <==> |sub| == 1)
      && (forall k :: 0 <= k < |calls| && calls[k].CreateSubtask? ==> calls[k] == sub[0])
      && (forall k :: 0 <= k < |calls| && calls[k].CompleteTask? ==> k == |calls| - 1)
  {
    var calls := opening + sub + [last];
    forall k | 0 <= k < |calls|
      ensures calls[k].CreateSubtask? || calls[k].CompleteTask? ==> k >= |opening|
    {
      if k < |opening| {
        assert calls[k] == opening[k] && opening[k] in opening;
      }
    }
    if |sub| == 1 {
      assert calls[|opening|] == sub[0] && sub[0] in sub;
    }
  }

  /** The part of `process` before the generation: the three logs (the search and the context summary touch no service). */
  method Prelude(agent: Agent, svc: Services, task: Task)
    requires agent.Name() == AgentName
    modifies svc
    ensures svc.calls == old(svc.calls) + PreludeCalls(task)
  {
    agent.Log(svc, task.id, "thinking", ThinkingNote, None);
    agent.Log(svc, task.id, "analyzing", AnalyzingNote, None);
    agent.Log(svc, task.id, "generating", GeneratingNote, None);
  }

  /** The part of `process` after a successful generation. */
  method Publish(agent: Agent, svc: Services, task: Task, projectContext: string, spec: Spec, mainTask: Option<int>)
    requires agent.Name() == AgentName
    modifies svc
    ensures svc.calls == old(svc.calls) + PublishCalls(task, projectContext, spec, mainTask)
  {
    svc.Record(SpecArtifact(task.id, spec));
    svc.Record(ContextArtifact(task.id, projectContext));
    agent.Log(svc, task.id, "completed", CompletedNote, None);
    svc.Record(GetMainTask(task.id));
    if mainTask.Some? {
      svc.Record(CodegenSubtask(mainTask.value, task.id));
    }
    svc.Record(CompleteTask(task.id, AgentName, spec, true));
  }

  /** The generation step of `process`: the spec prompt, enriched, under the agent's own system prompt. */
  method AskForSpec(agent: Agent, manus: ManusIntelligence, specPrompt: string, enrichment: Option<TG.ToolResult>,
                    completion: Completion, now: int)
    returns (generated: Result<string, string>, req: Request)
    requires manus.Valid()
    modifies manus`callCount, manus`tokenCount, manus`errorCount, manus`lastCallAt
    ensures manus.Valid() && manus.callCount == old(manus.callCount) + 1
    ensures req.user == Enriched(specPrompt, true, enrichment)
    ensures req.system == agent.config.systemPrompt && req.maxTokens == DefaultMaxTokens
    ensures completion.Completed? ==> generated == Ok(completion.content.GetOr(""))
    ensures completion.RequestFailed? ==> generated == Err(completion.message)
  {
    var lookup;
    generated, req, lookup := agent.GenerateWithAI(manus, specPrompt, None, enrichment, completion, now);
  }

  /**
   * `process`: three logs, the code search, the generation, then (if the generation
   * returned) the spec and context artifacts, a fourth log, the main-task lookup, the
   * codegen subtask when there is a main task, and `completeTask`. A failed generation
   * ends `process` with that error, for `poll` to report.
   */
  method Process(agent: Agent, svc: Services, manus: ManusIntelligence, task: Task,
                 projectContext: string, search: TG.ToolResult, enrichment: Option<TG.ToolResult>,
                 completion: Completion, parses: string -> bool, mainTask: Option<int>, now: int)
    returns (outcome: ProcessResult, query: string, req: Request)
    requires agent.Name() == AgentName && manus.Valid()
    modifies svc, manus`callCount, manus`tokenCount, manus`errorCount, manus`lastCallAt
    ensures manus.Valid() && manus.callCount == old(manus.callCount) + 1
    ensures query == SearchQuery(task.title)
    ensures req.user == Enriched(SpecPrompt(task, projectContext, RelevantCode(search)), true, enrichment)
    ensures req.system == agent.config.systemPrompt && req.maxTokens == DefaultMaxTokens
    ensures completion.RequestFailed? ==> outcome == Threw(completion.message)
    ensures completion.Completed? ==> outcome == Done
    ensures svc.calls == old(svc.calls) + ProcessCalls(task, projectContext, SpecOf(completion, parses), mainTask)
  {
    query := SearchQuery(task.title);
    var specPrompt := SpecPrompt(task, projectContext, RelevantCode(search));
    ghost var before := svc.calls;
    Prelude(agent, svc, task);
    var generated;
    generated, req := AskForSpec(agent, manus, specPrompt, enrichment, completion, now);
    if generated.Err? {
      assert completion.RequestFailed? && SpecOf(completion, parses).Err?;
      return Threw(generated.error), query, req;
    }
    var spec := ExtractSpec(generated.value, parses);
    assert SpecOf(completion, parses) == Ok(spec);
    Publish(agent, svc, task, projectContext, spec, mainTask);
    Seqs.AppendAssoc(before, PreludeCalls(task), PublishCalls(task, projectContext, spec, mainTask));
    outcome := Done;
  }
}
