/**
 * The pipeline HTTP routes (server/blackboard/pipelineRoutes.ts) as far as they
 * shape requests: validation of a new pipeline, the prompt rewrite for plan and
 * act mode, the plan-mode switches on the tool gateway, the list limit, and the
 * per-pipeline event stream.
 *
 * The pipeline orchestrator is not part of this model: the calls made to it are
 * recorded and its replies are parameters.
 */
module PipelineRoutes {
  import opened Wrappers
  import opened Text
  import TG = ToolGateway

  const PromptMinLength: nat := 5
  const PromptTooShortMessage: string := "O prompt deve ter pelo menos 5 caracteres"
  const ModeMessage: string := "Mode must be 'plan' or 'act'"
  const DefaultLimit: int := 20
  const MaxLimit: int := 50

  /** A JSON body field: absent, a string, or some other JSON value. */
  datatype Field = Absent | Text(s: string) | NotText

  /** The fields of a create request the routes read; `metadata` and `budget` are passed through. */
  datatype CreateBody = CreateBody(prompt: Field, mode: Field, planContext: Field)

  /** The first issue the schema reports, fields checked in declaration order. */
  datatype SchemaIssue = PromptNotText | PromptTooShort | ModeInvalid | PlanContextNotText

  datatype CreateRequest = CreateRequest(prompt: string, mode: TG.Mode, planContext: Option<string>)

  /** `createPipelineSchema.safeParse`: a string prompt of at least five characters, mode `plan`/`act` (default `act`). */
  function ValidateCreate(body: CreateBody): (r: Result<CreateRequest, SchemaIssue>)
    ensures r.Ok? <==> body.prompt.Text? && |body.prompt.s| >= PromptMinLength
                       && (body.mode.Absent? || body.mode == Text("plan") || body.mode == Text("act"))
                       && !body.planContext.NotText?
    ensures r.Ok? ==> r.value.prompt == body.prompt.s
                      && (r.value.mode == TG.Plan <==> body.mode == Text("plan"))
                      && (r.value.planContext.Some? <==> body.planContext.Text?)
    ensures body.prompt.Text? && |body.prompt.s| < PromptMinLength ==> r == Err(PromptTooShort)
  {
    if !body.prompt.Text? then Err(PromptNotText)
    else if |body.prompt.s| < PromptMinLength then Err(PromptTooShort)
    else if !(body.mode.Absent? || body.mode == Text("plan") || body.mode == Text("act")) then Err(ModeInvalid)
    else if body.planContext.NotText? then Err(PlanContextNotText)
    else
      Ok(CreateRequest(body.prompt.s,
        if body.mode == Text("plan") then TG.Plan else TG.Act,
        if body.planContext.Text? then Some(body.planContext.s) else None))
  }

  const PlanIntro: string :=
    "[MODO PLANEJAMENTO] Analise o projeto e gere um plano detalhado de implementação. NÃO modifique arquivos. Use apenas ferramentas de leitura (read_file, search_code, list_directory). Gere um documento implementation_plan.md com:\n1. Análise do estado atual\n2. Arquivos que precisam ser criados/modificados\n3. Estratégia passo-a-passo\n4. Dependências e riscos\n\n"
  const RequestLabel: string := "Solicitação: "
  const ExecIntro: string := "[MODO EXECUÇÃO] Siga o plano de implementação abaixo e execute as mudanças:\n\n"
  const PlanStart: string := "--- PLANO ---\n"
  const PlanEnd: string := "\n--- FIM DO PLANO ---"
  const OriginalLabel: string := "\n\nSolicitação original: "

  /** The plan wrapped in its markers, as an execution prompt carries it. */
  function PlanBlock(plan: string): string {
    PlanStart + plan + PlanEnd
  }

  /**
   * The prompt handed to the orchestrator: wrapped for planning, or carrying the plan to execute.
   * Whatever the mode, it ends with the user's own request.
   */
  function RewritePrompt(mode: TG.Mode, prompt: string, planContext: Option<string>): (r: string)
    ensures EndsWith(r, prompt)
    ensures mode == TG.Act && !TG.Truthy(planContext) ==> r == prompt
  {
    if mode == TG.Plan then
      EndsWithConcat(PlanIntro + RequestLabel, prompt);
      assert PlanIntro + (RequestLabel + prompt) == PlanIntro + RequestLabel + prompt;
      PlanIntro + (RequestLabel + prompt)
    else if TG.Truthy(planContext) then
      var head := ExecIntro + PlanBlock(planContext.value) + OriginalLabel;
      EndsWithConcat(head, prompt);
      assert ExecIntro + PlanBlock(planContext.value) + (OriginalLabel + prompt) == head + prompt;
      ExecIntro + PlanBlock(planContext.value) + (OriginalLabel + prompt)
    else
      EndsWithConcat([], prompt);
      assert [] + prompt == prompt;
      prompt
  }

  /** In plan mode the request follows the planning instructions under its label. */
  lemma PlanPromptEndsWithRequest(prompt: string, planContext: Option<string>)
    ensures var r := RewritePrompt(TG.Plan, prompt, planContext);
      StartsWith(r, PlanIntro) && EndsWith(r, RequestLabel + prompt)
  {
    EndsWithConcat(PlanIntro, RequestLabel + prompt);
  }

  /** In act mode with a plan, the plan is embedded between its markers and the request closes the prompt. */
  lemma ActPromptCarriesPlan(prompt: string, plan: string)
    requires plan != ""
    ensures var r := RewritePrompt(TG.Act, prompt, Some(plan));
      StartsWith(r, ExecIntro) && Contains(r, PlanBlock(plan)) && EndsWith(r, OriginalLabel + prompt)
  {
    ContainsMiddle(ExecIntro, PlanBlock(plan), OriginalLabel + prompt);
    EndsWithConcat(ExecIntro + PlanBlock(plan), OriginalLabel + prompt);
  }

  /** What the route stores as the pipeline's metadata (the caller's own metadata and budget aside). */
  datatype Metadata = Metadata(mode: TG.Mode, planContext: Option<string>)

  /** A call to the pipeline orchestrator. */
  datatype OrchestratorCall =
    | CreatePipeline(prompt: string, userId: string, metadata: Metadata)
    | StartPipeline(id: int)
    | GetRecentPipelines(limit: int)
    | GetPendingStagingCount(id: int)

  class Orchestrator {
    var calls: seq<OrchestratorCall>

    constructor ()
      ensures calls == []
    {
      calls := [];
    }

    method Record(c: OrchestratorCall)
      modifies this
      ensures calls == old(calls) + [c]
    {
      calls := calls + [c];
    }
  }

  /** What the error field of a failed response holds: a fixed message, the schema's issue, or a thrown error's message. */
  datatype ErrorText = Message(text: string) | Issue(issue: SchemaIssue)

  /** The error a schema issue answers: the schema's own message for a short prompt, zod's message otherwise. */
  function IssueText(i: SchemaIssue): (e: ErrorText)
    ensures e == Message(PromptTooShortMessage) <==> i == PromptTooShort
    ensures i != PromptTooShort ==> e == Issue(i)
  {
    if i == PromptTooShort then Message(PromptTooShortMessage) else Issue(i)
  }

  /** A pipeline id as `res.json` writes it: `NaN` becomes `null`. */
  function JsonId(id: Option<TG.PipelineId>): (r: Option<int>)
    ensures r.Some? <==> id.Some? && id.value.Num?
    ensures r.Some? ==> id == Some(TG.Num(r.value))
  {
    if id.Some? && id.value.Num? then Some(id.value.n) else None
  }

  datatype Response =
    | Failure(status: nat, error: ErrorText)
    | CreatedPipeline(pipeline: string, mode: TG.Mode)
    | ModeState(planMode: bool, activePipeline: Option<int>)
    | ModeSet(mode: TG.Mode, planMode: bool)
    | Logs(logs: seq<TG.CommandEntry>)
    | Listed(pipelines: seq<ListedPipeline>)

  /** The `createPipeline` call for a valid request: the rewritten prompt, the caller or `anonymous`, the mode and a truthy plan. */
  function CreateCall(req: CreateRequest, userId: Option<string>): (c: OrchestratorCall)
    ensures c.CreatePipeline? && EndsWith(c.prompt, req.prompt) && c.metadata.mode == req.mode
    ensures c.prompt == RewritePrompt(req.mode, req.prompt, req.planContext)
    ensures TG.Truthy(userId) ==> c.userId == userId.value
    ensures !TG.Truthy(userId) ==> c.userId == "anonymous"
    ensures c.metadata.planContext.Some? <==> TG.Truthy(req.planContext)
  {
    CreatePipeline(RewritePrompt(req.mode, req.prompt, req.planContext), TG.OrElse(userId, "anonymous"),
      Metadata(req.mode, if TG.Truthy(req.planContext) then req.planContext else None))
  }

  /**
   * `POST /`: a body failing the schema gets 400 and nothing else happens. Otherwise the
   * rewritten prompt creates a pipeline, which becomes the gateway's active pipeline with
   * plan flag `mode == plan`, and then is started; a throw from the orchestrator gives 500.
   */
  method Create(tm: TG.ToolManager, orch: Orchestrator, body: CreateBody, userId: Option<string>,
                created: Result<int, string>, started: Result<string, string>)
    returns (resp: Response)
    modifies tm`activePipeline, tm`contexts, orch
    ensures ValidateCreate(body).Err? ==>
      && resp == Failure(400, IssueText(ValidateCreate(body).error)) && orch.calls == old(orch.calls)
      && tm.activePipeline == old(tm.activePipeline) && tm.contexts == old(tm.contexts)
    ensures ValidateCreate(body).Ok? && created.Err? ==>
      && resp == Failure(500, Message(created.error))
      && orch.calls == old(orch.calls) + [CreateCall(ValidateCreate(body).value, userId)]
      && tm.activePipeline == old(tm.activePipeline) && tm.contexts == old(tm.contexts)
    ensures ValidateCreate(body).Ok? && created.Ok? ==> var req := ValidateCreate(body).value;
      && orch.calls == old(orch.calls) + [CreateCall(req, userId), StartPipeline(created.value)]
      && tm.activePipeline == Some(TG.Num(created.value)) && tm.PlanFlag(TG.Num(created.value)) == (req.mode == TG.Plan)
      && tm.contexts.Keys == old(tm.contexts).Keys + {TG.Num(created.value)}
      && tm.contexts[TG.Num(created.value)] == TG.ContextOrDefault(old(tm.contexts), TG.Num(created.value)).(planMode := req.mode == TG.Plan)
      && (forall id :: id in old(tm.contexts) && id != TG.Num(created.value) ==> id in tm.contexts && tm.contexts[id] == old(tm.contexts)[id])
      && resp == (if started.Ok? then CreatedPipeline(started.value, req.mode) else Failure(500, Message(started.error)))
  {
    var parsed := ValidateCreate(body);
    if parsed.Err? {
      return Failure(400, IssueText(parsed.error));
    }
    var req := parsed.value;
    orch.Record(CreateCall(req, userId));
    if created.Err? {
      return Failure(500, Message(created.error));
    }
    var id := created.value;
    tm.SetActivePipeline(Some(TG.Num(id)));
    tm.SetPlanMode(req.mode == TG.Plan, Some(TG.Num(id)));
    orch.Record(StartPipeline(id));
    if started.Err? {
      return Failure(500, Message(started.error));
    }
    resp := CreatedPipeline(started.value, req.mode);
  }

  /** `parseInt(s)` as a pipeline id: the number, or `NaN` when the text does not start with one. */
  function ParseId(s: string): (id: TG.PipelineId)
    ensures id.NaN? <==> ParseInt(s).None?
    ensures id.Num? ==> ParseInt(s) == Some(id.n)
  {
    if ParseInt(s).Some? then TG.Num(ParseInt(s).value) else TG.NaN
  }

  /**
   * `req.query.pipelineId ? parseInt(...) : undefined`: no id for a missing or empty
   * parameter, otherwise the parsed number, or `NaN`, which the routes pass on as an id.
   */
  function QueryId(q: Option<string>): (id: Option<TG.PipelineId>)
    ensures id.None? <==> !TG.Truthy(q)
    ensures TG.Truthy(q) && ParseInt(q.value).None? ==> id == Some(TG.NaN)
    ensures forall n: nat :: q == Some(NatToString(n)) ==> id == Some(TG.Num(n))
  {
    forall n: nat | q == Some(NatToString(n)) ensures TG.Truthy(q) && ParseInt(q.value) == Some(n) {
      ParseNatToString(n);
    }
    if TG.Truthy(q) then Some(ParseId(q.value)) else None
  }

  /**
   * `GET /agent-terminal`: the transcript of the given pipeline, or all of it. An id
   * that does not parse is `NaN`, which no entry's tag equals, so it lists nothing.
   */
  method AgentTerminal(tm: TG.ToolManager, pipelineId: Option<string>) returns (resp: Response)
    ensures resp == Logs(tm.CommandLogFor(QueryId(pipelineId)))
    ensures QueryId(pipelineId).None? ==> resp.logs == tm.commandLog
    ensures QueryId(pipelineId) == Some(TG.NaN) ==> resp.logs == []
    ensures QueryId(pipelineId).Some? ==> forall k :: 0 <= k < |resp.logs| ==> resp.logs[k].pipelineId == QueryId(pipelineId)
  {
    TG.NaNSelectsNothing(tm.commandLog);
    resp := Logs(tm.CommandLogFor(QueryId(pipelineId)));
  }

  /**
   * `GET /mode`: a given id, `NaN` included, becomes the active pipeline; then the
   * active pipeline's plan flag is reported, with `NaN` written as `null`.
   */
  method GetMode(tm: TG.ToolManager, pipelineId: Option<string>) returns (resp: Response)
    modifies tm`activePipeline, tm`contexts
    ensures tm.activePipeline == if QueryId(pipelineId).Some? then QueryId(pipelineId) else old(tm.activePipeline)
    ensures resp == ModeState(tm.activePipeline.Some? && tm.PlanFlag(tm.activePipeline.value), JsonId(tm.activePipeline))
    ensures tm.activePipeline.None? ==> tm.contexts == old(tm.contexts)
    ensures tm.activePipeline.Some? ==> tm.contexts.Keys == old(tm.contexts).Keys + {tm.activePipeline.value}
    ensures forall id :: id in old(tm.contexts) ==> id in tm.contexts && tm.contexts[id] == old(tm.contexts)[id]
    ensures forall id :: id in tm.contexts && id !in old(tm.contexts) ==> tm.contexts[id] == TG.DefaultContext
  {
    var id := QueryId(pipelineId);
    if id.Some? {
      tm.SetActivePipeline(id);
    }
    var on := tm.PlanMode();
    resp := ModeState(on, JsonId(tm.activePipeline));
  }

  /** A pipeline id in a JSON body: absent, a string, or a number. */
  datatype BodyId = NoId | IdText(s: string) | IdNumber(n: int)

  /** `pipelineId ? parseInt(pipelineId) : undefined`: text that does not parse gives `NaN`. */
  function BodyPipelineId(b: BodyId): (id: Option<TG.PipelineId>)
    ensures id.None? <==> b.NoId? || b == IdText("") || b == IdNumber(0)
    ensures b.IdNumber? && b.n != 0 ==> id == Some(TG.Num(b.n))
    ensures b.IdText? && b.s != "" ==> id == Some(ParseId(b.s))
  {
    match b
    case NoId => None
    case IdText(s) => if s != "" then Some(ParseId(s)) else None
    case IdNumber(n) => if n != 0 then Some(TG.Num(n)) else None
  }

  /**
   * `POST /mode`: anything but `plan`/`act` is refused with 400; otherwise the flag of the
   * given (or active) pipeline is set and every other context is left as it was. A body id
   * that does not parse names the `NaN` pipeline, not the active one.
   */
  method PostMode(tm: TG.ToolManager, mode: Field, pipelineId: BodyId) returns (resp: Response)
    modifies tm`contexts
    ensures !(mode == Text("plan") || mode == Text("act")) ==>
      resp == Failure(400, Message(ModeMessage)) && tm.contexts == old(tm.contexts)
    ensures mode == Text("plan") || mode == Text("act") ==>
      var target := if BodyPipelineId(pipelineId).Some? then BodyPipelineId(pipelineId) else tm.activePipeline;
      && (target.None? ==> tm.contexts == old(tm.contexts))
      && (target.Some? ==> tm.PlanFlag(target.value) == (mode == Text("plan")))
      && (target.Some? ==> tm.contexts.Keys == old(tm.contexts).Keys + {target.value} + TG.ActiveKey(tm.activePipeline))
      && (target.Some? ==> tm.contexts[target.value] == TG.ContextOrDefault(old(tm.contexts), target.value).(planMode := mode == Text("plan")))
      && (forall id :: id in tm.contexts && id !in old(tm.contexts) && target != Some(id) ==> tm.contexts[id] == TG.DefaultContext)
      && (forall id :: id in old(tm.contexts) && target != Some(id) ==> id in tm.contexts && tm.contexts[id] == old(tm.contexts)[id])
      && resp == ModeSet(if mode == Text("plan") then TG.Plan else TG.Act, tm.PlanOn())
  {
    if !(mode == Text("plan") || mode == Text("act")) {
      return Failure(400, Message(ModeMessage));
    }
    tm.SetPlanMode(mode == Text("plan"), BodyPipelineId(pipelineId));
    ghost var before := tm.contexts;
    var on := tm.PlanMode();
    if tm.activePipeline.Some? {
      var a := tm.activePipeline.value;
      if a in before {
        assert tm.contexts[a] == before[a];
      } else {
        assert a in tm.contexts && tm.contexts[a] == TG.DefaultContext;
      }
    }
    resp := ModeSet(if mode == Text("plan") then TG.Plan else TG.Act, on);
  }

  /** `Math.min(parseInt(limit) || 20, 50)`. */
  function ListLimit(limit: Option<string>): (n: int)
    ensures n <= MaxLimit
    ensures limit.None? ==> n == DefaultLimit
    ensures limit.Some? && ParseInt(limit.value).None? ==> n == DefaultLimit
    ensures limit.Some? && ParseInt(limit.value) == Some(0) ==> n == DefaultLimit
    ensures limit.Some? && ParseInt(limit.value).Some? && ParseInt(limit.value).value != 0 ==>
      n == if ParseInt(limit.value).value < MaxLimit then ParseInt(limit.value).value else MaxLimit
  {
    var parsed := if limit.Some? then ParseInt(limit.value) else None;
    var wanted := if parsed.Some? && parsed.value != 0 then parsed.value else DefaultLimit;
    if wanted < MaxLimit then wanted else MaxLimit
  }

  /** The limit of a positive number up to 50 is that number. */
  lemma ListLimitSmall(n: nat)
    requires 0 < n <= MaxLimit
    ensures ListLimit(Some(NatToString(n))) == n
  {
    ParseNatToString(n);
  }

  datatype PipelineRow = PipelineRow(id: int, summary: string)
  datatype ListedPipeline = ListedPipeline(row: PipelineRow, hasPendingChanges: bool, pendingStagingCount: int)

  /** Each listed pipeline with its pending-change count and `hasPendingChanges = count > 0`. */
  function WithPending(rows: seq<PipelineRow>, counts: seq<int>): (r: seq<ListedPipeline>)
    requires |counts| == |rows|
    ensures |r| == |rows|
    ensures forall k :: 0 <= k < |r| ==>
      r[k].row == rows[k] && r[k].pendingStagingCount == counts[k] && (r[k].hasPendingChanges <==> counts[k] > 0)
  {
    if |rows| == 0 then []
    else [ListedPipeline(rows[0], counts[0] > 0, counts[0])] + WithPending(rows[1..], counts[1..])
  }

  /** `GET /`: the recent pipelines (at most the clamped limit asked for), each with its pending count. */
  method List(orch: Orchestrator, limit: Option<string>, rows: Result<seq<PipelineRow>, string>, counts: seq<int>)
    returns (resp: Response)
    requires rows.Ok? ==> |counts| == |rows.value|
    modifies orch
    ensures rows.Err? ==> resp == Failure(500, Message(rows.error)) && orch.calls == old(orch.calls) + [GetRecentPipelines(ListLimit(limit))]
    ensures rows.Ok? ==> resp == Listed(WithPending(rows.value, counts))
    ensures rows.Ok? ==> orch.calls == old(orch.calls) + [GetRecentPipelines(ListLimit(limit))] + PendingQueries(rows.value)
  {
    orch.Record(GetRecentPipelines(ListLimit(limit)));
    if rows.Err? {
      return Failure(500, Message(rows.error));
    }
    var i := 0;
    while i < |rows.value|
      invariant 0 <= i <= |rows.value|
      invariant orch.calls == old(orch.calls) + [GetRecentPipelines(ListLimit(limit))] + PendingQueries(rows.value[..i])
    {
      PendingQueriesSnoc(rows.value, i);
      orch.Record(GetPendingStagingCount(rows.value[i].id));
      i := i + 1;
    }
    assert rows.value[..i] == rows.value;
    resp := Listed(WithPending(rows.value, counts));
  }

  function PendingQueries(rows: seq<PipelineRow>): (r: seq<OrchestratorCall>)
    ensures |r| == |rows|
    ensures forall k :: 0 <= k < |rows| ==> r[k] == GetPendingStagingCount(rows[k].id)
  {
    if |rows| == 0 then [] else PendingQueries(rows[..|rows| - 1]) + [GetPendingStagingCount(rows[|rows| - 1].id)]
  }

  lemma PendingQueriesSnoc(rows: seq<PipelineRow>, i: nat)
    requires i < |rows|
    ensures PendingQueries(rows[..i + 1]) == PendingQueries(rows[..i]) + [GetPendingStagingCount(rows[i].id)]
  {
    assert rows[..i + 1][..i] == rows[..i];
  }

  /* ---------------- the event stream ---------------- */

  /** The orchestrator events a stream forwards, without their `pipeline:` prefix. */
  const StreamEvents: seq<string> := ["phase_started", "phase_completed", "staging_ready", "completed", "failed", "rolled_back"]

  /** A listener one stream connection registered: the bus event, the connection, the pipeline it follows. */
  datatype Listener = Listener(event: string, conn: nat, pipelineId: int)

  /** The six listeners a connection registers, in registration order. */
  function StreamListeners(conn: nat, id: int): (r: seq<Listener>)
    ensures |r| == |StreamEvents|
    ensures forall k :: 0 <= k < |r| ==> r[k] == Listener("pipeline:" + StreamEvents[k], conn, id)
  {
    seq(|StreamEvents|, k requires 0 <= k < |StreamEvents| => Listener("pipeline:" + StreamEvents[k], conn, id))
  }

  /** `off` for every listener of a connection. */
  function WithoutConn(ls: seq<Listener>, conn: nat): (r: seq<Listener>)
    ensures forall l :: l in r <==> l in ls && l.conn != conn
  {
    if |ls| == 0 then []
    else (if ls[0].conn != conn then [ls[0]] else []) + WithoutConn(ls[1..], conn)
  }

  /** Removing the listeners of a connection that has none changes nothing. */
  lemma {:induction false} WithoutAbsentConn(ls: seq<Listener>, conn: nat)
    requires forall l :: l in ls ==> l.conn != conn
    ensures WithoutConn(ls, conn) == ls
  {
    if |ls| > 0 {
      assert ls[0] in ls;
      assert forall l :: l in ls[1..] ==> l in ls;
      WithoutAbsentConn(ls[1..], conn);
      assert ls == [ls[0]] + ls[1..];
    }
  }

  /** Removing the listeners of a connection from its own listeners leaves none. */
  lemma {:induction false} WithoutOwnConn(ls: seq<Listener>, conn: nat)
    requires forall k :: 0 <= k < |ls| ==> ls[k].conn == conn
    ensures WithoutConn(ls, conn) == []
  {
    if |ls| > 0 {
      WithoutOwnConn(ls[1..], conn);
    }
  }

  lemma {:induction false} WithoutConnConcat(a: seq<Listener>, b: seq<Listener>, conn: nat)
    ensures WithoutConn(a + b, conn) == WithoutConn(a, conn) + WithoutConn(b, conn)
  {
    if |a| == 0 {
      assert a + b == b;
    } else {
      assert (a + b)[1..] == a[1..] + b;
      WithoutConnConcat(a[1..], b, conn);
    }
  }

  /** The orchestrator's listener registry and the streams whose 5-second status poll is running. */
  class StreamHub {
    var listeners: seq<Listener>
    var polling: set<nat>

    constructor ()
      ensures listeners == [] && polling == {}
    {
      listeners, polling := [], {};
    }

    /** Whether a connection forwards an event about `pipelineId`: it listens to it and follows that pipeline. */
    predicate Forwards(conn: nat, event: string, pipelineId: int)
      reads this
    {
      exists l :: l in listeners && l == Listener("pipeline:" + event, conn, pipelineId)
    }

    /** Opening `/:id/stream` on a new connection: six listeners for that pipeline, and the status poll. */
    method Open(conn: nat, id: int)
      requires forall l :: l in listeners ==> l.conn != conn
      modifies this
      ensures listeners == old(listeners) + StreamListeners(conn, id)
      ensures polling == old(polling) + {conn}
      ensures forall k :: 0 <= k < |StreamEvents| ==> Forwards(conn, StreamEvents[k], id)
      ensures forall e, p :: Forwards(conn, e, p) ==> p == id
    {
      listeners := listeners + StreamListeners(conn, id);
      polling := polling + {conn};
      forall k | 0 <= k < |StreamEvents| ensures Forwards(conn, StreamEvents[k], id) {
        assert StreamListeners(conn, id)[k] in listeners;
      }
    }

    /** Closing the connection: all its listeners are removed and its poll is cleared. */
    method Close(conn: nat)
      modifies this
      ensures listeners == WithoutConn(old(listeners), conn)
      ensures polling == old(polling) - {conn}
      ensures forall e, p :: !Forwards(conn, e, p)
    {
      listeners := WithoutConn(listeners, conn);
      polling := polling - {conn};
    }
  }

  /** A stream opened and then closed leaves the registry as it found it. */
  lemma OpenCloseRestores(ls: seq<Listener>, conn: nat, id: int)
    requires forall l :: l in ls ==> l.conn != conn
    ensures WithoutConn(ls + StreamListeners(conn, id), conn) == ls
  {
    WithoutConnConcat(ls, StreamListeners(conn, id), conn);
    WithoutAbsentConn(ls, conn);
    WithoutOwnConn(StreamListeners(conn, id), conn);
  }
}
