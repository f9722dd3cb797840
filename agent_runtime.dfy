/**
 * The blackboard agent runtime (server/blackboard/BaseBlackboardAgent.ts):
 * the `ManusIntelligence` facade with its call, token and error counters and
 * its context enrichment, and the base agent's start/poll/stop lifecycle.
 *
 * The language model, the code-search tool, `JSON.parse` and the blackboard
 * service answer through parameters; timers are reduced to the delay the
 * agent arms after a poll.
 */
module AgentRuntime {
  import opened Wrappers
  import opened Text
  import opened Blackboard
  import TG = ToolGateway
  import Seqs

  /** Keywords kept for the enrichment search. */
  const MaxKeywords: nat := 5
  /** The enrichment search asks for at most this many matches. */
  const EnrichMaxResults: nat := 5
  /** Poll delay when the agent's configuration gives none (or 0). */
  const DefaultPollInterval: nat := 2000
  /** `max_tokens` of `generate` when the caller gives none (or 0). */
  const DefaultMaxTokens: nat := 8000
  /** `max_tokens` of `think`. */
  const ThinkMaxTokens: nat := 4000

  /** What `think` parses when the answer has no content or an empty one. */
  const EmptyJson: string := "{}"

  const EnrichHeader: string := "\n\nCÓDIGO RELEVANTE DO PROJETO:\n"

  /* ---------------- keywords and enrichment ---------------- */

  /**
   * `s.split(/\s+/)` as far as the keyword step can tell: the text between
   * whitespace characters. A run of whitespace gives empty pieces here where
   * the regular expression gives none; the length filter drops both alike.
   */
  function Pieces(s: string): (r: seq<string>)
    ensures |r| >= 1
    ensures forall k :: 0 <= k < |r| ==> forall ch :: ch in r[k] ==> !IsSpace(ch)
  {
    if |s| == 0 then [""]
    else
      var rest := Pieces(s[1..]);
      if IsSpace(s[0]) then [""] + rest else [[s[0]] + rest[0]] + rest[1..]
  }

  /** `filter(w => w.length > 4)`. */
  function LongWords(ws: seq<string>): seq<string> {
    if |ws| == 0 then []
    else (if |ws[0]| > 4 then [ws[0]] else []) + LongWords(ws[1..])
  }

  /** The long words are exactly the words longer than four characters. */
  lemma {:induction false} LongWordsMembers(ws: seq<string>)
    ensures forall w :: w in LongWords(ws) <==> w in ws && |w| > 4
    decreases |ws|
  {
    if |ws| > 0 {
      LongWordsMembers(ws[1..]);
      assert ws == [ws[0]] + ws[1..];
    }
  }

  /** The enrichment keywords: the first five whitespace-separated words longer than four characters. */
  function Keywords(prompt: string): seq<string> {
    var long := LongWords(Pieces(prompt));
    if |long| <= MaxKeywords then long else long[..MaxKeywords]
  }

  /** At most five keywords, the leading long words of the prompt, each without whitespace. */
  lemma KeywordsShape(prompt: string)
    ensures var r, long := Keywords(prompt), LongWords(Pieces(prompt));
      && |r| <= MaxKeywords && r <= long
      && |r| == (if |long| < MaxKeywords then |long| else MaxKeywords)
      && forall w :: w in r ==> |w| > 4 && forall ch :: ch in w ==> !IsSpace(ch)
  {
    LongWordsMembers(Pieces(prompt));
  }

  /** The whitespace characters of `s`, in order. */
  function Spaces(s: string): (r: string)
    ensures forall k :: 0 <= k < |r| ==> IsSpace(r[k])
  {
    if |s| == 0 then "" else (if IsSpace(s[0]) then [s[0]] else "") + Spaces(s[1..])
  }

  /** Pieces put back together, with one separator character between neighbours. */
  function Glue(ps: seq<string>, seps: string): string
    requires |ps| == |seps| + 1
    decreases |seps|
  {
    if |seps| == 0 then ps[0] else ps[0] + [seps[0]] + Glue(ps[1..], seps[1..])
  }

  /** No piece holds a whitespace character. */
  predicate Words(ws: seq<string>) {
    forall k :: 0 <= k < |ws| ==> forall ch :: ch in ws[k] ==> !IsSpace(ch)
  }

  /** The pieces, glued back with the whitespace characters of `s` in order, give `s` again. */
  lemma {:induction false} PiecesGlue(s: string)
    ensures |Pieces(s)| == |Spaces(s)| + 1
    ensures Glue(Pieces(s), Spaces(s)) == s
  {
    if |s| > 0 {
      PiecesGlue(s[1..]);
      var rest, sp := Pieces(s[1..]), Spaces(s[1..]);
      assert s == [s[0]] + s[1..];
      if IsSpace(s[0]) {
        assert Pieces(s) == [""] + rest && ([""] + rest)[1..] == rest;
        assert Spaces(s) == [s[0]] + sp && ([s[0]] + sp)[1..] == sp;
      } else {
        assert Spaces(s) == sp;
        GlueFront(s[0], rest, sp);
      }
    }
  }

  /** A character put in front of the first piece comes first in the glued text. */
  lemma GlueFront(c: char, ps: seq<string>, seps: string)
    requires |ps| == |seps| + 1
    ensures Glue([[c] + ps[0]] + ps[1..], seps) == [c] + Glue(ps, seps)
  {
    var qs := [[c] + ps[0]] + ps[1..];
    assert qs[0] == [c] + ps[0] && qs[1..] == ps[1..];
    if |seps| > 0 {
      Seqs.AppendAssoc([c], ps[0], [seps[0]] + Glue(ps[1..], seps[1..]));
    }
  }

  /** The pieces of a word followed by more text: the word is glued to the first piece of the rest. */
  lemma {:induction false} PiecesAfterWord(a: string, t: string)
    requires forall ch :: ch in a ==> !IsSpace(ch)
    ensures Pieces(a + t) == [a + Pieces(t)[0]] + Pieces(t)[1..]
  {
    if |a| == 0 {
      assert a + t == t && a + Pieces(t)[0] == Pieces(t)[0];
      assert Pieces(t) == [Pieces(t)[0]] + Pieces(t)[1..];
    } else {
      PiecesAfterWord(a[1..], t);
      assert (a + t)[0] == a[0] && (a + t)[1..] == a[1..] + t;
      Seqs.AppendAssoc([a[0]], a[1..], Pieces(t)[0]);
      assert [a[0]] + a[1..] == a;
    }
  }

  /** Splitting words glued with whitespace characters gives back the words. */
  lemma {:induction false} PiecesOfGlue(ws: seq<string>, seps: string)
    requires |ws| == |seps| + 1 && Words(ws)
    requires forall k :: 0 <= k < |seps| ==> IsSpace(seps[k])
    ensures Pieces(Glue(ws, seps)) == ws
    decreases |seps|
  {
    if |seps| == 0 {
      PiecesAfterWord(ws[0], "");
      assert ws[0] + "" == ws[0];
    } else {
      var g := Glue(ws[1..], seps[1..]);
      assert Words(ws[1..]) by {
        forall k | 0 <= k < |ws[1..]| ensures forall ch :: ch in ws[1..][k] ==> !IsSpace(ch) {
          assert ws[1..][k] == ws[k + 1];
        }
      }
      PiecesOfGlue(ws[1..], seps[1..]);
      var t := [seps[0]] + g;
      assert t[0] == seps[0] && t[1..] == g;
      assert Pieces(t) == [""] + ws[1..];
      Seqs.AppendAssoc(ws[0], [seps[0]], g);
      PiecesAfterWord(ws[0], t);
      assert ws[0] + "" == ws[0];
      assert ws == [ws[0]] + ws[1..];
    }
  }

  /** The long-word filter keeps the words' order: it distributes over concatenation. */
  lemma {:induction false} LongWordsConcat(a: seq<string>, b: seq<string>)
    ensures LongWords(a + b) == LongWords(a) + LongWords(b)
    decreases |a|
  {
    if |a| > 0 {
      LongWordsConcat(a[1..], b);
      assert (a + b)[0] == a[0] && (a + b)[1..] == a[1..] + b;
      Seqs.AppendAssoc(if |a[0]| > 4 then [a[0]] else [], LongWords(a[1..]), LongWords(b));
    } else {
      assert a + b == b;
    }
  }

  /** A single word passes the filter exactly when it is longer than four characters. */
  lemma LongWordsOne(w: string)
    ensures LongWords([w]) == if |w| > 4 then [w] else []
  {
    assert [w][1..] == [];
  }

  /**
   * For a prompt made of words separated by whitespace characters, the keywords are the
   * first five of those words that are longer than four characters, in their order.
   */
  lemma KeywordsOfWords(ws: seq<string>, seps: string)
    requires |ws| == |seps| + 1 && Words(ws)
    requires forall k :: 0 <= k < |seps| ==> IsSpace(seps[k])
    ensures var long := LongWords(ws);
      Keywords(Glue(ws, seps)) == if |long| <= MaxKeywords then long else long[..MaxKeywords]
  {
    PiecesOfGlue(ws, seps);
  }

  /** The code search the enrichment step asks the tool gateway for. */
  datatype SearchRequest = SearchRequest(tool: string, query: string, maxResults: nat)

  const SearchTool: string := "search_code"

  /** `execute("search_code", { query: keywords.join("|"), maxResults: 5 })`. */
  function EnrichSearch(prompt: string): SearchRequest {
    SearchRequest(SearchTool, SearchQuery(prompt), EnrichMaxResults)
  }

  /** The enrichment asks `search_code` for at most five matches, with every keyword in the query. */
  lemma EnrichSearchMentions(prompt: string)
    ensures var r := EnrichSearch(prompt);
      && r.tool == SearchTool && r.maxResults == EnrichMaxResults
      && forall k :: 0 <= k < |Keywords(prompt)| ==> Contains(r.query, Keywords(prompt)[k])
  {
    forall k | 0 <= k < |Keywords(prompt)| ensures Contains(SearchQuery(prompt), Keywords(prompt)[k]) {
      JoinContains(Keywords(prompt), "|", k);
    }
  }

  /** The code-search query of the enrichment step. */
  function SearchQuery(prompt: string): string {
    Join(Keywords(prompt), "|")
  }

  /** The first piece is where the string starts. */
  lemma {:induction false} FirstPieceIsPrefix(s: string)
    ensures Pieces(s)[0] <= s
  {
    if |s| > 0 && !IsSpace(s[0]) {
      FirstPieceIsPrefix(s[1..]);
    }
  }

  lemma ContainsTail(s: string, p: string)
    requires |s| > 0 && Contains(s[1..], p)
    ensures Contains(s, p)
  {
    var i := IndexOf(s[1..], p).value;
    assert s[1..][i..] == s[i + 1..];
    ContainsAt(s, p, i + 1);
  }

  /** Every string of `ps` occurs in `s`. */
  predicate AllOccur(s: string, ps: seq<string>) {
    forall k :: 0 <= k < |ps| ==> Contains(s, ps[k])
  }

  lemma AllOccurCons(s: string, p: string, ps: seq<string>)
    requires Contains(s, p) && AllOccur(s, ps)
    ensures AllOccur(s, [p] + ps)
  {
    forall k | 0 <= k < |[p] + ps| ensures Contains(s, ([p] + ps)[k]) {
      if k > 0 {
        assert ([p] + ps)[k] == ps[k - 1];
      }
    }
  }

  lemma AllOccurTail(s: string, ps: seq<string>)
    requires |ps| > 0 && AllOccur(s, ps)
    ensures AllOccur(s, ps[1..])
  {
    forall k | 0 <= k < |ps[1..]| ensures Contains(s, ps[1..][k]) {
      assert ps[1..][k] == ps[k + 1];
    }
  }

  lemma AllOccurWiden(s: string, ps: seq<string>)
    requires |s| > 0 && AllOccur(s[1..], ps)
    ensures AllOccur(s, ps)
  {
    forall k | 0 <= k < |ps| ensures Contains(s, ps[k]) {
      ContainsTail(s, ps[k]);
    }
  }

  /** Every piece of the split occurs in the prompt. */
  lemma {:induction false} PiecesOccur(s: string)
    ensures AllOccur(s, Pieces(s))
  {
    if |s| == 0 {
      assert Pieces(s) == [""] && s[0..] == "";
      ContainsAt(s, "", 0);
      AllOccurCons(s, "", []);
    } else {
      var rest := Pieces(s[1..]);
      PiecesOccur(s[1..]);
      AllOccurWiden(s, rest);
      if IsSpace(s[0]) {
        assert s[0..] == s;
        ContainsAt(s, "", 0);
        AllOccurCons(s, "", rest);
      } else {
        var first := [s[0]] + rest[0];
        FirstPieceIsPrefix(s[1..]);
        assert first <= s;
        ContainsAt(s, first, 0);
        AllOccurTail(s, rest);
        AllOccurCons(s, first, rest[1..]);
      }
    }
  }

  /** Every keyword is a word of the prompt. */
  lemma KeywordsOccur(prompt: string)
    ensures forall w :: w in Keywords(prompt) ==> Contains(prompt, w)
  {
    PiecesOccur(prompt);
    LongWordsMembers(Pieces(prompt));
    forall w | w in Keywords(prompt) ensures Contains(prompt, w) {
      assert w in LongWords(Pieces(prompt));
      var k :| 0 <= k < |Pieces(prompt)| && Pieces(prompt)[k] == w;
    }
  }

  /** One search match as `${file}:${line} - ${content}`. */
  function MatchLine(m: TG.SearchMatch): string {
    m.file + ":" + IntToString(m.line) + " - " + m.content
  }

  function MatchLines(ms: seq<TG.SearchMatch>): (r: seq<string>)
    ensures |r| == |ms|
    ensures forall k :: 0 <= k < |ms| ==> r[k] == MatchLine(ms[k])
  {
    if |ms| == 0 then [] else [MatchLine(ms[0])] + MatchLines(ms[1..])
  }

  /**
   * `enrichWithContext`: the search's matches under a fixed header, or "" when the
   * search failed, found nothing, or threw (`None`).
   */
  function Enrichment(search: Option<TG.ToolResult>): (r: string)
    ensures r == "" <==> !(search.Some? && search.value.success && |search.value.matches| > 0)
    ensures r != "" ==> r == EnrichHeader + Join(MatchLines(search.value.matches), "\n")
  {
    if search.Some? && search.value.success && |search.value.matches| > 0
    then EnrichHeader + Join(MatchLines(search.value.matches), "\n")
    else ""
  }

  /** `prompt + contextData` when the enrichment is non-empty, else the prompt itself. */
  function Enriched(prompt: string, enrich: bool, search: Option<TG.ToolResult>): (r: string)
    ensures prompt <= r
    ensures !enrich ==> r == prompt
    ensures enrich ==> r == prompt + Enrichment(search)
  {
    if enrich && Enrichment(search) != "" then prompt + Enrichment(search) else prompt
  }

  /* ---------------- the language-model facade ---------------- */

  /** What a call sends to the chat-completions endpoint (temperature is left out). */
  datatype Request = Request(model: string, system: string, user: string, maxTokens: nat, jsonMode: bool)

  /** The endpoint's answer: content and `usage.total_tokens`, each possibly absent, or a thrown error. */
  datatype Completion = Completed(content: Option<string>, totalTokens: Option<nat>) | RequestFailed(message: string)

  datatype ThoughtResult = ErrorResult(error: string) | Answer(text: string)

  datatype Thought = Thought(thought: string, action: Option<string>, finished: Option<bool>, result: Option<ThoughtResult>)

  /** The thought `think` returns instead of raising. */
  function ErrorThought(message: string): (t: Thought)
    ensures t.finished == Some(true) && t.result == Some(ErrorResult(message))
    ensures StartsWith(t.thought, "Erro ao processar: ")
  {
    Thought("Erro ao processar: " + message, None, Some(true), Some(ErrorResult(message)))
  }

  /** `n || fallback` for an optional count. */
  function CountOr(n: Option<nat>, fallback: nat): (r: nat)
    ensures n.Some? && n.value != 0 ==> r == n.value
    ensures !(n.Some? && n.value != 0) ==> r == fallback
  {
    if n.Some? && n.value != 0 then n.value else fallback
  }

  class ManusIntelligence {
    const model: string
    var callCount: nat
    var tokenCount: nat
    var errorCount: nat
    var lastCallAt: int
    const startedAt: int

    /** Every failed call was first counted as a call. */
    ghost predicate Valid()
      reads this
    {
      errorCount <= callCount
    }

    constructor (now: int)
      ensures Valid()
      ensures model == "gpt-4o" && startedAt == now
      ensures callCount == 0 && tokenCount == 0 && errorCount == 0 && lastCallAt == 0
    {
      model := "gpt-4o";
      callCount, tokenCount, errorCount, lastCallAt := 0, 0, 0, 0;
      startedAt := now;
    }

    /**
     * `generate`: counts the call, enriches the prompt unless `enrichContext` is
     * `false`, and answers the content (or "") or re-raises the endpoint's error.
     */
    method Generate(systemPrompt: string, userPrompt: string, maxTokens: Option<nat>, enrichContext: Option<bool>,
                    search: Option<TG.ToolResult>, completion: Completion, now: int)
      returns (r: Result<string, string>, req: Request, lookup: Option<SearchRequest>)
      requires Valid()
      modifies this`callCount, this`tokenCount, this`errorCount, this`lastCallAt
      ensures Valid()
      ensures callCount == old(callCount) + 1
      ensures lookup == if enrichContext != Some(false) then Some(EnrichSearch(userPrompt)) else None
      ensures req == Request(model, systemPrompt, Enriched(userPrompt, enrichContext != Some(false), search),
                             CountOr(maxTokens, DefaultMaxTokens), false)
      ensures completion.RequestFailed? ==>
        && r == Err(completion.message) && errorCount == old(errorCount) + 1
        && tokenCount == old(tokenCount) && lastCallAt == old(lastCallAt)
      ensures completion.Completed? ==>
        && r == Ok(completion.content.GetOr("")) && errorCount == old(errorCount)
        && tokenCount == old(tokenCount) + completion.totalTokens.GetOr(0) && lastCallAt == now
    {
      callCount := callCount + 1;
      lookup := if enrichContext != Some(false) then Some(EnrichSearch(userPrompt)) else None;
      var prompt := Enriched(userPrompt, enrichContext != Some(false), search);
      req := Request(model, systemPrompt, prompt, CountOr(maxTokens, DefaultMaxTokens), false);
      match completion
      case RequestFailed(message) =>
        errorCount := errorCount + 1;
        r := Err(message);
      case Completed(content, tokens) =>
        tokenCount := tokenCount + tokens.GetOr(0);
        lastCallAt := now;
        r := Ok(content.GetOr(""));
    }

    /**
     * `think`: counts the call and never raises. The tokens of an answer are counted
     * before it is parsed (`content || '{}'`, so an empty answer parses as `{}`); a failed request or a failed parse is
     * counted as an error and answered with `ErrorThought`.
     */
    method Think(systemPrompt: string, taskContext: string, search: Option<TG.ToolResult>,
                 completion: Completion, parse: string -> Result<Thought, string>, now: int)
      returns (t: Thought, req: Request, lookup: SearchRequest)
      requires Valid()
      modifies this`callCount, this`tokenCount, this`errorCount, this`lastCallAt
      ensures Valid()
      ensures callCount == old(callCount) + 1
      ensures lookup == EnrichSearch(taskContext)
      ensures req == Request(model, systemPrompt, Enriched(taskContext, true, search), ThinkMaxTokens, true)
      ensures completion.RequestFailed? ==>
        && t == ErrorThought(completion.message) && errorCount == old(errorCount) + 1
        && tokenCount == old(tokenCount) && lastCallAt == old(lastCallAt)
      ensures completion.Completed? ==>
        && tokenCount == old(tokenCount) + completion.totalTokens.GetOr(0) && lastCallAt == now
        && match parse(TG.OrElse(completion.content, EmptyJson))
           case Ok(th) => t == th && errorCount == old(errorCount)
           case Err(m) => t == ErrorThought(m) && errorCount == old(errorCount) + 1
    {
      callCount := callCount + 1;
      lookup := EnrichSearch(taskContext);
      req := Request(model, systemPrompt, Enriched(taskContext, true, search), ThinkMaxTokens, true);
      match completion
      case RequestFailed(message) =>
        errorCount := errorCount + 1;
        t := ErrorThought(message);
      case Completed(content, tokens) =>
        tokenCount := tokenCount + tokens.GetOr(0);
        lastCallAt := now;
        match parse(TG.OrElse(content, EmptyJson))
        case Ok(th) =>
          t := th;
        case Err(m) =>
          errorCount := errorCount + 1;
          t := ErrorThought(m);
    }
  }

  /** The static `ManusIntelligence.instance` slot. */
  class ManusSlot {
    var instance: ManusIntelligence?

    constructor ()
      ensures instance == null
    {
      instance := null;
    }

    /** `getInstance`: creates the facade on first use and hands out the same object afterwards. */
    method GetInstance(now: int) returns (m: ManusIntelligence)
      modifies this
      ensures instance == m
      ensures old(instance) != null ==> m == old(instance)
      ensures old(instance) == null ==> fresh(m) && m.Valid() && m.callCount == 0 && m.errorCount == 0 && m.tokenCount == 0
    {
      if instance == null {
        instance := new ManusIntelligence(now);
      }
      m := instance;
    }
  }

  /* ---------------- the agent lifecycle ---------------- */

  datatype AgentConfig = AgentConfig(name: string, displayName: string, description: string,
                                     systemPrompt: string, capabilities: seq<string>, pollInterval: Option<nat>)

  datatype AgentStatus = AgentStatus(name: string, running: bool, capabilities: seq<string>)

  /** `getPendingTasksForAgent`'s answer. */
  datatype Fetch = Fetched(tasks: seq<Task>) | FetchFailed(message: string)

  /** `claimTask`'s answer; a throw leaves the task loop through the outer `catch`. */
  datatype ClaimReply = Granted | Refused | ClaimThrew(message: string)

  /** How the agent's own `process` ended. */
  datatype ProcessResult = Done | Threw(message: string)

  /** A task whose claim throws ends the poll's task loop. */
  predicate Aborts(t: Task, handles: Task -> bool, c: ClaimReply) {
    handles(t) && c.ClaimThrew?
  }

  /** The calls one task gets: none unless handled; a claim; then, if granted, `process` and a `failTask` when it threw. */
  function TaskCalls(agent: string, t: Task, handles: Task -> bool, c: ClaimReply, o: ProcessResult): (r: seq<Call>)
    ensures |r| > 0 <==> handles(t)
    ensures |r| > 0 ==> r[0] == ClaimTask(t.id, agent)
  {
    if !handles(t) then []
    else [ClaimTask(t.id, agent)]
         + (if c.Granted? then [Processing(t.id)] + (if o.Threw? then [FailTask(t.id, agent, o.message)] else []) else [])
  }

  /** The calls of the poll's task loop, in fetched order, up to a claim that throws. */
  function LoopCalls(agent: string, tasks: seq<Task>, handles: Task -> bool,
                     claims: seq<ClaimReply>, outcomes: seq<ProcessResult>): seq<Call>
    requires |claims| == |tasks| && |outcomes| == |tasks|
    decreases |tasks|
  {
    if |tasks| == 0 then []
    else TaskCalls(agent, tasks[0], handles, claims[0], outcomes[0])
         + (if Aborts(tasks[0], handles, claims[0]) then []
            else LoopCalls(agent, tasks[1..], handles, claims[1..], outcomes[1..]))
  }

  /** Everything one poll of a running agent asks of the blackboard. */
  function PollCalls(agent: string, fetch: Fetch, handles: Task -> bool,
                     claims: seq<ClaimReply>, outcomes: seq<ProcessResult>): seq<Call>
    requires fetch.Fetched? ==> |claims| == |fetch.tasks| && |outcomes| == |fetch.tasks|
  {
    [GetPendingTasks(agent)]
    + (if fetch.Fetched? then LoopCalls(agent, fetch.tasks, handles, claims, outcomes) else [])
  }

  /**
   * Order within a poll: the loop begins with a claim, `process` runs right after a
   * claim of the same task, and a `failTask` comes right after that task's `process`.
   */
  lemma {:induction false} LoopOrder(agent: string, tasks: seq<Task>, handles: Task -> bool,
                                     claims: seq<ClaimReply>, outcomes: seq<ProcessResult>)
    requires |claims| == |tasks| && |outcomes| == |tasks|
    ensures var c := LoopCalls(agent, tasks, handles, claims, outcomes);
      && (|c| > 0 ==> c[0].ClaimTask?)
      && (forall k :: 0 <= k < |c| && c[k].Processing? ==> k > 0 && c[k - 1] == ClaimTask(c[k].taskId, agent))
      && (forall k :: 0 <= k < |c| && c[k].FailTask? ==> k > 0 && c[k - 1] == Processing(c[k].taskId) && c[k].agent == agent)
    decreases |tasks|
  {
    if |tasks| > 0 {
      var head := TaskCalls(agent, tasks[0], handles, claims[0], outcomes[0]);
      var tail := if Aborts(tasks[0], handles, claims[0]) then []
                  else LoopCalls(agent, tasks[1..], handles, claims[1..], outcomes[1..]);
      if !Aborts(tasks[0], handles, claims[0]) {
        LoopOrder(agent, tasks[1..], handles, claims[1..], outcomes[1..]);
      }
      var c := head + tail;
      assert c == LoopCalls(agent, tasks, handles, claims, outcomes);
      TaskOrder(agent, tasks[0], handles, claims[0], outcomes[0]);
      forall k | 0 <= k < |c| && (c[k].Processing? || c[k].FailTask?)
        ensures k > 0 && c[k - 1] == (if c[k].Processing? then ClaimTask(c[k].taskId, agent) else Processing(c[k].taskId))
        ensures c[k].FailTask? ==> c[k].agent == agent
      {
        if k >= |head| {
          assert c[k] == tail[k - |head|];
          assert c[k - 1] == tail[k - 1 - |head|];
        } else {
          assert c[k] == head[k] && c[k - 1] == head[k - 1];
        }
      }
    }
  }

  /** Within one task's calls, `process` follows its claim and a `failTask` follows its `process`. */
  lemma TaskOrder(agent: string, t: Task, handles: Task -> bool, c: ClaimReply, o: ProcessResult)
    ensures var r := TaskCalls(agent, t, handles, c, o);
      forall k :: 0 <= k < |r| && (r[k].Processing? || r[k].FailTask?) ==>
        k > 0 && r[k - 1] == (if r[k].Processing? then ClaimTask(r[k].taskId, agent) else Processing(r[k].taskId)) &&
        (r[k].FailTask? ==> r[k].agent == agent)
  {
  }

  /** The calls one task can get, and when. */
  lemma TaskCallsShape(agent: string, t: Task, handles: Task -> bool, c: ClaimReply, o: ProcessResult, x: Call)
    requires x in TaskCalls(agent, t, handles, c, o)
    ensures handles(t)
    ensures x == ClaimTask(t.id, agent)
         || (x == Processing(t.id) && c.Granted?)
         || (x == FailTask(t.id, agent, o.message) && c.Granted? && o.Threw?)
  {
  }

  /** Every call of the loop belongs to one of the fetched tasks. */
  lemma {:induction false} LoopCallOrigin(agent: string, tasks: seq<Task>, handles: Task -> bool,
                                          claims: seq<ClaimReply>, outcomes: seq<ProcessResult>)
    requires |claims| == |tasks| && |outcomes| == |tasks|
    ensures var c := LoopCalls(agent, tasks, handles, claims, outcomes);
      forall k :: 0 <= k < |c| ==>
        exists j :: 0 <= j < |tasks| && c[k] in TaskCalls(agent, tasks[j], handles, claims[j], outcomes[j])
    decreases |tasks|
  {
    if |tasks| > 0 {
      var head := TaskCalls(agent, tasks[0], handles, claims[0], outcomes[0]);
      var rest, rclaims, routs := tasks[1..], claims[1..], outcomes[1..];
      var tail := if Aborts(tasks[0], handles, claims[0]) then [] else LoopCalls(agent, rest, handles, rclaims, routs);
      var c := head + tail;
      assert c == LoopCalls(agent, tasks, handles, claims, outcomes);
      if !Aborts(tasks[0], handles, claims[0]) {
        LoopCallOrigin(agent, rest, handles, rclaims, routs);
      }
      forall k | 0 <= k < |c|
        ensures exists j :: 0 <= j < |tasks| && c[k] in TaskCalls(agent, tasks[j], handles, claims[j], outcomes[j])
      {
        if k < |head| {
          assert c[k] in TaskCalls(agent, tasks[0], handles, claims[0], outcomes[0]);
        } else {
          assert c[k] == LoopCalls(agent, rest, handles, rclaims, routs)[k - |head|];
          var j :| 0 <= j < |rest| && c[k] in TaskCalls(agent, rest[j], handles, rclaims[j], routs[j]);
          assert rest[j] == tasks[j + 1] && rclaims[j] == claims[j + 1] && routs[j] == outcomes[j + 1];
        }
      }
    }
  }

  /**
   * Only handled tasks are claimed, by this agent; `process` runs only on a task whose
   * claim was granted, and `failTask` names a task that ran and threw.
   */
  lemma LoopJustified(agent: string, tasks: seq<Task>, handles: Task -> bool,
                      claims: seq<ClaimReply>, outcomes: seq<ProcessResult>)
    requires |claims| == |tasks| && |outcomes| == |tasks|
    ensures var c := LoopCalls(agent, tasks, handles, claims, outcomes);
      && (forall k :: 0 <= k < |c| ==> c[k].ClaimTask? || c[k].Processing? || c[k].FailTask?)
      && (forall k :: 0 <= k < |c| && c[k].ClaimTask? ==>
            c[k].agent == agent && exists j :: 0 <= j < |tasks| && tasks[j].id == c[k].taskId && handles(tasks[j]))
      && (forall k :: 0 <= k < |c| && c[k].Processing? ==>
            exists j :: 0 <= j < |tasks| && tasks[j].id == c[k].taskId && handles(tasks[j]) && claims[j].Granted?)
      && (forall k :: 0 <= k < |c| && c[k].FailTask? ==>
            exists j :: 0 <= j < |tasks| && tasks[j].id == c[k].taskId && claims[j].Granted?
                        && outcomes[j] == Threw(c[k].message))
  {
    var c := LoopCalls(agent, tasks, handles, claims, outcomes);
    forall k | 0 <= k < |c|
      ensures c[k].ClaimTask? || c[k].Processing? || c[k].FailTask?
      ensures c[k].ClaimTask? ==>
        c[k].agent == agent && exists j :: 0 <= j < |tasks| && tasks[j].id == c[k].taskId && handles(tasks[j])
      ensures c[k].Processing? ==>
        exists j :: 0 <= j < |tasks| && tasks[j].id == c[k].taskId && handles(tasks[j]) && claims[j].Granted?
      ensures c[k].FailTask? ==>
        exists j :: 0 <= j < |tasks| && tasks[j].id == c[k].taskId && claims[j].Granted? && outcomes[j] == Threw(c[k].message)
    {
      LoopCallOrigin(agent, tasks, handles, claims, outcomes);
      assert c[k] == LoopCalls(agent, tasks, handles, claims, outcomes)[k];
      var j :| 0 <= j < |tasks| && c[k] in TaskCalls(agent, tasks[j], handles, claims[j], outcomes[j]);
      TaskCallsShape(agent, tasks[j], handles, claims[j], outcomes[j], c[k]);
    }
  }

  /**
   * A task that throws in `process` does not stop the loop: as long as no claim before
   * index `i` threw, the loop's calls are those of the first `i` tasks followed by those
   * of the rest.
   */
  lemma FailureContained(agent: string, tasks: seq<Task>, handles: Task -> bool,
                          claims: seq<ClaimReply>, outcomes: seq<ProcessResult>, i: nat)
    requires |claims| == |tasks| && |outcomes| == |tasks| && i <= |tasks|
    requires forall j :: 0 <= j < i ==> !Aborts(tasks[j], handles, claims[j])
    ensures LoopCalls(agent, tasks, handles, claims, outcomes)
         == LoopCalls(agent, tasks[..i], handles, claims[..i], outcomes[..i])
          + LoopCalls(agent, tasks[i..], handles, claims[i..], outcomes[i..])
  {
    FailureSpan(agent, tasks, handles, claims, outcomes, 0, i);
    assert tasks[0..] == tasks && claims[0..] == claims && outcomes[0..] == outcomes;
    assert tasks[0..i] == tasks[..i] && claims[0..i] == claims[..i] && outcomes[0..i] == outcomes[..i];
  }

  /** The loop from task `k` on is the loop over tasks `k` to `i`, then the loop from `i`, when none in between aborts. */
  lemma {:induction false} FailureSpan(agent: string, tasks: seq<Task>, handles: Task -> bool,
                                       claims: seq<ClaimReply>, outcomes: seq<ProcessResult>, k: nat, i: nat)
    requires |claims| == |tasks| && |outcomes| == |tasks| && k <= i <= |tasks|
    requires forall j {:trigger Aborts(tasks[j], handles, claims[j])} :: k <= j < i ==> !Aborts(tasks[j], handles, claims[j])
    ensures LoopCalls(agent, tasks[k..], handles, claims[k..], outcomes[k..])
         == LoopCalls(agent, tasks[k..i], handles, claims[k..i], outcomes[k..i])
          + LoopCalls(agent, tasks[i..], handles, claims[i..], outcomes[i..])
    decreases i - k
  {
    if k < i {
      FailureSpan(agent, tasks, handles, claims, outcomes, k + 1, i);
      LoopStep(agent, tasks, handles, claims, outcomes, k);
      SpanStep(agent, tasks, handles, claims, outcomes, k, i);
      var head := TaskCalls(agent, tasks[k], handles, claims[k], outcomes[k]);
      var mid := LoopCalls(agent, tasks[k + 1..i], handles, claims[k + 1..i], outcomes[k + 1..i]);
      var rest := LoopCalls(agent, tasks[i..], handles, claims[i..], outcomes[i..]);
      Seqs.AppendAssoc(head, mid, rest);
    } else {
      assert tasks[k..i] == [];
    }
  }

  /** The loop over tasks `k` to `i` starts with task `k`'s calls when that task does not abort. */
  lemma SpanStep(agent: string, tasks: seq<Task>, handles: Task -> bool,
                 claims: seq<ClaimReply>, outcomes: seq<ProcessResult>, k: nat, i: nat)
    requires |claims| == |tasks| && |outcomes| == |tasks| && k < i <= |tasks|
    requires !Aborts(tasks[k], handles, claims[k])
    ensures LoopCalls(agent, tasks[k..i], handles, claims[k..i], outcomes[k..i])
         == TaskCalls(agent, tasks[k], handles, claims[k], outcomes[k])
          + LoopCalls(agent, tasks[k + 1..i], handles, claims[k + 1..i], outcomes[k + 1..i])
  {
    assert tasks[k..i][1..] == tasks[k + 1..i] && claims[k..i][1..] == claims[k + 1..i];
    assert outcomes[k..i][1..] == outcomes[k + 1..i];
  }

  /**
   * When no claim throws, every handled task is claimed, every granted one is processed,
   * and every granted one whose `process` threw is reported with `failTask`.
   */
  lemma {:induction false} HandledTasksVisited(agent: string, tasks: seq<Task>, handles: Task -> bool,
                                               claims: seq<ClaimReply>, outcomes: seq<ProcessResult>)
    requires |claims| == |tasks| && |outcomes| == |tasks|
    requires forall j :: 0 <= j < |tasks| ==> !claims[j].ClaimThrew?
    ensures var c := LoopCalls(agent, tasks, handles, claims, outcomes);
      forall j :: 0 <= j < |tasks| && handles(tasks[j]) ==>
        && ClaimTask(tasks[j].id, agent) in c
        && (claims[j].Granted? ==> Processing(tasks[j].id) in c)
        && (claims[j].Granted? && outcomes[j].Threw? ==> FailTask(tasks[j].id, agent, outcomes[j].message) in c)
    decreases |tasks|
  {
    if |tasks| > 0 {
      HandledTasksVisited(agent, tasks[1..], handles, claims[1..], outcomes[1..]);
      var head := TaskCalls(agent, tasks[0], handles, claims[0], outcomes[0]);
      var tail := LoopCalls(agent, tasks[1..], handles, claims[1..], outcomes[1..]);
      assert LoopCalls(agent, tasks, handles, claims, outcomes) == head + tail;
      forall j | 1 <= j < |tasks| && handles(tasks[j])
        ensures ClaimTask(tasks[j].id, agent) in head + tail
        ensures claims[j].Granted? ==> Processing(tasks[j].id) in head + tail
        ensures claims[j].Granted? && outcomes[j].Threw? ==> FailTask(tasks[j].id, agent, outcomes[j].message) in head + tail
      {
        assert tasks[j] == tasks[1..][j - 1] && claims[j] == claims[1..][j - 1] && outcomes[j] == outcomes[1..][j - 1];
      }
    }
  }

  /** One turn of the task loop: the calls from task `i` on are task `i`'s, then (unless it aborts) the rest. */
  lemma LoopStep(agent: string, tasks: seq<Task>, handles: Task -> bool,
                 claims: seq<ClaimReply>, outcomes: seq<ProcessResult>, i: nat)
    requires |claims| == |tasks| && |outcomes| == |tasks| && i < |tasks|
    ensures LoopCalls(agent, tasks[i..], handles, claims[i..], outcomes[i..])
         == TaskCalls(agent, tasks[i], handles, claims[i], outcomes[i])
          + (if Aborts(tasks[i], handles, claims[i]) then []
             else LoopCalls(agent, tasks[i + 1..], handles, claims[i + 1..], outcomes[i + 1..]))
  {
    assert tasks[i..][1..] == tasks[i + 1..] && claims[i..][1..] == claims[i + 1..] && outcomes[i..][1..] == outcomes[i + 1..];
  }

  /** The base blackboard agent: its configuration, the running flag and the armed poll timer. */
  class Agent {
    const config: AgentConfig
    var isRunning: bool
    /** The delay of the armed `setTimeout`, `None` when no timer is pending. */
    var pollTimer: Option<nat>

    constructor (config: AgentConfig)
      ensures this.config == config && !isRunning && pollTimer.None?
    {
      this.config := config;
      isRunning := false;
      pollTimer := None;
    }

    function Name(): string {
      config.name
    }

    /** `pollInterval || 2000`. */
    function PollDelay(): (d: nat)
      ensures d > 0
      ensures config.pollInterval.Some? && config.pollInterval.value != 0 ==> d == config.pollInterval.value
      ensures config.pollInterval.None? || config.pollInterval.value == 0 ==> d == DefaultPollInterval
    {
      CountOr(config.pollInterval, DefaultPollInterval)
    }

    /** `getStatus`. */
    function Status(): (s: AgentStatus)
      reads this
      ensures s.running <==> isRunning
      ensures s.name == config.displayName && s.capabilities == config.capabilities
    {
      AgentStatus(config.displayName, isRunning, config.capabilities)
    }

    /**
     * `poll`: nothing at all when the agent is not running. Otherwise it fetches the
     * pending tasks, claims each one it can handle, runs `process` on a granted claim
     * and reports a throwing `process` with `failTask`, then re-arms the timer, even
     * when fetching or claiming threw.
     */
    method Poll(svc: Services, fetch: Fetch, handles: Task -> bool,
                claims: seq<ClaimReply>, outcomes: seq<ProcessResult>)
      requires fetch.Fetched? ==> |claims| == |fetch.tasks| && |outcomes| == |fetch.tasks|
      modifies this`pollTimer, svc
      ensures !old(isRunning) ==> svc.calls == old(svc.calls) && pollTimer == old(pollTimer)
      ensures old(isRunning) ==>
        svc.calls == old(svc.calls) + PollCalls(Name(), fetch, handles, claims, outcomes) && pollTimer == Some(PollDelay())
    {
      if !isRunning {
        return;
      }
      ghost var start := svc.calls;
      svc.Record(GetPendingTasks(Name()));
      if fetch.Fetched? {
        VisitTasks(svc, fetch.tasks, handles, claims, outcomes);
        Seqs.AppendAssoc(start, [GetPendingTasks(Name())], LoopCalls(Name(), fetch.tasks, handles, claims, outcomes));
      }
      pollTimer := Some(PollDelay());
    }

    /** `poll`'s task loop: the fetched tasks in order, until a claim throws. */
    method VisitTasks(svc: Services, tasks: seq<Task>, handles: Task -> bool,
                      claims: seq<ClaimReply>, outcomes: seq<ProcessResult>)
      requires |claims| == |tasks| && |outcomes| == |tasks|
      modifies svc
      ensures svc.calls == old(svc.calls) + LoopCalls(Name(), tasks, handles, claims, outcomes)
    {
      ghost var all := svc.calls + LoopCalls(Name(), tasks, handles, claims, outcomes);
      assert tasks[0..] == tasks && claims[0..] == claims && outcomes[0..] == outcomes;
      var i, aborted := 0, false;
      while i < |tasks| && !aborted
        invariant 0 <= i <= |tasks|
        invariant aborted ==> svc.calls == all
        invariant !aborted ==> svc.calls + LoopCalls(Name(), tasks[i..], handles, claims[i..], outcomes[i..]) == all
      {
        ghost var before := svc.calls;
        ghost var rest := LoopCalls(Name(), tasks[i + 1..], handles, claims[i + 1..], outcomes[i + 1..]);
        ghost var here := TaskCalls(Name(), tasks[i], handles, claims[i], outcomes[i]);
        LoopStep(Name(), tasks, handles, claims, outcomes, i);
        aborted := VisitTask(svc, tasks[i], handles, claims[i], outcomes[i]);
        assert svc.calls == before + here;
        if !aborted {
          Seqs.AppendAssoc(before, here, rest);
        }
        i := i + 1;
      }
    }

    /**
     * One turn of `poll`'s task loop: claim a task this agent handles, run `process`
     * on a granted claim and report a throwing `process`; `aborted` when the claim threw.
     */
    method VisitTask(svc: Services, t: Task, handles: Task -> bool, claim: ClaimReply, outcome: ProcessResult)
      returns (aborted: bool)
      modifies svc
      ensures aborted == Aborts(t, handles, claim)
      ensures svc.calls == old(svc.calls) + TaskCalls(Name(), t, handles, claim, outcome)
    {
      aborted := false;
      if handles(t) {
        svc.Record(ClaimTask(t.id, Name()));
        if claim.ClaimThrew? {
          return true;
        }
        if claim.Granted? {
          svc.Record(Processing(t.id));
          if outcome.Threw? {
            svc.Record(FailTask(t.id, Name(), outcome.message));
          }
        }
      }
    }

    /** `start`: a no-op when already running; otherwise sets the flag and polls once. */
    method Start(svc: Services, fetch: Fetch, handles: Task -> bool,
                 claims: seq<ClaimReply>, outcomes: seq<ProcessResult>)
      requires fetch.Fetched? ==> |claims| == |fetch.tasks| && |outcomes| == |fetch.tasks|
      modifies this`isRunning, this`pollTimer, svc
      ensures isRunning
      ensures old(isRunning) ==> svc.calls == old(svc.calls) && pollTimer == old(pollTimer)
      ensures !old(isRunning) ==>
        svc.calls == old(svc.calls) + PollCalls(Name(), fetch, handles, claims, outcomes) && pollTimer == Some(PollDelay())
    {
      if isRunning {
        return;
      }
      isRunning := true;
      Poll(svc, fetch, handles, claims, outcomes);
    }

    /** `stop`: clears the running flag and any pending timer. */
    method Stop()
      modifies this`isRunning, this`pollTimer
      ensures !isRunning && pollTimer.None?
    {
      isRunning := false;
      pollTimer := None;
    }

    /** `log`: the action goes to the blackboard, and an audit entry with clipped text to governance. */
    method Log(svc: Services, taskId: int, action: string, thought: string, observation: Option<string>)
      modifies svc
      ensures svc.calls == old(svc.calls) + LogCalls(Name(), taskId, action, thought, observation)
    {
      svc.Record(LogAction(taskId, Name(), action, thought, observation));
      var justification := if observation.Some? then Some(Clip(observation.value, 500)) else None;
      svc.Record(RecordAudit(Name(), action, Clip(thought, 200), "logged", justification, taskId));
    }

    /** `generateWithAI`: the agent's own system prompt unless one is given, at most 8000 tokens, enriched. */
    method GenerateWithAI(manus: ManusIntelligence, prompt: string, systemPrompt: Option<string>,
                          search: Option<TG.ToolResult>, completion: Completion, now: int)
      returns (r: Result<string, string>, req: Request, lookup: Option<SearchRequest>)
      requires manus.Valid()
      modifies manus`callCount, manus`tokenCount, manus`errorCount, manus`lastCallAt
      ensures manus.Valid() && manus.callCount == old(manus.callCount) + 1
      ensures req.system == TG.OrElse(systemPrompt, config.systemPrompt) && req.maxTokens == DefaultMaxTokens
      ensures req.user == Enriched(prompt, true, search) && lookup == Some(EnrichSearch(prompt))
      ensures completion.Completed? ==> r == Ok(completion.content.GetOr(""))
      ensures completion.RequestFailed? ==> r == Err(completion.message)
    {
      r, req, lookup := manus.Generate(TG.OrElse(systemPrompt, config.systemPrompt), prompt, Some(DefaultMaxTokens), None,
                               search, completion, now);
    }
  }

  /** `s.slice(0, n)`. */
  function Clip(s: string, n: nat): (r: string)
    ensures |r| <= n && r <= s
    ensures |s| <= n ==> r == s
  {
    if |s| <= n then s else s[..n]
  }

  /** The two calls of an agent's `log`: the action itself, then an audit entry with at most 200 and 500 characters. */
  function LogCalls(agent: string, taskId: int, action: string, thought: string, observation: Option<string>): seq<Call> {
    [LogAction(taskId, agent, action, thought, observation),
     RecordAudit(agent, action, Clip(thought, 200), "logged",
                 if observation.Some? then Some(Clip(observation.value, 500)) else None, taskId)]
  }

  /** A log is the action, then its audit entry, whose texts are prefixes of at most 200 and 500 characters. */
  lemma LogCallsAudit(agent: string, taskId: int, action: string, thought: string, observation: Option<string>)
    ensures var r := LogCalls(agent, taskId, action, thought, observation);
      && |r| == 2 && r[0] == LogAction(taskId, agent, action, thought, observation)
      && (forall c :: c in r ==> c.LogAction? || c.RecordAudit?)
      && r[1].RecordAudit? && r[1].agent == agent && r[1].decision == "logged" && r[1].taskId == taskId
      && |r[1].target| <= 200 && r[1].target <= thought
      && (r[1].justification.Some? <==> observation.Some?)
      && (r[1].justification.Some? ==> |r[1].justification.value| <= 500 && r[1].justification.value <= observation.value)
  {
  }

  /** An artifact as the think context lists it. */
  datatype ArtifactView = ArtifactView(name: string, kind: string, content: Option<string>)

  /** `- name (type): <first 500 characters>...`; a missing content prints as `undefined`. */
  function ArtifactLine(a: ArtifactView): string {
    "- " + a.name + " (" + a.kind + "): " + (if a.content.Some? then Clip(a.content.value, 500) else "undefined") + "..."
  }

  function ArtifactLines(artifacts: seq<ArtifactView>): (r: seq<string>)
    ensures |r| == |artifacts|
    ensures forall k :: 0 <= k < |artifacts| ==> r[k] == ArtifactLine(artifacts[k])
  {
    if |artifacts| == 0 then [] else [ArtifactLine(artifacts[0])] + ArtifactLines(artifacts[1..])
  }

  const ThinkInstruction: string :=
    "\n\nResponda em JSON: { \"thought\": \"seu raciocínio\", \"action\": \"próxima ação\", \"actionInput\": {}, \"finished\": true/false, \"result\": \"se finished=true\" }"

  /** The task context an agent's `think` sends to the facade. */
  const TaskLabel: string := "TAREFA: "
  const DescriptionLabel: string := "\n\nDESCRIÇÃO: "
  const ContextLabel: string := "\n\nCONTEXTO: "
  const ArtifactsLabel: string := "\n\nArtefatos disponíveis:\n"

  /** The artifact block of the think context: nothing without artifacts, else a header and one line per artifact. */
  function ArtifactBlock(artifacts: seq<ArtifactView>): (r: string)
    ensures r == "" <==> |artifacts| == 0
    ensures forall k :: 0 <= k < |artifacts| ==> Contains(r, ArtifactLine(artifacts[k]))
  {
    if |artifacts| == 0 then ""
    else
      var lines := ArtifactLines(artifacts);
      var r := ArtifactsLabel + Join(lines, "\n");
      assert |r| >= |ArtifactsLabel| > 0;
      forall k | 0 <= k < |artifacts| ensures Contains(r, ArtifactLine(artifacts[k])) {
        JoinContains(lines, "\n", k);
        ContainsAfter(ArtifactsLabel, Join(lines, "\n"), lines[k]);
      }
      r
  }

  /**
   * The task context: title, description and context under their labels, the
   * artifact block, and the instruction to answer in JSON.
   */
  function ThinkContext(task: Task, context: string, artifacts: seq<ArtifactView>): (r: string)
    ensures StartsWith(r, TaskLabel + task.title + DescriptionLabel)
    ensures EndsWith(r, ThinkInstruction)
    ensures r == TaskLabel + task.title + DescriptionLabel + task.description + ContextLabel + context
                 + ArtifactBlock(artifacts) + ThinkInstruction
    ensures forall k :: 0 <= k < |artifacts| ==> Contains(r, ArtifactLine(artifacts[k]))
  {
    var block := ArtifactBlock(artifacts);
    LabelledParts(TaskLabel, task.title, DescriptionLabel, task.description, ContextLabel, context, block, ThinkInstruction);
    TaskLabel + task.title + DescriptionLabel + task.description + ContextLabel + context + block + ThinkInstruction
  }

  /** Six labelled parts, a block and an instruction: the first three open the text, the instruction closes it, the block sits inside. */
  lemma LabelledParts(a: string, b: string, c: string, d: string, e: string, f: string, block: string, instr: string)
    ensures var r := a + b + c + d + e + f + block + instr;
      && StartsWith(r, a + b + c) && EndsWith(r, instr)
      && forall p :: Contains(block, p) ==> Contains(r, p)
  {
    var r := a + b + c + d + e + f + block + instr;
    assert r == (a + b + c) + (d + e + f + block) + instr;
    Framed(a + b + c, d + e + f + block, instr);
    forall p | Contains(block, p) ensures Contains(r, p) {
      ContainsWithin(a + b + c + d + e + f, block, instr, p);
    }
  }
}
