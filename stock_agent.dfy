/**
 * The stock-graph extension's agent: the prompt sent to Gemini, the parser
 * that classifies a reply by its literal prefix, and the bounded loop of the
 * analyze button. The model, `JSON.parse`, the tool server behind
 * `callFunction` and `JSON.stringify` are the four fields of an `Env`.
 */
module StockAgent {
  import opened Results
  import opened Text

  /** The JavaScript values a reply's parameters or a tool's result can be. */
  datatype Value =
    | Undefined
    | Null
    | Bool(b: bool)
    | Number(repr: string)
    | Str(s: string)
    | List(items: seq<Value>)
    | Object(members: seq<(string, Value)>)

  /**
   * The outside world. `generate(k, prompt)` is the text of the model's answer
   * to the k-th prompt (`Err` with the thrown message when the request fails);
   * `parseJson` is `JSON.parse` (`None` when it throws); `callTool(name, params)`
   * is the `result` field of the tool server's answer (`Err` with the message
   * `callFunction` wraps); `stringify` is `JSON.stringify` as a template literal
   * renders it.
   */
  datatype Env = Env(
    generate: (nat, string) -> Result<string, string>,
    parseJson: string -> Option<Value>,
    callTool: (string, Value) -> Result<Value, string>,
    stringify: Value -> string)

  const SystemPrompt: string :=
    "\n" +
    "You are a stock market agent who solves problem in iteration.\n" +
    "\n" +
    "Respond in EXACTLY ONE of these formats:\n" +
    "\n" +
    "1. FUNCTION_CALL: python_function_name|jsonified_parameter_string\n" +
    "2. TASK_COMPLETE: <task_complete_message>\n" +
    "3. INSUFFICIENT_TOOLS: <advise what additional tools are required>\n" +
    "\n" +
    "\n" +
    "You have the following tools at hand. You are supposed to complete the task only using the following tools.\n" +
    "\n" +
    "where python_function_name is one of the following:\n" +
    "1. get_stock_news(stock_name,from_date,to_date)\n" +
    "2. get_stock_price(stock_name,date)\n" +
    "3. plot_graph\n" +
    "\n" +
    "\n" +
    "For example: if you are responding for getting stock news for stock named Ola for last 3 days, then you should return:\n" +
    "get_stock_news|{\"stock_name\":\"OLA\",\"from_date\":\"2024-04-28\",\"to_date\":\"2024-05-01\"}\n" +
    "\n" +
    "DO NOT include multiple responses. Give ONE response at a time.\n" +
    "DO NOT GIVE EXPLANATION OR REASONING. JUST RETURN THE RESPONSE IN THE SPECIFIED FORMAT.\n" +
    "DO NOT BREACH THE CONTRACT OF RESPONSE FORMAT!!!!!\n"

  const FunctionCallPrefix := "FUNCTION_CALL:"
  const TaskCompletePrefix := "TASK_COMPLETE:"
  const InsufficientToolsPrefix := "INSUFFICIENT_TOOLS:"
  const MaxIterations: nat := 5

  // ---------------------------------------------------------------------------
  // The reply parser
  // ---------------------------------------------------------------------------

  /** A reply, classified by its prefix; `params` is `None` when the call has no `|`. */
  datatype Directive =
    | FunctionCall(name: string, params: Option<string>)
    | TaskComplete(message: string)
    | InsufficientTools(message: string)
    | Unrecognised

  /** `text.split(prefix)[1].trim()`: the trimmed text between the first occurrence of the prefix and the next. */
  function AfterPrefix(text: string, prefix: string): string
    requires |prefix| > 0 && StartsWith(text, prefix)
  {
    SplitLeadingSeparator(prefix, text[|prefix|..]);
    assert text == prefix + text[|prefix|..];
    JsTrim(Split(text, prefix)[1])
  }

  /**
   * The prefix tests of `processLLMResponse`, in order. A call's text is split
   * on every `|`; the first two pieces, trimmed, are the name and the parameters.
   */
  function ParseDirective(reply: string): Directive {
    if StartsWith(reply, FunctionCallPrefix) then
      var parts := Split(AfterPrefix(reply, FunctionCallPrefix), "|");
      FunctionCall(JsTrim(parts[0]), if |parts| >= 2 then Some(JsTrim(parts[1])) else None)
    else if StartsWith(reply, TaskCompletePrefix) then
      TaskComplete(AfterPrefix(reply, TaskCompletePrefix))
    else if StartsWith(reply, InsufficientToolsPrefix) then
      InsufficientTools(AfterPrefix(reply, InsufficientToolsPrefix))
    else
      Unrecognised
  }

  /**
   * `processLLMResponse(responseText)`: a call whose parameters do not parse
   * fails before any tool runs; a tool failure is wrapped; the two messages are
   * returned as strings; anything else is rejected.
   */
  function ProcessResponse(reply: string, env: Env): Result<Value, string> {
    match ParseDirective(reply)
    case FunctionCall(name, params) =>
      // `JSON.parse(undefined)` throws as well
      if params.None? || env.parseJson(params.value).None? then Err("Invalid parameter format in LLM response")
      else
        (match env.callTool(name, env.parseJson(params.value).value)
         case Ok(v) => Ok(v)
         case Err(m) => Err("Function call failed: " + m))
    case TaskComplete(m) => Ok(Str(m))
    case InsufficientTools(m) => Ok(Str(m))
    case Unrecognised => Err("Invalid LLM response format")
  }

  /** A character other than the pattern's first, put in front, adds no occurrence. */
  lemma ConsKeepsAbsent(c: char, x: string, p: string)
    requires |p| > 0 && p[0] != c && !Contains(x, p)
    ensures !Contains([c] + x, p)
  {
    var s := [c] + x;
    assert s[1..] == x;
    ContainsIff(x, p);
    ContainsIff(s, p);
    forall k | 0 <= k ensures !Occurs(s, p, k) {
      if k > 0 {
        OccursShift(s, p, k - 1);
      } else if |p| <= |s| {
        assert s[..|p|][0] == c;
      }
    }
  }

  /** After a single occurrence of the prefix, the text taken is the rest of the reply, trimmed. */
  lemma AfterPrefixOfFresh(prefix: string, body: string)
    requires |prefix| > 0 && !Contains(body, prefix)
    ensures StartsWith(prefix + body, prefix)
    ensures AfterPrefix(prefix + body, prefix) == JsTrim(body)
  {
    var text := prefix + body;
    assert text[..|prefix|] == prefix && text[|prefix|..] == body;
    SplitLeadingSeparator(prefix, body);
    SplitNoSeparator(body, prefix);
  }

  /** After a prefix and one space, a text with no surrounding whitespace and no second prefix is taken whole. */
  lemma SpacedBody(prefix: string, t: string)
    requires |prefix| > 0 && prefix[0] != ' ' && Bare(t, IsJsSpace) && !Contains(t, prefix)
    ensures StartsWith(prefix + " " + t, prefix)
    ensures AfterPrefix(prefix + " " + t, prefix) == t
  {
    var body := [' '] + t;
    ConsKeepsAbsent(' ', t, prefix);
    assert prefix + " " + t == prefix + body;
    AfterPrefixOfFresh(prefix, body);
    assert JsTrim(body) == t by {
      assert AllSpace(" ", IsJsSpace) by { assert IsJsSpace(" "[0]); }
      TrimPadded(" ", t, "", IsJsSpace);
      assert " " + t + "" == body;
    }
  }

  /** The text after `FUNCTION_CALL: ` is taken whole when it has no surrounding whitespace and no second prefix. */
  lemma CallBody(t: string)
    requires Bare(t, IsJsSpace) && !Contains(t, FunctionCallPrefix)
    ensures StartsWith(FunctionCallPrefix + " " + t, FunctionCallPrefix)
    ensures AfterPrefix(FunctionCallPrefix + " " + t, FunctionCallPrefix) == t
  {
    assert FunctionCallPrefix[0] == 'F';
    SpacedBody(FunctionCallPrefix, t);
  }

  /** A call text whose name and parameters have no `|` splits into exactly those two pieces. */
  lemma SplitCallText(name: string, params: string)
    requires '|' !in name && '|' !in params
    ensures Split(name + "|" + params, "|") == [name, params]
  {
    SplitAtChar(name, '|', params);
    ContainsChar(params, '|');
    SplitNoSeparator(params, "|");
  }

  /** A call text starting with its name and ending with its last piece has no surrounding whitespace. */
  lemma CallTextBare(name: string, tail: string)
    requires Bare(name, IsJsSpace) && Bare(tail, IsJsSpace)
    ensures Bare(name + "|" + tail, IsJsSpace)
  {
    var t := name + "|" + tail;
    assert t[0] == (if name == [] then '|' else name[0]);
    assert t[|t| - 1] == (if tail == [] then '|' else tail[|tail| - 1]);
  }

  /** A call reply whose text after the prefix is taken whole is split on that text. */
  lemma ParseCallOf(t: string)
    requires Bare(t, IsJsSpace) && !Contains(t, FunctionCallPrefix)
    ensures var parts := Split(t, "|");
            ParseDirective(FunctionCallPrefix + " " + t)
            == FunctionCall(JsTrim(parts[0]), if |parts| >= 2 then Some(JsTrim(parts[1])) else None)
  {
    CallBody(t);
  }

  /**
   * `FUNCTION_CALL: name|params` is read back as a call of `name` with `params`,
   * when neither holds a `|` or surrounding whitespace and the prefix does not recur.
   */
  lemma FunctionCallRoundTrip(name: string, params: string)
    requires Bare(name, IsJsSpace) && Bare(params, IsJsSpace) && '|' !in name && '|' !in params
    requires !Contains(name + "|" + params, FunctionCallPrefix)
    ensures ParseDirective(FunctionCallPrefix + " " + (name + "|" + params)) == FunctionCall(name, Some(params))
  {
    CallTextBare(name, params);
    ParseCallOf(name + "|" + params);
    SplitCallText(name, params);
    TrimBareIsIdentity(name, IsJsSpace);
    TrimBareIsIdentity(params, IsJsSpace);
  }

  /** Pieces after the second `|` are dropped: the call is the same with or without them. */
  lemma ExtraSegmentsDropped(name: string, params: string, extra: string)
    requires Bare(name, IsJsSpace) && Bare(params, IsJsSpace) && Bare(extra, IsJsSpace)
    requires '|' !in name && '|' !in params
    requires !Contains(name + "|" + (params + "|" + extra), FunctionCallPrefix)
    ensures ParseDirective(FunctionCallPrefix + " " + (name + "|" + (params + "|" + extra))) == FunctionCall(name, Some(params))
  {
    CallTextBare(params, extra);
    CallTextBare(name, params + "|" + extra);
    ParseCallOf(name + "|" + (params + "|" + extra));
    SplitAtChar(name, '|', params + "|" + extra);
    SplitAtChar(params, '|', extra);
    TrimBareIsIdentity(name, IsJsSpace);
    TrimBareIsIdentity(params, IsJsSpace);
  }

  /** A call with no `|` at all has no parameter string, and is rejected before any tool runs. */
  lemma NoBarIsParameterError(reply: string, env: Env)
    requires StartsWith(reply, FunctionCallPrefix) && '|' !in reply
    ensures ParseDirective(reply).FunctionCall? && ParseDirective(reply).params.None?
    ensures ProcessResponse(reply, env) == Err("Invalid parameter format in LLM response")
  {
    var P := FunctionCallPrefix;
    var rest := reply[|P|..];
    assert reply == P + rest;
    SplitLeadingSeparator(P, rest);
    forall k | 0 <= k < |rest| ensures rest[k] != '|' { assert rest[k] == reply[|P| + k]; }
    SplitFirstWithin(rest, P, '|');
    TrimWithin(Split(rest, P)[0], IsJsSpace, '|');
    var text := AfterPrefix(reply, P);
    ContainsChar(text, '|');
    SplitNoSeparator(text, "|");
  }

  /** Parameters that do not parse fail the same way whatever the tool server would have done. */
  lemma ParamsFailureSkipsTools(reply: string, env: Env, otherTools: (string, Value) -> Result<Value, string>)
    requires ParseDirective(reply).FunctionCall?
    requires ParseDirective(reply).params.None? || env.parseJson(ParseDirective(reply).params.value).None?
    ensures ProcessResponse(reply, env) == Err("Invalid parameter format in LLM response")
    ensures ProcessResponse(reply, env.(callTool := otherTools)) == ProcessResponse(reply, env)
  {
  }

  /** A call whose parameters parse reaches the tool server with exactly the parsed value. */
  lemma ProcessFunctionCall(name: string, params: string, env: Env, value: Value)
    requires Bare(name, IsJsSpace) && Bare(params, IsJsSpace) && '|' !in name && '|' !in params
    requires !Contains(name + "|" + params, FunctionCallPrefix)
    requires env.parseJson(params) == Some(value)
    ensures var r := ProcessResponse(FunctionCallPrefix + " " + (name + "|" + params), env);
            match env.callTool(name, value)
            case Ok(v) => r == Ok(v)
            case Err(m) => r == Err("Function call failed: " + m)
  {
    FunctionCallRoundTrip(name, params);
  }

  /** The three prefixes differ in their first character, so at most one test can match. */
  lemma PrefixesExclusive(reply: string)
    ensures !(StartsWith(reply, FunctionCallPrefix) && StartsWith(reply, TaskCompletePrefix))
    ensures !(StartsWith(reply, FunctionCallPrefix) && StartsWith(reply, InsufficientToolsPrefix))
    ensures !(StartsWith(reply, TaskCompletePrefix) && StartsWith(reply, InsufficientToolsPrefix))
  {
    if |reply| > 0 {
      assert StartsWith(reply, FunctionCallPrefix) ==> reply[0] == 'F';
      assert StartsWith(reply, TaskCompletePrefix) ==> reply[0] == 'T';
      assert StartsWith(reply, InsufficientToolsPrefix) ==> reply[0] == 'I';
    }
  }

  /** `TASK_COMPLETE: message` gives back the message, trimmed, when the prefix does not recur. */
  lemma TaskCompleteRoundTrip(message: string)
    requires !Contains(message, TaskCompletePrefix)
    ensures ParseDirective(TaskCompletePrefix + message) == TaskComplete(JsTrim(message))
  {
    AfterPrefixOfFresh(TaskCompletePrefix, message);
    PrefixesExclusive(TaskCompletePrefix + message);
  }

  /** `INSUFFICIENT_TOOLS: advice` gives back the advice, trimmed, when the prefix does not recur. */
  lemma InsufficientToolsRoundTrip(advice: string)
    requires !Contains(advice, InsufficientToolsPrefix)
    ensures ParseDirective(InsufficientToolsPrefix + advice) == InsufficientTools(JsTrim(advice))
  {
    AfterPrefixOfFresh(InsufficientToolsPrefix, advice);
    PrefixesExclusive(InsufficientToolsPrefix + advice);
  }

  /**
   * A message is cut at the next `TASK_COMPLETE:`: whatever follows the first
   * `TASK_COMPLETE:` inside the body is lost.
   */
  lemma TaskCompleteStopsAtNext(body: string)
    requires Contains(body, TaskCompletePrefix)
    ensures ParseDirective(TaskCompletePrefix + body)
            == TaskComplete(JsTrim(body[..Find(body, TaskCompletePrefix).value]))
  {
    StopsAtNext(TaskCompletePrefix, body);
    PrefixesExclusive(TaskCompletePrefix + body);
  }

  /** The text after a prefix ends where the prefix next occurs. */
  lemma StopsAtNext(prefix: string, body: string)
    requires |prefix| > 0 && Contains(body, prefix)
    ensures StartsWith(prefix + body, prefix)
    ensures AfterPrefix(prefix + body, prefix) == JsTrim(body[..Find(body, prefix).value])
  {
    var reply := prefix + body;
    assert reply[..|prefix|] == prefix && reply[|prefix|..] == body;
    SplitLeadingSeparator(prefix, body);
  }

  /** A reply with none of the three prefixes is rejected. */
  lemma UnprefixedIsRejected(reply: string, env: Env)
    requires !StartsWith(reply, FunctionCallPrefix) && !StartsWith(reply, TaskCompletePrefix)
    requires !StartsWith(reply, InsufficientToolsPrefix)
    ensures ProcessResponse(reply, env) == Err("Invalid LLM response format")
  {
  }

  /**
   * The system prompt's example reply, `get_stock_news|{...}`, lacks the
   * `FUNCTION_CALL:` prefix, so a reply in that form is rejected whatever its parameters.
   */
  lemma PromptExampleIsRejected(params: string, env: Env)
    ensures ProcessResponse("get_stock_news|" + params, env) == Err("Invalid LLM response format")
  {
    var r := "get_stock_news|" + params;
    assert r[0] == 'g';
    assert !StartsWith(r, FunctionCallPrefix) by { assert FunctionCallPrefix[0] == 'F'; }
    assert !StartsWith(r, TaskCompletePrefix) by { assert TaskCompletePrefix[0] == 'T'; }
    assert !StartsWith(r, InsufficientToolsPrefix) by { assert InsufficientToolsPrefix[0] == 'I'; }
  }

  // ---------------------------------------------------------------------------
  // The loop
  // ---------------------------------------------------------------------------

  /** The task put to the model. */
  function BaseQuery(stockName: string, fromDate: string, toDate: string): string {
    "Analyze stock price of " + stockName + " from " + fromDate + " to " + toDate + " and plot the graph"
  }

  /** `currentQuery`: the base query, followed by the last result unless that is `null`. */
  function CurrentQuery(query: string, last: Value, stringify: Value -> string): string {
    if last == Null then query
    else query + "\nIn the previous iteration you responded with " + stringify(last) + ". What should I do next?"
  }

  function PromptFor(query: string): string {
    SystemPrompt + "\n\nQuery: " + query
  }

  /** The entry `iterationResponses` gets for iteration k (counted from 0). */
  function StepEntry(k: nat, reply: string): string {
    "Iteration " + NatToString(k + 1) + ": " + reply
  }

  /** `typeof result === 'string' && result.startsWith('data:image')`. */
  predicate IsPlot(v: Value) {
    v.Str? && StartsWith(v.s, "data:image")
  }

  datatype Failure =
    | GenerationFailed(message: string)   // thrown by `generateContent`
    | ProcessingFailed(message: string)   // thrown by `processLLMResponse`
    | OutOfIterations

  datatype Outcome =
    | NoModel                  // 'Please save your API key first'
    | NoStockName              // 'Please enter a stock symbol'
    | Plotted(image: string)
    | Failed(failure: Failure)

  /** What the page shows for a failure. */
  function ErrorMessage(f: Failure): string {
    match f
    case GenerationFailed(m) => "Error: " + m
    case ProcessingFailed(m) => "Error: Error processing LLM response: " + m
    case OutOfIterations => "Error: Maximum iterations reached without completion"
  }

  /**
   * The three things a round of the loop does: `queryAfter(last)` is the query
   * put after the result `last`, `ask(k, q)` is the model's answer, trimmed,
   * when round k puts query q, and `process` handles that answer.
   */
  datatype Agent = Agent(
    queryAfter: Value -> string,
    ask: (nat, string) -> Result<string, string>,
    process: string -> Result<Value, string>)

  /**
   * The handler's own rounds on the base query: `currentQuery`, the model
   * seeing `${SYSTEM_PROMPT}\n\nQuery: ${currentQuery}`, and `processLLMResponse`.
   */
  function AgentOf(query: string, env: Env): Agent {
    Agent((last: Value) => CurrentQuery(query, last, env.stringify),
          (k: nat, q: string) => Trimmed(env.generate(k, PromptFor(q))),
          (r: string) => ProcessResponse(r, env))
  }

  /** `result.response.text().trim()`; a failed request stays a failure. */
  function Trimmed(generated: Result<string, string>): Result<string, string> {
    match generated
    case Ok(text) => Ok(JsTrim(text))
    case Err(m) => Err(m)
  }

  /** Everything a run produced, oldest first: each round's query, reply and result. */
  datatype Trace = Trace(queries: seq<string>, replies: seq<string>, results: seq<Value>)

  datatype Run = Run(outcome: Outcome, trace: Trace)

  const EmptyTrace := Trace([], [], [])

  /** The three points at which a round logs something: its query, its reply, its result. */
  function Asked(agent: Agent, last: Value, t: Trace): Trace {
    t.(queries := t.queries + [agent.queryAfter(last)])
  }

  function Replied(t: Trace, reply: string): Trace {
    t.(replies := t.replies + [reply])
  }

  function Recorded(t: Trace, v: Value): Trace {
    t.(results := t.results + [v])
  }

  /** The loop from iteration k, with `last` the previous result and `t` what came before. */
  function RunLoop(agent: Agent, k: nat, last: Value, t: Trace): Run
    decreases MaxIterations - k
  {
    if k >= MaxIterations then Run(Failed(OutOfIterations), t)
    else
      var t1 := Asked(agent, last, t);
      match agent.ask(k, agent.queryAfter(last))
      case Err(m) => Run(Failed(GenerationFailed(m)), t1)
      case Ok(reply) =>
        var t2 := Replied(t1, reply);
        match agent.process(reply)
        case Err(m) => Run(Failed(ProcessingFailed(m)), t2)
        case Ok(v) =>
          if IsPlot(v) then Run(Plotted(v.s), Recorded(t2, v)) else RunLoop(agent, k + 1, v, Recorded(t2, v))
  }

  /** The analyze button, as a function of the inputs and the environment. */
  function Analysis(hasModel: bool, stockName: string, fromDate: string, toDate: string, env: Env): Run {
    if !hasModel then Run(NoModel, EmptyTrace)
    else if stockName == "" then Run(NoStockName, EmptyTrace)
    else RunLoop(AgentOf(BaseQuery(stockName, fromDate, toDate), env), 0, Null, EmptyTrace)
  }

  /** `iterationResponses` after rounds whose replies were `replies`: entry i is `Iteration ${i + 1}: ${reply}`. */
  function StepLog(replies: seq<string>): (log: seq<string>)
    ensures |log| == |replies|
  {
    if replies == [] then []
    else StepLog(replies[..|replies| - 1]) + [StepEntry(|replies| - 1, replies[|replies| - 1])]
  }

  /** Entry i of the log is round i's reply, numbered from 1. */
  lemma {:induction false} StepLogEntries(replies: seq<string>)
    ensures forall i :: 0 <= i < |replies| ==> StepLog(replies)[i] == StepEntry(i, replies[i])
    decreases |replies|
  {
    if replies != [] {
      var init := replies[..|replies| - 1];
      StepLogEntries(init);
      assert forall i :: 0 <= i < |init| ==> init[i] == replies[i];
    }
  }

  /**
   * The analyze handler: the two guards, then the loop on the handler's own
   * rounds; it computes exactly `Analysis`, and `steps` is `iterationResponses`.
   */
  method Analyze(hasModel: bool, stockName: string, fromDate: string, toDate: string, env: Env)
    returns (run: Run, steps: seq<string>)
    ensures run == Analysis(hasModel, stockName, fromDate, toDate, env)
    ensures |run.trace.results| <= |run.trace.replies| && steps == StepLog(run.trace.replies[..|run.trace.results|])
  {
    if !hasModel {
      return Run(NoModel, EmptyTrace), [];
    }
    if stockName == "" {
      return Run(NoStockName, EmptyTrace), [];
    }
    // `currentQuery`, `model.generateContent` on the full prompt, `processLLMResponse`
    run, steps := RunRounds(AgentOf(BaseQuery(stockName, fromDate, toDate), env));
  }

  /** The `while` loop of the handler, step by step; it computes exactly `RunLoop` from the start. */
  method RunRounds(agent: Agent) returns (run: Run, steps: seq<string>)
    ensures run == RunLoop(agent, 0, Null, EmptyTrace)
    ensures |run.trace.results| <= |run.trace.replies| && steps == StepLog(run.trace.replies[..|run.trace.results|])
  {
    steps := [];
    var k: nat := 0;
    var last := Null;
    var t := EmptyTrace;
    while k < MaxIterations
      invariant k <= MaxIterations && |t.results| == k && |t.replies| == k
      invariant steps == StepLog(t.replies)
      invariant RunLoop(agent, k, last, t) == RunLoop(agent, 0, Null, EmptyTrace)
      decreases MaxIterations - k
    {
      ghost var before := t;
      var currentQuery := agent.queryAfter(last);
      t := t.(queries := t.queries + [currentQuery]);
      var generated := agent.ask(k, currentQuery);
      if generated.Err? {
        assert t.replies[..k] == t.replies;
        return Run(Failed(GenerationFailed(generated.error)), t), steps;
      }
      var reply := generated.value;
      t := t.(replies := t.replies + [reply]);
      assert t.replies[..k] == before.replies && t.replies[..k + 1] == t.replies;
      var processed := agent.process(reply);
      if processed.Err? {
        return Run(Failed(ProcessingFailed(processed.error)), t), steps;
      }
      last := processed.value;
      t := t.(results := t.results + [last]);
      steps := steps + [StepEntry(k, reply)];
      if IsPlot(last) {
        return Run(Plotted(last.s), t), steps;
      }
      k := k + 1;
    }
    assert t.replies[..k] == t.replies;
    run := Run(Failed(OutOfIterations), t);
  }

  // ---------------------------------------------------------------------------
  // What a run is, stated round by round
  // ---------------------------------------------------------------------------

  /** The result before round k: `null` at the start. */
  function Prev(results: seq<Value>, k: nat): Value
    requires k <= |results|
  {
    if k == 0 then Null else results[k - 1]
  }

  /** Round k's query is the one put after the result of round k - 1. */
  ghost predicate QueryOk(agent: Agent, t: Trace, k: nat) {
    k < |t.queries| && k <= |t.results|
    && t.queries[k] == agent.queryAfter(Prev(t.results, k))
  }

  /** Round k's reply is the model's trimmed answer to round k's query. */
  ghost predicate ReplyOk(agent: Agent, t: Trace, k: nat) {
    k < |t.replies| && k < |t.queries|
    && agent.ask(k, t.queries[k]).Ok? && t.replies[k] == agent.ask(k, t.queries[k]).value
  }

  /** Round k's result is what processing its reply returned, and its step is logged. */
  ghost predicate ResultOk(agent: Agent, t: Trace, k: nat) {
    k < |t.results| && k < |t.replies| && agent.process(t.replies[k]) == Ok(t.results[k])
  }

  /** The first n rounds completed, each as the handler runs it. */
  ghost predicate Rounds(agent: Agent, t: Trace, n: nat) {
    |t.results| == n && n <= |t.replies| <= |t.queries|
    && forall k :: 0 <= k < n ==> QueryOk(agent, t, k) && ReplyOk(agent, t, k) && ResultOk(agent, t, k)
  }

  /** None of the first m results is a plot. */
  ghost predicate NoPlotBefore(t: Trace, m: nat) {
    forall k :: 0 <= k < m && k < |t.results| ==> !IsPlot(t.results[k])
  }

  /**
   * A run of the loop: some rounds completed, none of them with a
   * plot except possibly the last, and the outcome says how the loop stopped.
   */
  ghost predicate Explains(agent: Agent, run: Run) {
    var t := run.trace;
    var n := |t.results|;
    Rounds(agent, t, n) && |t.queries| <= MaxIterations
    && match run.outcome
       case Plotted(image) =>
         n > 0 && |t.queries| == n && |t.replies| == n && NoPlotBefore(t, n - 1)
         && IsPlot(t.results[n - 1]) && image == t.results[n - 1].s
       case Failed(GenerationFailed(m)) =>
         |t.queries| == n + 1 && |t.replies| == n && NoPlotBefore(t, n)
         && QueryOk(agent, t, n) && agent.ask(n, t.queries[n]) == Err(m)
       case Failed(ProcessingFailed(m)) =>
         |t.queries| == n + 1 && |t.replies| == n + 1 && NoPlotBefore(t, n)
         && QueryOk(agent, t, n) && ReplyOk(agent, t, n) && agent.process(t.replies[n]) == Err(m)
       case Failed(OutOfIterations) =>
         n == MaxIterations && |t.queries| == n && |t.replies| == n && NoPlotBefore(t, n)
       case _ => false
  }

  /** The state at the top of round k: k rounds done, none with a plot, `last` the newest result. */
  ghost predicate LoopState(agent: Agent, k: nat, last: Value, t: Trace) {
    k <= MaxIterations && Rounds(agent, t, k) && |t.queries| == k && |t.replies| == k
    && NoPlotBefore(t, k) && last == Prev(t.results, k)
  }

  /** `u` continues `t`: each of its four logs starts with the corresponding log of `t`. */
  ghost predicate Extends(t: Trace, u: Trace) {
    t.queries <= u.queries && t.replies <= u.replies && t.results <= u.results
  }

  /** Appending to the logs keeps the rounds already completed. */
  lemma RoundsExtend(agent: Agent, t: Trace, u: Trace, n: nat)
    requires Rounds(agent, t, n) && Extends(t, u)
    requires |u.results| == n && |u.replies| <= |u.queries|
    ensures Rounds(agent, u, n)
  {
    forall k | 0 <= k < n ensures QueryOk(agent, u, k) && ReplyOk(agent, u, k) && ResultOk(agent, u, k) {
      assert QueryOk(agent, t, k) && ReplyOk(agent, t, k) && ResultOk(agent, t, k);
      assert u.queries[k] == t.queries[k] && u.replies[k] == t.replies[k];
      assert u.results[k] == t.results[k];
      if k > 0 { assert u.results[k - 1] == t.results[k - 1]; }
    }
  }

  /** One completed round on top of k completed rounds. */
  lemma RoundsStep(agent: Agent, t: Trace, k: nat, v: Value, reply: string)
    requires Rounds(agent, t, k) && |t.queries| == k + 1 && |t.replies| == k + 1
    requires QueryOk(agent, t, k) && ReplyOk(agent, t, k) && reply == t.replies[k]
    requires agent.process(reply) == Ok(v)
    ensures Rounds(agent, t.(results := t.results + [v]), k + 1)
  {
    var u := t.(results := t.results + [v]);
    forall i | 0 <= i < k + 1 ensures QueryOk(agent, u, i) && ReplyOk(agent, u, i) && ResultOk(agent, u, i) {
      if i < k {
        assert QueryOk(agent, t, i) && ReplyOk(agent, t, i) && ResultOk(agent, t, i);
        assert u.results[i] == t.results[i];
      } else {
        assert QueryOk(agent, t, k);
      }
      if i > 0 { assert u.results[i - 1] == t.results[i - 1]; }
    }
  }

  /** The model failing in round k ends the run, explained. */
  lemma GenerationFailureExplained(agent: Agent, k: nat, last: Value, t: Trace, m: string)
    requires LoopState(agent, k, last, t) && k < MaxIterations
    requires agent.ask(k, agent.queryAfter(last)) == Err(m)
    ensures Explains(agent, Run(Failed(GenerationFailed(m)), Asked(agent, last, t)))
  {
    var t1 := Asked(agent, last, t);
    RoundsExtend(agent, t, t1, k);
  }

  /** Processing failing in round k ends the run, explained. */
  lemma ProcessingFailureExplained(agent: Agent, k: nat, last: Value, t: Trace, reply: string, m: string)
    requires LoopState(agent, k, last, t) && k < MaxIterations
    requires agent.ask(k, agent.queryAfter(last)) == Ok(reply)
    requires agent.process(reply) == Err(m)
    ensures Explains(agent, Run(Failed(ProcessingFailed(m)), Replied(Asked(agent, last, t), reply)))
  {
    var t2 := Replied(Asked(agent, last, t), reply);
    RoundsExtend(agent, t, t2, k);
    assert QueryOk(agent, t2, k);
  }

  /** A completed round k: k + 1 rounds are done and only the newest result may be a plot. */
  lemma RoundRecorded(agent: Agent, k: nat, last: Value, t: Trace, reply: string, v: Value)
    requires LoopState(agent, k, last, t) && k < MaxIterations
    requires agent.ask(k, agent.queryAfter(last)) == Ok(reply)
    requires agent.process(reply) == Ok(v)
    ensures var t3 := Recorded(Replied(Asked(agent, last, t), reply), v);
            Rounds(agent, t3, k + 1) && |t3.queries| == k + 1 && |t3.replies| == k + 1
            && NoPlotBefore(t3, k) && t3.results[k] == v
  {
    var t2 := Replied(Asked(agent, last, t), reply);
    RoundsExtend(agent, t, t2, k);
    assert QueryOk(agent, t2, k);
    RoundsStep(agent, t2, k, v, reply);
    var t3 := Recorded(t2, v);
    assert NoPlotBefore(t3, k) by {
      forall i | 0 <= i < k ensures !IsPlot(t3.results[i]) {
        assert t3.results[i] == t.results[i];
      }
    }
  }

  /** A plot in the newest of n rounds ends the run, explained. */
  lemma PlotExplained(agent: Agent, n: nat, t: Trace)
    requires 0 < n <= MaxIterations && Rounds(agent, t, n) && |t.queries| == n && |t.replies| == n
    requires NoPlotBefore(t, n - 1) && IsPlot(t.results[n - 1])
    ensures Explains(agent, Run(Plotted(t.results[n - 1].s), t))
  {
  }

  /** Results that are not plots lead to the next round. */
  lemma NextRound(agent: Agent, n: nat, t: Trace)
    requires 0 < n <= MaxIterations && Rounds(agent, t, n) && |t.queries| == n && |t.replies| == n
    requires NoPlotBefore(t, n - 1) && !IsPlot(t.results[n - 1])
    ensures LoopState(agent, n, t.results[n - 1], t)
  {
  }

  lemma {:induction false} RunLoopExplains(agent: Agent, k: nat, last: Value, t: Trace)
    requires LoopState(agent, k, last, t)
    ensures Explains(agent, RunLoop(agent, k, last, t))
    decreases MaxIterations - k
  {
    if k < MaxIterations {
      var t1 := Asked(agent, last, t);
      match agent.ask(k, agent.queryAfter(last))
      case Err(m) =>
        GenerationFailureExplained(agent, k, last, t, m);
      case Ok(reply) =>
        var t2 := Replied(t1, reply);
        match agent.process(reply)
        case Err(m) =>
          ProcessingFailureExplained(agent, k, last, t, reply, m);
        case Ok(v) =>
          var t3 := Recorded(t2, v);
          RoundRecorded(agent, k, last, t, reply, v);
          if IsPlot(v) {
            PlotExplained(agent, k + 1, t3);
          } else {
            NextRound(agent, k + 1, t3);
            RunLoopExplains(agent, k + 1, v, t3);
          }
    }
  }

  /** Every run of the analyze loop is explained round by round. */
  lemma AnalysisExplained(stockName: string, fromDate: string, toDate: string, env: Env)
    requires stockName != ""
    ensures Explains(AgentOf(BaseQuery(stockName, fromDate, toDate), env), Analysis(true, stockName, fromDate, toDate, env))
  {
    RunLoopExplains(AgentOf(BaseQuery(stockName, fromDate, toDate), env), 0, Null, EmptyTrace);
  }

  // ---------------------------------------------------------------------------
  // Consequences for the analyze button
  // ---------------------------------------------------------------------------

  /** How far the last round got: every round but the last completed, and the last logged its query and maybe its reply. */
  lemma ExplainsShape(agent: Agent, run: Run)
    requires Explains(agent, run)
    ensures var t := run.trace;
            var n := |t.results|;
            (run.outcome.Plotted? || run.outcome.Failed?)
            && ((|t.queries| == n && |t.replies| == n)
                || (|t.queries| == n + 1 && QueryOk(agent, t, n)
                    && (|t.replies| == n || (|t.replies| == n + 1 && ReplyOk(agent, t, n)))))
  {
  }

  /** Round k's query comes from the result just before it, for every round asked. */
  lemma ExplainsQueries(agent: Agent, run: Run)
    requires Explains(agent, run)
    ensures var t := run.trace;
            1 <= |t.queries| <= MaxIterations
            && forall k :: 0 <= k < |t.queries| ==> k <= |t.results| && t.queries[k] == agent.queryAfter(Prev(t.results, k))
  {
    var t := run.trace;
    ExplainsShape(agent, run);
    forall k | 0 <= k < |t.queries|
      ensures k <= |t.results| && t.queries[k] == agent.queryAfter(Prev(t.results, k))
    {
      if k < |t.results| {
        assert QueryOk(agent, t, k) && ReplyOk(agent, t, k) && ResultOk(agent, t, k);
      } else {
        assert QueryOk(agent, t, |t.results|);
      }
    }
  }

  /** Every reply is the trimmed answer to its round's query, and every result processes its reply. */
  lemma ExplainsReplies(agent: Agent, run: Run)
    requires Explains(agent, run)
    ensures var t := run.trace;
            |t.results| <= |t.replies| <= |t.queries|
            && (forall k :: 0 <= k < |t.replies| ==>
                  agent.ask(k, t.queries[k]).Ok? && t.replies[k] == agent.ask(k, t.queries[k]).value)
            && forall k :: 0 <= k < |t.results| ==> agent.process(t.replies[k]) == Ok(t.results[k])
  {
    var t := run.trace;
    ExplainsShape(agent, run);
    forall k | 0 <= k < |t.replies|
      ensures agent.ask(k, t.queries[k]).Ok? && t.replies[k] == agent.ask(k, t.queries[k]).value
    {
      if k < |t.results| {
        assert QueryOk(agent, t, k) && ReplyOk(agent, t, k) && ResultOk(agent, t, k);
      } else {
        assert ReplyOk(agent, t, |t.results|);
      }
    }
    forall k | 0 <= k < |t.results| ensures agent.process(t.replies[k]) == Ok(t.results[k]) {
      assert ResultOk(agent, t, k);
    }
  }

  /** The run ends with a plot exactly when some result is one; that result is the first plot and the last result. */
  lemma ExplainsPlottedIff(agent: Agent, run: Run)
    requires Explains(agent, run)
    ensures var t := run.trace;
            (run.outcome.Plotted? <==> exists k :: 0 <= k < |t.results| && IsPlot(t.results[k]))
            && (run.outcome.Plotted? ==>
                  |t.results| > 0 && Str(run.outcome.image) == t.results[|t.results| - 1]
                  && forall k :: 0 <= k < |t.results| - 1 ==> !IsPlot(t.results[k]))
  {
    var t := run.trace;
    if run.outcome.Plotted? {
      assert IsPlot(t.results[|t.results| - 1]);
    } else {
      assert NoPlotBefore(t, |t.results|);
    }
  }

  /** The iteration limit is reported exactly when five rounds produced no plot. */
  lemma ExplainsOutOfIterationsIff(agent: Agent, run: Run)
    requires Explains(agent, run)
    ensures var t := run.trace;
            run.outcome == Failed(OutOfIterations) <==>
              |t.results| == MaxIterations && forall k :: 0 <= k < |t.results| ==> !IsPlot(t.results[k])
  {
    var t := run.trace;
    if |t.results| == MaxIterations && forall k :: 0 <= k < |t.results| ==> !IsPlot(t.results[k]) {
      assert !IsPlot(t.results[|t.results| - 1]);
    }
  }

  /**
   * When every answer is delivered and processes to something other than a
   * plot, such as a `TASK_COMPLETE:` message, the loop runs to the limit.
   */
  lemma ExplainsNoPlot(agent: Agent, run: Run)
    requires Explains(agent, run)
    requires forall k: nat, q: string :: agent.ask(k, q).Ok?
               && agent.process(agent.ask(k, q).value).Ok?
               && !IsPlot(agent.process(agent.ask(k, q).value).value)
    ensures run.outcome == Failed(OutOfIterations) && |run.trace.queries| == MaxIterations
  {
    var t := run.trace;
    ExplainsShape(agent, run);
    ExplainsReplies(agent, run);
    assert forall k :: 0 <= k < |t.queries| ==>
             agent.ask(k, t.queries[k]).Ok? && agent.process(agent.ask(k, t.queries[k]).value).Ok?;
    assert forall k :: 0 <= k < |t.results| ==> !IsPlot(t.results[k]);
  }

  /** Without a model or a stock name nothing is asked; otherwise the model is asked one to five times. */
  lemma AnalysisGuards(hasModel: bool, stockName: string, fromDate: string, toDate: string, env: Env)
    ensures !hasModel ==> Analysis(hasModel, stockName, fromDate, toDate, env) == Run(NoModel, EmptyTrace)
    ensures hasModel && stockName == "" ==> Analysis(hasModel, stockName, fromDate, toDate, env) == Run(NoStockName, EmptyTrace)
    ensures hasModel && stockName != "" ==>
              1 <= |Analysis(hasModel, stockName, fromDate, toDate, env).trace.queries| <= MaxIterations
  {
    if hasModel && stockName != "" {
      AnalysisExplained(stockName, fromDate, toDate, env);
      ExplainsQueries(AgentOf(BaseQuery(stockName, fromDate, toDate), env), Analysis(hasModel, stockName, fromDate, toDate, env));
    }
  }

  /**
   * The first query is the base query; each later one is the base query with
   * only the previous result appended (a `null` result gives the base query
   * again), so earlier rounds are not carried forward.
   */
  lemma AnalysisQueries(stockName: string, fromDate: string, toDate: string, env: Env)
    requires stockName != ""
    ensures var t := Analysis(true, stockName, fromDate, toDate, env).trace;
            var base := BaseQuery(stockName, fromDate, toDate);
            |t.queries| >= 1 && t.queries[0] == base
            && forall k :: 0 < k < |t.queries| ==>
                 k <= |t.results|
                 && t.queries[k] == if t.results[k - 1] == Null then base
                                    else base + "\nIn the previous iteration you responded with "
                                         + env.stringify(t.results[k - 1]) + ". What should I do next?"
  {
    var agent := AgentOf(BaseQuery(stockName, fromDate, toDate), env);
    AnalysisExplained(stockName, fromDate, toDate, env);
    ExplainsQueries(agent, Analysis(true, stockName, fromDate, toDate, env));
  }

  /** Each reply is the trimmed answer to the full prompt of its round. */
  lemma AnalysisReplies(stockName: string, fromDate: string, toDate: string, env: Env)
    requires stockName != ""
    ensures var t := Analysis(true, stockName, fromDate, toDate, env).trace;
            |t.replies| <= |t.queries|
            && forall k :: 0 <= k < |t.replies| ==>
                 env.generate(k, PromptFor(t.queries[k])).Ok?
                 && t.replies[k] == JsTrim(env.generate(k, PromptFor(t.queries[k])).value)
  {
    var agent := AgentOf(BaseQuery(stockName, fromDate, toDate), env);
    var t := Analysis(true, stockName, fromDate, toDate, env).trace;
    AnalysisExplained(stockName, fromDate, toDate, env);
    ExplainsReplies(agent, Analysis(true, stockName, fromDate, toDate, env));
    forall k | 0 <= k < |t.replies|
      ensures env.generate(k, PromptFor(t.queries[k])).Ok?
              && t.replies[k] == JsTrim(env.generate(k, PromptFor(t.queries[k])).value)
    {
      assert agent.ask(k, t.queries[k]) == Trimmed(env.generate(k, PromptFor(t.queries[k])));
    }
  }

  /** Each result is its round's reply processed by `processLLMResponse`. */
  lemma AnalysisResults(stockName: string, fromDate: string, toDate: string, env: Env)
    requires stockName != ""
    ensures var t := Analysis(true, stockName, fromDate, toDate, env).trace;
            |t.results| <= |t.replies|
            && forall k :: 0 <= k < |t.results| ==> ProcessResponse(t.replies[k], env) == Ok(t.results[k])
  {
    var agent := AgentOf(BaseQuery(stockName, fromDate, toDate), env);
    AnalysisExplained(stockName, fromDate, toDate, env);
    ExplainsReplies(agent, Analysis(true, stockName, fromDate, toDate, env));
  }

  /**
   * A model whose every answer processes to something other than a plot, such
   * as a `TASK_COMPLETE:` message, keeps the loop going until the limit.
   */
  lemma NoPlotMeansOutOfIterations(stockName: string, fromDate: string, toDate: string, env: Env)
    requires stockName != ""
    requires forall k: nat, p: string :: env.generate(k, p).Ok?
               && ProcessResponse(JsTrim(env.generate(k, p).value), env).Ok?
               && !IsPlot(ProcessResponse(JsTrim(env.generate(k, p).value), env).value)
    ensures var run := Analysis(true, stockName, fromDate, toDate, env);
            run.outcome == Failed(OutOfIterations) && |run.trace.queries| == MaxIterations
  {
    var agent := AgentOf(BaseQuery(stockName, fromDate, toDate), env);
    forall k: nat, q: string
      ensures agent.ask(k, q).Ok? && agent.process(agent.ask(k, q).value).Ok?
              && !IsPlot(agent.process(agent.ask(k, q).value).value)
    {
      assert agent.ask(k, q) == Ok(JsTrim(env.generate(k, PromptFor(q)).value));
    }
    AnalysisExplained(stockName, fromDate, toDate, env);
    ExplainsNoPlot(agent, Analysis(true, stockName, fromDate, toDate, env));
  }

  // ---------------------------------------------------------------------------
  // The image shown for a plot
  // ---------------------------------------------------------------------------

  const PngDataPrefix := "data:image/png;base64,"

  predicate IsBase64Char(c: char) {
    ('A' <= c <= 'Z') || ('a' <= c <= 'z') || ('0' <= c <= '9') || c == '+' || c == '/' || c == '='
  }

  predicate AllBase64(s: string) {
    forall i :: 0 <= i < |s| ==> IsBase64Char(s[i])
  }

  /** A PNG data URL: the scheme and media type, then base64 text only. */
  predicate IsPngDataUrl(src: string) {
    StartsWith(src, PngDataPrefix) && AllBase64(src[|PngDataPrefix|..])
  }

  /** The `src` the page writes for a plot: the prefix is put in front of the result unconditionally. */
  function ImageSourceAsWritten(result: string): string {
    PngDataPrefix + result
  }

  /**
   * Every result the loop accepts as a plot already starts with `data:image`,
   * so the source written for it repeats the scheme and its `:` is not base64:
   * no plot the loop accepts is shown as a PNG data URL.
   */
  lemma ImageSourceAsWrittenIsBroken(result: string)
    requires IsPlot(Str(result))
    ensures !IsPngDataUrl(ImageSourceAsWritten(result))
  {
    var src := ImageSourceAsWritten(result);
    assert result[..10] == "data:image";
    assert result[4] == ':';
    assert src[|PngDataPrefix|..][4] == result[4];
  }

  /** The source the page should write: a data URL is used as it is, bare base64 gets the prefix. */
  function ImageSource(result: string): string {
    if StartsWith(result, "data:image") then result else PngDataPrefix + result
  }

  /** Bare base64 never starts with `data:image`, since `:` is not a base64 character. */
  lemma Base64IsNotDataUrl(s: string)
    requires AllBase64(s)
    ensures !StartsWith(s, "data:image")
  {
    if |s| >= 10 {
      assert !IsBase64Char(s[4]) || s[..10] != "data:image" by {
        if s[..10] == "data:image" { assert s[4] == s[..10][4]; }
      }
    }
  }

  /** A PNG data URL and bare base64 text both end up as a PNG data URL. */
  lemma ImageSourceIsDataUrl(result: string)
    requires IsPngDataUrl(result) || AllBase64(result)
    ensures IsPngDataUrl(ImageSource(result))
  {
    if IsPngDataUrl(result) {
      assert result[..10] == result[..|PngDataPrefix|][..10];
      assert StartsWith(result, "data:image");
    } else {
      Base64IsNotDataUrl(result);
      var src := PngDataPrefix + result;
      assert src[..|PngDataPrefix|] == PngDataPrefix && src[|PngDataPrefix|..] == result;
    }
  }

  /** The image a run puts on the page, if it plotted one. */
  function ShownImage(run: Run): Option<string> {
    if run.outcome.Plotted? then Some(ImageSource(run.outcome.image)) else None
  }

  /** A run that plotted a PNG data URL shows exactly that URL. */
  lemma PlottedDataUrlIsShown(run: Run)
    requires run.outcome.Plotted? && IsPngDataUrl(run.outcome.image)
    ensures ShownImage(run) == Some(run.outcome.image)
    ensures IsPngDataUrl(ShownImage(run).value)
  {
    ImageSourceIsDataUrl(run.outcome.image);
    assert run.outcome.image[..10] == run.outcome.image[..|PngDataPrefix|][..10];
  }
}
