/**
 * The practice math agent: three helpers behind `function_caller`, and the
 * notebook's top-level loop that asks Gemini at most ten times, runs the
 * function a reply names, and records every round in a growing history.
 *
 * Python values are the `PyValue` datatype. The outside world is a `MathEnv`:
 * the model's reply to the k-th prompt (`Err` with the exception when the
 * request, or reading `response.text`, fails), `ast.literal_eval` (`Err` with
 * the exception it raises), `int()` on anything that is not already an int or
 * a bool, the `repr` of `math.log10(x)`, and `str()` as an f-string renders a
 * value. An exception anywhere ends the run: nothing in the loop catches it.
 */
module MathAgent {
  import opened Results
  import opened Text
  import opened Numbers
  import Utilities

  datatype PyValue =
    | PyInt(i: int)
    | PyBool(b: bool)
    | PyFloat(repr: string)
    | PyStr(s: string)
    | PyList(items: seq<PyValue>)
    | PyTuple(items: seq<PyValue>)
    | PyNone
    | PyOther(typeName: string, repr: string)   // a dict, a set, bytes, ...

  datatype MathEnv = MathEnv(
    generate: (nat, string) -> Result<string, string>,
    literalEval: string -> Result<PyValue, string>,
    toInt: PyValue -> Result<int, string>,
    log10: int -> string,
    str: PyValue -> string)

  // ---------------------------------------------------------------------------
  // The three functions `function_caller` knows
  // ---------------------------------------------------------------------------

  /** `if type(n) != int: n = int(n)`: an int is kept, a bool is 0 or 1, anything else goes to `int()`. */
  function IntOf(v: PyValue, toInt: PyValue -> Result<int, string>): Result<int, string> {
    match v
    case PyInt(i) => Ok(i)
    case PyBool(b) => Ok(if b then 1 else 0)
    case _ => toInt(v)
  }

  /** `generate_fibonacci(n)`: the argument made an int, then the first n Fibonacci numbers. */
  function FibonacciOf(n: PyValue, env: MathEnv): Result<PyValue, string> {
    match IntOf(n, env.toInt)
    case Err(m) => Err(m)
    case Ok(k) => Ok(PyList(Ints(Utilities.FibonacciList(k))))
  }

  function Ints(xs: seq<int>): (vs: seq<PyValue>)
    ensures |vs| == |xs| && forall i :: 0 <= i < |xs| ==> vs[i] == PyInt(xs[i])
  {
    seq(|xs|, i requires 0 <= i < |xs| => PyInt(xs[i]))
  }

  /** `log_base_10(x)`: the argument made an int, then the guard. */
  function LogOf(x: PyValue, env: MathEnv): Result<PyValue, string> {
    match IntOf(x, env.toInt)
    case Err(m) => Err(m)
    case Ok(k) =>
      match Utilities.LogBase10(k, env.log10)
      case Err(m) => Err(m)
      case Ok(repr) => Ok(PyFloat(repr))
  }

  /** What a `for` loop over the value visits: the items of a list or tuple, the characters of a string. */
  function Elements(v: PyValue): Option<seq<PyValue>> {
    match v
    case PyList(items) => Some(items)
    case PyTuple(items) => Some(items)
    case PyStr(s) => Some(seq(|s|, i requires 0 <= i < |s| => PyStr([s[i]])))
    case _ => None
  }

  /** `[int(x) for x in items]`: the first conversion that raises ends the comprehension. */
  function IntsOf(items: seq<PyValue>, toInt: PyValue -> Result<int, string>): (r: Result<seq<int>, string>)
    ensures r.Ok? ==> |r.value| == |items| && forall i :: 0 <= i < |items| ==> IntOf(items[i], toInt) == Ok(r.value[i])
    ensures r.Err? ==> exists i :: 0 <= i < |items| && IntOf(items[i], toInt) == Err(r.error)
    decreases |items|
  {
    if items == [] then Ok([])
    else
      match IntOf(items[0], toInt)
      case Err(m) => Err(m)
      case Ok(k) =>
        match IntsOf(items[1..], toInt)
        case Err(m) =>
          ghost var i :| 0 <= i < |items[1..]| && IntOf(items[1..][i], toInt) == Err(m);
          assert IntOf(items[i + 1], toInt) == Err(m);
          Err(m)
        case Ok(ks) => Ok([k] + ks)
  }

  /** Ints are converted to themselves, so the comprehension gives back the list. */
  lemma IntsOfInts(xs: seq<int>, toInt: PyValue -> Result<int, string>)
    ensures IntsOf(Ints(xs), toInt) == Ok(xs)
  {
    var vs := Ints(xs);
    forall i | 0 <= i < |xs| ensures IntOf(vs[i], toInt) == Ok(xs[i]) {}
    var r := IntsOf(vs, toInt);
    if r.Ok? {
      assert r.value == xs;
    }
  }

  /** `type(v).__name__`. */
  function TypeName(v: PyValue): string {
    match v
    case PyInt(_) => "int"
    case PyBool(_) => "bool"
    case PyFloat(_) => "float"
    case PyStr(_) => "str"
    case PyList(_) => "list"
    case PyTuple(_) => "tuple"
    case PyNone => "NoneType"
    case PyOther(t, _) => t
  }

  /** `sum_list(lst)`: every element made an int, then summed. */
  function SumOf(lst: PyValue, env: MathEnv): Result<PyValue, string> {
    match Elements(lst)
    case None => Err("TypeError: '" + TypeName(lst) + "' object is not iterable")
    case Some(items) =>
      match IntsOf(items, env.toInt)
      case Err(m) => Err(m)
      case Ok(ks) => Ok(PyInt(Utilities.SumList(ks)))
  }

  /** `function_caller(func_name, params)`: only the three names in the map are called. */
  function FunctionCaller(name: string, arg: PyValue, env: MathEnv): Result<PyValue, string> {
    if name == "generate_fibonacci" then FibonacciOf(arg, env)
    else if name == "log_base_10" then LogOf(arg, env)
    else if name == "sum_list" then SumOf(arg, env)
    else Ok(PyStr("Function " + name + " not found"))
  }

  /** Any other name is answered with a message, not an exception, and nothing is computed. */
  lemma UnknownFunctionNotFound(name: string, arg: PyValue, env: MathEnv)
    requires name != "generate_fibonacci" && name != "log_base_10" && name != "sum_list"
    ensures FunctionCaller(name, arg, env) == Ok(PyStr("Function " + name + " not found"))
  {
  }

  /** On int arguments the three functions compute the Fibonacci list, the logarithm's guard and the sum. */
  lemma KnownFunctionsOnInts(n: int, xs: seq<int>, env: MathEnv)
    ensures FunctionCaller("generate_fibonacci", PyInt(n), env) == Ok(PyList(Ints(Utilities.FibonacciList(n))))
    ensures FunctionCaller("log_base_10", PyInt(n), env).Err? <==> n <= 0
    ensures FunctionCaller("sum_list", PyList(Ints(xs)), env) == Ok(PyInt(Sum(xs)))
  {
    assert FunctionCaller("generate_fibonacci", PyInt(n), env) == FibonacciOf(PyInt(n), env);
    assert FunctionCaller("log_base_10", PyInt(n), env) == LogOf(PyInt(n), env) by {
      assert "log_base_10"[0] != "generate_fibonacci"[0];
    }
    assert FunctionCaller("sum_list", PyList(Ints(xs)), env) == SumOf(PyList(Ints(xs)), env) by {
      assert "sum_list"[0] != "generate_fibonacci"[0] && "sum_list"[0] != "log_base_10"[0];
    }
    IntsOfInts(xs, env.toInt);
  }

  /** A number, a bool or `None` cannot be iterated, and the error names its type. */
  lemma SumOfScalarNamesType(v: PyValue, env: MathEnv)
    requires v.PyInt? || v.PyBool? || v.PyFloat? || v.PyNone?
    ensures SumOf(v, env) == Err("TypeError: '" + TypeName(v) + "' object is not iterable")
    ensures v.PyInt? ==> TypeName(v) == "int"
    ensures v.PyNone? ==> TypeName(v) == "NoneType"
  {
  }

  /** `sum_list` of a string sums its characters as digits: `int('7')` is asked of each one in turn. */
  lemma SumOfStringVisitsCharacters(s: string, env: MathEnv)
    ensures Elements(PyStr(s)).Some? && |Elements(PyStr(s)).value| == |s|
    ensures forall i :: 0 <= i < |s| ==> Elements(PyStr(s)).value[i] == PyStr([s[i]])
  {
  }

  /**
   * The method `function_caller` runs: the Fibonacci list is the appending
   * loop, the other two are expressions.
   */
  method CallFunction(name: string, arg: PyValue, env: MathEnv) returns (r: Result<PyValue, string>)
    ensures r == FunctionCaller(name, arg, env)
  {
    if name == "generate_fibonacci" {
      var n := IntOf(arg, env.toInt);
      if n.Err? {
        return Err(n.error);
      }
      var fib := Utilities.GenerateFibonacci(n.value);
      r := Ok(PyList(Ints(fib)));
    } else if name == "log_base_10" {
      r := LogOf(arg, env);
    } else if name == "sum_list" {
      r := SumOf(arg, env);
    } else {
      r := Ok(PyStr("Function " + name + " not found"));
    }
  }

  // ---------------------------------------------------------------------------
  // The notebook's loop
  // ---------------------------------------------------------------------------

  const SystemPrompt: string :=
    "\n" +
    "You are a math agent solving problems in iterations. Respond with EXACTLY ONE of these formats:\n" +
    "\n" +
    "1. FUNCTION_CALL: python_function_name|input\n" +
    "2. FINAL_ANSWER: [number]\n" +
    "\n" +
    "where python_function_name is one of the following:\n" +
    "\n" +
    "1 sum_list:\n" +
    "     Compute the sum of elements in a list.\n" +
    "     :param lst: List of numbers.\n" +
    "     :return: Sum of all numbers in the list.\n" +
    "2 generate_fibonacci:     \n" +
    "    Generate the first n Fibonacci numbers.\n" +
    "    :param n: Number of Fibonacci numbers to generate.\n" +
    "    :return: List of first n Fibonacci numbers..\n" +
    "3 log_base_10: \n" +
    "    Compute the logarithm (base 10) of a number.\n" +
    "    :param x: Number to take log of.\n" +
    "    :return: Logarithm (base 10) of x.\n" +
    "\n" +
    "DO NOT include multiple responses. Give ONE response at a time.\n"

  /** `query`. */
  const Query := "\nCompute the sum of logarithms (base 10) of the 15 Fibonacci numbers\n"

  const MaxIterations: nat := 10
  const FunctionCallPrefix := "FUNCTION_CALL:"
  const FinalAnswerPrefix := "FINAL_ANSWER:"
  const UnpackError := "ValueError: not enough values to unpack (expected 2, got 1)"

  /** `NameError` for a variable no earlier round assigned. */
  function NameError(variable: string): string {
    "NameError: name '" + variable + "' is not defined"
  }

  /** `f"{system_prompt}\n\nQuery: {current_query}"`. */
  function Prompt(query: string): string {
    SystemPrompt + "\n\nQuery: " + query
  }

  /**
   * The notebook's globals between rounds. `query` is `current_query`
   * (unbound, here empty, until the first round assigns it); `funcName`,
   * `params` and `result` are `func_name`, `params` and `iteration_result`,
   * `None` while unbound.
   */
  datatype State = State(
    iteration: nat,
    last: Option<PyValue>,
    history: seq<string>,
    query: string,
    funcName: Option<string>,
    params: Option<string>,
    result: Option<PyValue>)

  /** The cell that sets the globals up front. */
  const Start := State(0, None, [], "", None, None, None)

  datatype Outcome =
    | FinalAnswer(reply: string)   // the `break`
    | Crashed(error: string)       // an uncaught exception
    | Exhausted                    // `current_iteration` reached `max_iterations`

  /** A round either ends the run or hands the next round its state. */
  datatype Step = Step(state: State, stop: Option<Outcome>)

  datatype Run = Run(state: State, outcome: Outcome)

  /** The query of the next round: the base query first, then the last query grown by the whole history. */
  function NextQuery(s: State): string {
    if s.last.None? then Query
    else s.query + "\n\n" + Join(s.history, " ") + "  What should I do next?"
  }

  /** How the entry for round k (counted from 0) begins. */
  function RoundLabel(k: nat): string {
    "In the " + NatToString(k + 1) + " iteration"
  }

  /** The entry `iteration_response` gets for round k. */
  function Entry(k: nat, name: string, params: string, result: string): string {
    RoundLabel(k) + " you called " + name + " with " + params + " parameters, and the function returned " + result + "."
  }

  /** `response_text.split(":", 1)[1]`: the first `:` is the prefix's own. */
  function FunctionInfo(reply: string): (info: string)
    requires StartsWith(reply, FunctionCallPrefix)
    ensures info == reply[|FunctionCallPrefix|..]
  {
    assert reply[..|FunctionCallPrefix|] == FunctionCallPrefix;
    assert Occurs(reply, ":", 13) by { assert reply[13..14] == [reply[13]]; }
    ContainsIff(reply, ":");
    forall k | 0 <= k < 13 ensures !Occurs(reply, ":", k) {
      SingleCharOccurs(reply, ':', k);
      assert reply[k] == FunctionCallPrefix[k];
    }
    var r := Find(reply, ":");
    assert r == Some(13);
    SplitOnce(reply, ":").value.1
  }

  /** The end of a round that recorded a call: the entry appended, the counter one up. */
  function Recorded(s: State, name: string, params: string, result: PyValue, env: MathEnv): State {
    s.(iteration := s.iteration + 1, last := Some(result),
       history := s.history + [Entry(s.iteration, name, params, env.str(result))])
  }

  /**
   * A round's state once it has recorded a call, from the state `s1` whose
   * query is set: the call's variables set, the entry appended, the counter one up.
   */
  ghost predicate RecordedAfter(env: MathEnv, s1: State, t: State) {
    && t.result.Some? && t.funcName.Some? && t.params.Some?
    && t == Recorded(s1.(funcName := t.funcName, params := t.params, result := t.result),
                     t.funcName.value, t.params.value, t.result.value, env)
  }

  /** A round that ends the run leaves the counter and the history as they were. */
  ghost predicate Unadvanced(s1: State, t: State) {
    t.iteration == s1.iteration && t.history == s1.history
  }

  /**
   * The `FUNCTION_CALL:` branch, from the state `s1` whose query is set: split
   * at the first `|`, both pieces stripped, the parameters evaluated, the
   * function run. `func_name` and `params` are assigned before either can raise.
   */
  function CallStep(env: MathEnv, s1: State, info: string): Step {
    match SplitOnce(info, "|")
    case None => Step(s1, Some(Crashed(UnpackError)))
    case Some(pieces) =>
      var name := PyStrip(pieces.0);
      var params := PyStrip(pieces.1);
      Invoke(env, s1.(funcName := Some(name), params := Some(params)), name, params)
  }

  /**
   * The rest of the `FUNCTION_CALL:` branch, once `func_name` and `params` are
   * set in `s2`: the parameters evaluated, the function run, the call recorded.
   */
  function Invoke(env: MathEnv, s2: State, name: string, params: string): Step {
    match env.literalEval(params)
    case Err(m) => Step(s2, Some(Crashed(m)))
    case Ok(arg) =>
      match FunctionCaller(name, arg, env)
      case Err(m) => Step(s2, Some(Crashed(m)))
      case Ok(r) => Step(Recorded(s2.(result := Some(r)), name, params, r, env), None)
  }

  /**
   * What a round does with the stripped reply. `FINAL_ANSWER:` breaks out; any
   * other reply falls through and records the previous call again, or raises
   * `NameError` when no call was made before.
   */
  function Respond(env: MathEnv, s1: State, reply: string): Step {
    if StartsWith(reply, FunctionCallPrefix) then CallStep(env, s1, FunctionInfo(reply))
    else if StartsWith(reply, FinalAnswerPrefix) then Step(s1, Some(FinalAnswer(reply)))
    else if s1.result.None? then Step(s1, Some(Crashed(NameError("iteration_result"))))
    else if s1.funcName.None? then Step(s1, Some(Crashed(NameError("func_name"))))
    else if s1.params.None? then Step(s1, Some(Crashed(NameError("params"))))
    else Step(Recorded(s1, s1.funcName.value, s1.params.value, s1.result.value, env), None)
  }

  /** One round of the loop body: the query, the model's reply stripped, and what is done with it. */
  function Turn(env: MathEnv, s: State): Step {
    var s1 := s.(query := NextQuery(s));
    match env.generate(s.iteration, Prompt(s1.query))
    case Err(m) => Step(s1, Some(Crashed(m)))
    case Ok(text) => Respond(env, s1, PyStrip(text))
  }

  lemma CallStepAdvances(env: MathEnv, s1: State, info: string)
    ensures var step := CallStep(env, s1, info);
            (step.stop.None? ==> RecordedAfter(env, s1, step.state)) && (step.stop.Some? ==> Unadvanced(s1, step.state))
  {
    var pieces := SplitOnce(info, "|");
    if pieces.Some? {
      var name, params := PyStrip(pieces.value.0), PyStrip(pieces.value.1);
      var s2 := s1.(funcName := Some(name), params := Some(params));
      var arg := env.literalEval(params);
      if arg.Ok? {
        var r := FunctionCaller(name, arg.value, env);
        if r.Ok? {
          var t := Recorded(s2.(result := Some(r.value)), name, params, r.value, env);
          assert CallStep(env, s1, info) == Step(t, None);
          assert s2.(result := Some(r.value)) == s1.(funcName := t.funcName, params := t.params, result := t.result);
        }
      }
    }
  }

  lemma RespondAdvances(env: MathEnv, s1: State, reply: string)
    ensures var step := Respond(env, s1, reply);
            (step.stop.None? ==> RecordedAfter(env, s1, step.state)) && (step.stop.Some? ==> Unadvanced(s1, step.state))
  {
    if StartsWith(reply, FunctionCallPrefix) {
      CallStepAdvances(env, s1, FunctionInfo(reply));
    }
  }

  /**
   * A round that does not end the run appends exactly one entry and counts
   * one more iteration; a round that ends it leaves both as they were.
   */
  lemma TurnAdvances(env: MathEnv, s: State)
    ensures var step := Turn(env, s);
            (step.stop.None? ==> RecordedAfter(env, s.(query := NextQuery(s)), step.state))
            && (step.stop.Some? ==> Unadvanced(s, step.state))
  {
    var s1 := s.(query := NextQuery(s));
    var g := env.generate(s.iteration, Prompt(s1.query));
    if g.Ok? {
      RespondAdvances(env, s1, PyStrip(g.value));
    }
  }

  /**
   * What every round keeps: one that goes on counts one more iteration and
   * appends one entry labelled with its round; one that stops leaves both as
   * they were and does not claim to have run out.
   */
  ghost predicate Advances(s: State, step: Step) {
    if step.stop.None? then
      && step.state.iteration == s.iteration + 1
      && |step.state.history| == |s.history| + 1
      && step.state.history[..|s.history|] == s.history
      && StartsWith(step.state.history[|s.history|], RoundLabel(s.iteration))
    else
      step.stop != Some(Exhausted) && Unadvanced(s, step.state)
  }

  ghost predicate AlwaysAdvances(turn: State -> Step) {
    forall s :: Advances(s, turn(s))
  }

  /** The `while` loop from a given state, for any round that advances. */
  function LoopWith(turn: State -> Step, s: State): Run
    requires AlwaysAdvances(turn)
    decreases MaxIterations - s.iteration
  {
    if s.iteration >= MaxIterations then Run(s, Exhausted)
    else
      var step := turn(s);
      assert Advances(s, step);
      if step.stop.Some? then Run(step.state, step.stop.value) else LoopWith(turn, step.state)
  }

  lemma EntryLabelled(k: nat, name: string, params: string, result: string)
    ensures StartsWith(Entry(k, name, params, result), RoundLabel(k))
  {
    var p := RoundLabel(k);
    var e := Entry(k, name, params, result);
    assert e == p + (" you called " + name + " with " + params + " parameters, and the function returned " + result + ".");
    assert e[..|p|] == p;
  }

  /** The notebook's round advances. */
  lemma TurnsAdvance(env: MathEnv)
    ensures AlwaysAdvances(s => Turn(env, s))
  {
    forall s ensures Advances(s, Turn(env, s)) {
      TurnAdvances(env, s);
      var s1 := s.(query := NextQuery(s));
      var g := env.generate(s.iteration, Prompt(s1.query));
      if g.Ok? { ResponseNeverExhausts(env, s1, PyStrip(g.value)); }
      var t := Turn(env, s).state;
      if Turn(env, s).stop.None? {
        EntryLabelled(s.iteration, t.funcName.value, t.params.value, env.str(t.result.value));
        assert t.history[..|s.history|] == s.history;
      }
    }
  }

  /** No round's own outcome is running out: only the loop test gives that. */
  lemma ResponseNeverExhausts(env: MathEnv, s1: State, reply: string)
    ensures Respond(env, s1, reply).stop != Some(Exhausted)
  {
    if StartsWith(reply, FunctionCallPrefix) {
      var info := FunctionInfo(reply);
      var pieces := SplitOnce(info, "|");
      if pieces.Some? {
        var arg := env.literalEval(PyStrip(pieces.value.1));
        if arg.Ok? {
          var r := FunctionCaller(PyStrip(pieces.value.0), arg.value, env);
        }
      }
    }
  }

  /** The notebook's `while` loop from a given state. */
  function Loop(env: MathEnv, s: State): Run {
    TurnsAdvance(env);
    LoopWith(s => Turn(env, s), s)
  }

  // ---------------------------------------------------------------------------
  // What the loop promises
  // ---------------------------------------------------------------------------

  /** The loop ends within `max_iterations` rounds; it runs out exactly when the counter reaches 10. */
  lemma {:induction false} LoopBound(turn: State -> Step, s: State)
    requires AlwaysAdvances(turn) && s.iteration <= MaxIterations
    ensures var run := LoopWith(turn, s);
            s.iteration <= run.state.iteration <= MaxIterations
            && (run.outcome == Exhausted <==> run.state.iteration == MaxIterations)
    decreases MaxIterations - s.iteration
  {
    if s.iteration < MaxIterations {
      assert Advances(s, turn(s));
      if turn(s).stop.None? {
        LoopBound(turn, turn(s).state);
      }
    }
  }

  /**
   * The history only grows, by one entry per completed round: what was there
   * stays in place, and as many entries are added as the counter advances.
   */
  lemma {:induction false} LoopHistory(turn: State -> Step, s: State)
    requires AlwaysAdvances(turn)
    ensures var run := LoopWith(turn, s);
            && s.iteration <= run.state.iteration
            && |run.state.history| == |s.history| + (run.state.iteration - s.iteration)
            && run.state.history[..|s.history|] == s.history
    decreases MaxIterations - s.iteration
  {
    if s.iteration < MaxIterations {
      var step := turn(s);
      assert Advances(s, step);
      if step.stop.None? {
        LoopHistory(turn, step.state);
        var h := LoopWith(turn, step.state).state.history;
        assert h[..|s.history| + 1] == step.state.history;
        assert h[..|s.history|] == h[..|s.history| + 1][..|s.history|];
      }
    }
  }

  /** Entry k names round k + 1, so the history is in the order the rounds ran. */
  ghost predicate Numbered(history: seq<string>) {
    forall k :: 0 <= k < |history| ==> StartsWith(history[k], RoundLabel(k))
  }

  /** Starting from a numbered history as long as the counter, every entry added is numbered by its round. */
  lemma {:induction false} LoopNumbersEntries(turn: State -> Step, s: State)
    requires AlwaysAdvances(turn)
    requires |s.history| == s.iteration && Numbered(s.history)
    ensures Numbered(LoopWith(turn, s).state.history)
    decreases MaxIterations - s.iteration
  {
    if s.iteration < MaxIterations {
      var step := turn(s);
      assert Advances(s, step);
      if step.stop.None? {
        var t := step.state;
        assert Numbered(t.history) by {
          forall k | 0 <= k < |t.history| ensures StartsWith(t.history[k], RoundLabel(k)) {
            if k < |s.history| { assert t.history[k] == t.history[..|s.history|][k]; }
          }
        }
        LoopNumbersEntries(turn, t);
      }
    }
  }

  /**
   * The notebook's run: at most ten rounds, exhausted exactly at ten, and one
   * entry per completed round, numbered in order.
   */
  lemma NotebookRun(env: MathEnv)
    ensures var run := Loop(env, Start);
            && run.state.iteration <= MaxIterations
            && (run.outcome == Exhausted <==> run.state.iteration == MaxIterations)
            && |run.state.history| == run.state.iteration
            && Numbered(run.state.history)
  {
    TurnsAdvance(env);
    var turn := s => Turn(env, s);
    LoopBound(turn, Start);
    LoopHistory(turn, Start);
    LoopNumbersEntries(turn, Start);
  }

  /** `FINAL_ANSWER:` and `FUNCTION_CALL:` differ in their second character. */
  lemma FinalAnswerIsNotCall(reply: string)
    requires StartsWith(reply, FinalAnswerPrefix)
    ensures !StartsWith(reply, FunctionCallPrefix)
  {
    assert reply[1] == FinalAnswerPrefix[1];
  }

  /** A `FINAL_ANSWER:` reply breaks out: the counter and the history stay as they were. */
  lemma FinalAnswerStops(env: MathEnv, s: State, text: string)
    requires s.iteration < MaxIterations
    requires env.generate(s.iteration, Prompt(NextQuery(s))) == Ok(text)
    requires StartsWith(PyStrip(text), FinalAnswerPrefix)
    ensures Loop(env, s) == Run(s.(query := NextQuery(s)), FinalAnswer(PyStrip(text)))
  {
    FinalAnswerIsNotCall(PyStrip(text));
    TurnAdvances(env, s);
  }

  /** A first reply that is neither a call nor an answer raises `NameError`: no result exists to report. */
  lemma FirstUnrecognisedReplyCrashes(env: MathEnv, text: string)
    requires env.generate(0, Prompt(Query)) == Ok(text)
    requires !StartsWith(PyStrip(text), FunctionCallPrefix) && !StartsWith(PyStrip(text), FinalAnswerPrefix)
    ensures Loop(env, Start).outcome == Crashed(NameError("iteration_result"))
  {
    TurnAdvances(env, Start);
  }

  /** A later reply that is neither reports the previous call again, without running any function. */
  lemma StaleCallReportedAgain(env: MathEnv, s: State, text: string)
    requires s.result.Some? && s.funcName.Some? && s.params.Some?
    requires env.generate(s.iteration, Prompt(NextQuery(s))) == Ok(text)
    requires !StartsWith(PyStrip(text), FunctionCallPrefix) && !StartsWith(PyStrip(text), FinalAnswerPrefix)
    ensures Turn(env, s) == Step(Recorded(s.(query := NextQuery(s)), s.funcName.value, s.params.value, s.result.value, env), None)
  {
  }

  /** The first `|` of a text whose left part has none cuts it there. */
  lemma SplitOnceAtBar(a: string, b: string)
    requires '|' !in a
    ensures SplitOnce(a + "|" + b, "|") == Some((a, b))
  {
    var s := a + "|" + b;
    SingleCharOccurs(s, '|', |a|);
    forall k | 0 <= k < |a| ensures !Occurs(s, "|", k) {
      SingleCharOccurs(s, '|', k);
      assert s[k] == a[k];
    }
    assert Find(s, "|") == Some(|a|);
    assert s[..|a|] == a && s[|a| + 1..] == b;
  }

  /** The call's two pieces are stored whether or not the call then raises. */
  lemma CallStepStoresPieces(env: MathEnv, s1: State, name: string, params: string)
    requires '|' !in name
    ensures CallStep(env, s1, name + "|" + params).state.funcName == Some(PyStrip(name))
    ensures CallStep(env, s1, name + "|" + params).state.params == Some(PyStrip(params))
  {
    SplitOnceAtBar(name, params);
    InvokeKeepsCall(env, s1.(funcName := Some(PyStrip(name)), params := Some(PyStrip(params))),
                    PyStrip(name), PyStrip(params));
  }

  /** Evaluating and calling never touch `func_name` and `params`. */
  lemma InvokeKeepsCall(env: MathEnv, s2: State, name: string, params: string)
    ensures Invoke(env, s2, name, params).state.funcName == s2.funcName
    ensures Invoke(env, s2, name, params).state.params == s2.params
  {
    match env.literalEval(params)
    case Err(_) =>
    case Ok(arg) =>
      match FunctionCaller(name, arg, env)
      case Err(_) =>
      case Ok(_) =>
  }

  /**
   * `FUNCTION_CALL:name|params` (the first `|` after the prefix) sets
   * `func_name` and `params` to the two stripped pieces, whatever happens next.
   */
  lemma FunctionCallSplit(env: MathEnv, s: State, text: string, name: string, params: string)
    requires env.generate(s.iteration, Prompt(NextQuery(s))) == Ok(text)
    requires PyStrip(text) == FunctionCallPrefix + (name + "|" + params) && '|' !in name
    ensures Turn(env, s).state.funcName == Some(PyStrip(name))
    ensures Turn(env, s).state.params == Some(PyStrip(params))
  {
    var reply := PyStrip(text);
    assert reply[..|FunctionCallPrefix|] == FunctionCallPrefix;
    assert FunctionInfo(reply) == name + "|" + params;
    CallStepStoresPieces(env, s.(query := NextQuery(s)), name, params);
  }

  /** Text without a `|` cannot be unpacked into a name and parameters. */
  lemma CallStepWithoutBar(env: MathEnv, s1: State, info: string)
    requires '|' !in info
    ensures CallStep(env, s1, info) == Step(s1, Some(Crashed(UnpackError)))
  {
    ContainsChar(info, '|');
  }

  /** A call reply without a `|` ends the round with the unpacking error. */
  lemma RespondWithoutBar(env: MathEnv, s1: State, reply: string)
    requires StartsWith(reply, FunctionCallPrefix) && '|' !in reply
    ensures Respond(env, s1, reply) == Step(s1, Some(Crashed(UnpackError)))
  {
    var info := FunctionInfo(reply);
    forall k | 0 <= k < |info| ensures info[k] != '|' { assert info[k] == reply[|FunctionCallPrefix| + k]; }
    CallStepWithoutBar(env, s1, info);
  }

  /** A call without a `|` cannot be unpacked into a name and parameters, and the run ends. */
  lemma CallWithoutBarCrashes(env: MathEnv, s: State, text: string)
    requires env.generate(s.iteration, Prompt(NextQuery(s))) == Ok(text)
    requires StartsWith(PyStrip(text), FunctionCallPrefix) && '|' !in PyStrip(text)
    ensures Turn(env, s).stop == Some(Crashed(UnpackError))
  {
    RespondWithoutBar(env, s.(query := NextQuery(s)), PyStrip(text));
  }

  /** From the second round on, the query holds every entry of the history. */
  lemma QueryHoldsHistory(s: State, k: nat)
    requires s.last.Some? && k < |s.history|
    ensures Contains(NextQuery(s), s.history[k])
  {
    JoinHoldsParts(s.history, " ", k);
    ContainsInside(s.query + "\n\n", Join(s.history, " "), "  What should I do next?", s.history[k]);
  }

  /** Once a round has been recorded the query only grows: the last query is the start of the next. */
  lemma QueryGrows(s: State)
    requires s.last.Some?
    ensures StartsWith(NextQuery(s), s.query)
  {
    var q := NextQuery(s);
    assert q == s.query + ("\n\n" + Join(s.history, " ") + "  What should I do next?");
    assert q[..|s.query|] == s.query;
  }

  /** The notebook's module-level variables, updated in place by the loop cell. */
  class Notebook {
    var currentIteration: nat
    var lastResponse: Option<PyValue>
    var iterationResponse: seq<string>
    var currentQuery: string
    var funcName: Option<string>
    var params: Option<string>
    var iterationResult: Option<PyValue>

    function Snapshot(): State
      reads this
    {
      State(currentIteration, lastResponse, iterationResponse, currentQuery, funcName, params, iterationResult)
    }

    /** `max_iterations = 10`, `current_iteration = 0`, `iteration_response = []`, `last_response = None`. */
    constructor ()
      ensures Snapshot() == Start
    {
      currentIteration := 0;
      lastResponse := None;
      iterationResponse := [];
      currentQuery := "";
      funcName := None;
      params := None;
      iterationResult := None;
    }

    /** The `FUNCTION_CALL:` branch of a round, on the text after the prefix. */
    method CallRound(env: MathEnv, info: string) returns (stop: Option<Outcome>)
      modifies this
      ensures Step(Snapshot(), stop) == CallStep(env, old(Snapshot()), info)
    {
      var pieces := SplitOnce(info, "|");
      if pieces.None? {
        return Some(Crashed(UnpackError));
      }
      funcName := Some(PyStrip(pieces.value.0));
      params := Some(PyStrip(pieces.value.1));
      assert Snapshot() == old(Snapshot()).(funcName := funcName, params := params);
      stop := InvokeRound(env);
    }

    /** Evaluating the parameters, calling the function and recording the call. */
    method InvokeRound(env: MathEnv) returns (stop: Option<Outcome>)
      requires funcName.Some? && params.Some?
      modifies this
      ensures Step(Snapshot(), stop) == Invoke(env, old(Snapshot()), old(funcName.value), old(params.value))
    {
      var arg := env.literalEval(params.value);
      if arg.Err? {
        return Some(Crashed(arg.error));
      }
      var r := CallFunction(funcName.value, arg.value, env);
      if r.Err? {
        return Some(Crashed(r.error));
      }
      ghost var s2 := Snapshot();
      iterationResult := Some(r.value);
      assert Snapshot() == s2.(result := iterationResult);
      Record(env);
      stop := None;
    }

    /** The end of a round that has a call to report: the entry appended, the counter one up. */
    method Record(env: MathEnv)
      requires funcName.Some? && params.Some? && iterationResult.Some?
      modifies this
      ensures Snapshot() == Recorded(old(Snapshot()), old(funcName.value), old(params.value), old(iterationResult.value), env)
    {
      lastResponse := iterationResult;
      iterationResponse := iterationResponse + [Entry(currentIteration, funcName.value, params.value,
                                                      env.str(iterationResult.value))];
      currentIteration := currentIteration + 1;
    }

    /** What a round does with the stripped reply, once the query is set. */
    method HandleReply(env: MathEnv, responseText: string) returns (stop: Option<Outcome>)
      modifies this
      ensures Step(Snapshot(), stop) == Respond(env, old(Snapshot()), responseText)
    {
      if StartsWith(responseText, FunctionCallPrefix) {
        stop := CallRound(env, FunctionInfo(responseText));
      } else if StartsWith(responseText, FinalAnswerPrefix) {
        stop := Some(FinalAnswer(responseText));
      } else if iterationResult.None? {
        stop := Some(Crashed(NameError("iteration_result")));
      } else if funcName.None? {
        stop := Some(Crashed(NameError("func_name")));
      } else if params.None? {
        stop := Some(Crashed(NameError("params")));
      } else {
        Record(env);
        stop := None;
      }
    }

    /** One pass of the loop body. */
    method Round(env: MathEnv) returns (stop: Option<Outcome>)
      modifies this
      ensures Step(Snapshot(), stop) == Turn(env, old(Snapshot()))
    {
      if lastResponse.None? {
        currentQuery := Query;
      } else {
        currentQuery := currentQuery + "\n\n" + Join(iterationResponse, " ");
        currentQuery := currentQuery + "  What should I do next?";
      }
      assert Snapshot() == old(Snapshot()).(query := NextQuery(old(Snapshot())));
      var response := env.generate(currentIteration, Prompt(currentQuery));
      if response.Err? {
        return Some(Crashed(response.error));
      }
      stop := HandleReply(env, PyStrip(response.value));
    }

    /** The loop cell: it ends as `Loop` says, in the state `Loop` says. */
    method RunLoop(env: MathEnv) returns (outcome: Outcome)
      modifies this
      ensures Run(Snapshot(), outcome) == Loop(env, old(Snapshot()))
    {
      while currentIteration < MaxIterations
        invariant Loop(env, Snapshot()) == Loop(env, old(Snapshot()))
        decreases MaxIterations - currentIteration
      {
        ghost var before := Snapshot();
        var stop := Round(env);
        TurnAdvances(env, before);
        if stop.Some? {
          return stop.value;
        }
      }
      outcome := Exhausted;
    }
  }
}
