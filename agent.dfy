/** The multi-action agent of Level-3/full_agent.py. A query passes through
    four stages in order: translation, arithmetic, the model for two known
    factual questions, and the model as a fallback when no earlier stage
    produced a line. Each stage adds steps, tool names and response lines;
    the response is the lines joined by newlines, and every query writes one
    log entry. The model's reply and the calculator of `calculator_tool1`
    are given, not modelled. */
module FullAgent {
  import opened Wrappers
  import opened Text
  import opened Calculator
  import opened Gemini
  import opened Translator
  import opened TranslationRequest
  import opened AgentMath
  import ChatbotLevel2
  import Sessions

  /** Any of these in the lower-cased query opens the arithmetic stage. */
  const GateKeywords: seq<string> := ["add", "plus", "sum", "multiply", "times", "*", "+"]
  /** The factual questions sent to the model. */
  const Facts: seq<string> := ["capital of italy", "distance between earth and mars"]
  /** The start of the line for a failed calculation. */
  const CalculatorError: string := ErrorPrefix + " Calculator failed: "
  /** The reason given when the query holds no arithmetic the agent can read. */
  const NothingFound: string := "No valid math expressions found."

  const TranslatorTool: string := "translator"
  const CalculatorTool: string := "calculator"
  const ModelTool: string := "LLM (Gemini)"

  /** One entry of `steps`: what was done, to what, with what output. */
  datatype Step = Step(action: string, input: string, output: string)

  /** What the stages have gathered so far: steps, tool names in the order
      they were used, and response lines. */
  datatype Progress = Progress(steps: seq<Step>, tools: seq<string>, lines: seq<string>)
  {
    /** This, followed by what a later stage adds. */
    function Then(next: Progress): Progress {
      Progress(steps + next.steps, tools + next.tools, lines + next.lines)
    }
  }

  const Nothing: Progress := Progress([], [], [])

  /** The log entry of one query; `list(set(tools_used))` has no fixed order,
      so the tools are a set. */
  datatype Log = Log(timestamp: string, query: string, steps: seq<Step>, toolsUsed: set<string>, response: string)

  /** The translation stage: the phrase the request names, stripped, and its German. */
  function Translation(query: string): Progress {
    if Contains(Lower(query), Verb) && Request(query).Some? then
      var text := Strip(Request(query).value);
      var translated := Translate(text);
      Progress([Step("translate", text, translated)], [TranslatorTool], ["Translated: " + translated])
    else Nothing
  }

  /** A calculation that returned. */
  function Computed(c: Calculation, shown: string): Progress {
    Progress([Step(c.operation.Name(), c.expr, shown)], [CalculatorTool], [c.operation.Title() + " Result: " + shown])
  }

  /** The `except` branch: an error line and the calculator's name, no step. */
  function Failure(reason: string): Progress {
    Progress([], [CalculatorTool], [CalculatorError + reason])
  }

  /** The loop over the extracted calculations; the first one the calculator
      raises on ends it. */
  function Calculations(cs: seq<Calculation>, calculator: string -> Evaluation): Progress {
    if cs == [] then Nothing
    else match calculator(cs[0].expr)
      case Value(shown) => Computed(cs[0], shown).Then(Calculations(cs[1..], calculator))
      case Raised(reason) => Failure(reason)
  }

  /** The query mentions a gate keyword. */
  predicate Gate(query: string) {
    ChatbotLevel2.Mentions(Lower(query), GateKeywords)
  }

  /** The arithmetic stage. */
  function Arithmetic(query: string, calculator: string -> Evaluation): Progress {
    if !Gate(query) then Nothing
    else if Extracted(query) == [] then Failure(NothingFound)
    else Calculations(Extracted(query), calculator)
  }

  /** The query asks one of the factual questions. */
  predicate Factual(query: string) {
    ChatbotLevel2.Mentions(Lower(query), Facts)
  }

  /** A call to the model, recorded under `action`. */
  function Consulted(action: string, query: string, reply: Reply): Progress {
    var answer := Ask(reply, AgentFailure);
    Progress([Step(action, query, answer)], [ModelTool], [answer])
  }

  /** The knowledge stage. */
  function Knowledge(query: string, reply: Reply): Progress {
    if Factual(query) then Consulted("knowledge", query, reply) else Nothing
  }

  /** The fallback stage, after `p`. */
  function Finished(p: Progress, query: string, reply: Reply): Progress {
    if p.lines == [] then p.Then(Consulted("llm_fallback", query, reply)) else p
  }

  /** The stages before the fallback. */
  function Staged(query: string, reply: Reply, calculator: string -> Evaluation): Progress {
    Translation(query).Then(Arithmetic(query, calculator)).Then(Knowledge(query, reply))
  }

  /** All four stages of `handle_query`. */
  function Handled(query: string, reply: Reply, calculator: string -> Evaluation): Progress {
    Finished(Staged(query, reply, calculator), query, reply)
  }

  /** The log entry `handle_query` writes. */
  function LogOf(timestamp: string, query: string, reply: Reply, calculator: string -> Evaluation): Log {
    var p := Handled(query, reply, calculator);
    Log(timestamp, query, p.steps, (set t | t in p.tools), Join(p.lines, "\n"))
  }

  /** The log entry of every turn, for a given calculator. */
  function Entry(calculator: string -> Evaluation): Turn -> Log {
    (t: Turn) => LogOf(t.timestamp, t.line, t.reply, calculator)
  }

  /** The loop stops on "exit" or "quit", stripped and in any letter case, as in Level 2. */
  function Quits(t: Turn): bool {
    ChatbotLevel2.Exits(t.line)
  }

  /** The agent's state: the log entries written so far, one file per query. */
  class Agent {
    var written: seq<Log>

    constructor ()
      ensures written == []
    {
      written := [];
    }

    /** `handle_query(query)`: the four stages append to the same three
        lists, then the lines are joined and the log entry is written. */
    method HandleQuery(query: string, timestamp: string, reply: Reply, calculator: string -> Evaluation) returns (response: string)
      modifies this
      ensures response == Join(Handled(query, reply, calculator).lines, "\n")
      ensures written == old(written) + [LogOf(timestamp, query, reply, calculator)]
    {
      var lower := Lower(query);
      var steps, tools, responses := TranslationStage(query, lower, [], [], []);
      steps, tools, responses := ArithmeticStage(query, lower, calculator, steps, tools, responses);
      steps, tools, responses := KnowledgeStage(query, lower, reply, steps, tools, responses);
      steps, tools, responses := FallbackStage(query, reply, steps, tools, responses);
      NothingThen(Translation(query));
      response := Join(responses, "\n");
      written := written + [Log(timestamp, query, steps, (set t | t in tools), response)];
    }

    /** The main loop over the lines the user types, until an exit command
        or the end of the input. */
    method Run(turns: seq<Turn>, calculator: string -> Evaluation) returns (stopped: bool)
      modifies this
      ensures stopped == Sessions.Stops(turns, Quits)
      ensures written == old(written) + Sessions.Transcript(turns, Quits, Entry(calculator))
    {
      var i := 0;
      while i < |turns|
        invariant 0 <= i <= |turns|
        invariant !Sessions.Stops(turns[..i], Quits)
        invariant old(written) + Sessions.Transcript(turns, Quits, Entry(calculator)) == written + Sessions.Transcript(turns[i..], Quits, Entry(calculator))
      {
        var t := turns[i];
        var command := Lower(Strip(t.line));
        if command == "exit" || command == "quit" {
          Sessions.Ended(turns, i, Quits, Entry(calculator));
          Sessions.StopsFrom(turns, i, Quits);
          return true;
        }
        ghost var before := written;
        var response := HandleQuery(t.line, t.timestamp, t.reply, calculator);
        Sessions.Appended(before, turns, i, Quits, Entry(calculator));
        Sessions.StopsExtend(turns, i, Quits);
        i := i + 1;
      }
      Sessions.TranscriptEnd(turns, Quits, Entry(calculator));
      Sessions.StopsFrom(turns, i, Quits);
      return false;
    }
  }

  /** Stage 1 of `handle_query`: a translation, when the lower-cased query
      mentions the verb and the request pattern matches. */
  method TranslationStage(query: string, lower: string,
                          steps0: seq<Step>, tools0: seq<string>, responses0: seq<string>)
    returns (steps: seq<Step>, tools: seq<string>, responses: seq<string>)
    requires lower == Lower(query)
    ensures Progress(steps, tools, responses) == Progress(steps0, tools0, responses0).Then(Translation(query))
  {
    steps, tools, responses := steps0, tools0, responses0;
    if Contains(lower, Verb) {
      var found := Request(query);
      if found.Some? {
        var text := Strip(found.value);
        var translated := Translate(text);
        steps := steps + [Step("translate", text, translated)];
        tools := tools + [TranslatorTool];
        responses := responses + ["Translated: " + translated];
      }
    }
    if !(Contains(lower, Verb) && Request(query).Some?) {
      NothingThen(Progress(steps0, tools0, responses0));
    }
  }

  /** Stage 2: with a gate keyword in the query, the extracted
      calculations; with none extracted, the error line alone. */
  method ArithmeticStage(query: string, lower: string, calculator: string -> Evaluation,
                         steps0: seq<Step>, tools0: seq<string>, responses0: seq<string>)
    returns (steps: seq<Step>, tools: seq<string>, responses: seq<string>)
    requires lower == Lower(query)
    ensures Progress(steps, tools, responses) == Progress(steps0, tools0, responses0).Then(Arithmetic(query, calculator))
  {
    steps, tools, responses := steps0, tools0, responses0;
    if ChatbotLevel2.Mentions(lower, GateKeywords) {
      var expressions := ConvertAllMathExpressions(query);
      if expressions == [] {
        FailureAppended(Progress(steps, tools, responses), NothingFound);
        responses := responses + [CalculatorError + NothingFound];
        tools := tools + [CalculatorTool];
      } else {
        steps, tools, responses := CalculatorLoop(expressions, calculator, steps, tools, responses);
      }
    } else {
      NothingThen(Progress(steps0, tools0, responses0));
    }
  }

  /** The `for` loop over the calculations inside the `try`: a calculation
      that returns adds a step, the calculator's name and a result line; the
      first one that raises adds the error line and the calculator's name,
      and ends the loop. */
  method CalculatorLoop(expressions: seq<Calculation>, calculator: string -> Evaluation,
                        steps0: seq<Step>, tools0: seq<string>, responses0: seq<string>)
    returns (steps: seq<Step>, tools: seq<string>, responses: seq<string>)
    ensures Progress(steps, tools, responses) == Progress(steps0, tools0, responses0).Then(Calculations(expressions, calculator))
  {
    steps, tools, responses := steps0, tools0, responses0;
    ghost var start := Progress(steps0, tools0, responses0);
    var i := 0;
    while i < |expressions|
      invariant i <= |expressions|
      invariant Progress(steps, tools, responses).Then(Calculations(expressions[i..], calculator))
        == start.Then(Calculations(expressions, calculator))
    {
      var c := expressions[i];
      var result := calculator(c.expr);
      CalculationsStep(expressions, i, calculator);
      if result.Raised? {
        FailureAppended(Progress(steps, tools, responses), result.reason);
        responses := responses + [CalculatorError + result.reason];
        tools := tools + [CalculatorTool];
        return;
      }
      ThenAssoc(Progress(steps, tools, responses), Computed(c, result.shown), Calculations(expressions[i + 1..], calculator));
      steps := steps + [Step(c.operation.Name(), c.expr, result.shown)];
      tools := tools + [CalculatorTool];
      responses := responses + [c.operation.Title() + " Result: " + result.shown];
      i := i + 1;
    }
    assert expressions[i..] == [];
    NothingThen(Progress(steps, tools, responses));
  }

  /** Stage 3: the model answers the two factual questions. */
  method KnowledgeStage(query: string, lower: string, reply: Reply,
                        steps0: seq<Step>, tools0: seq<string>, responses0: seq<string>)
    returns (steps: seq<Step>, tools: seq<string>, responses: seq<string>)
    requires lower == Lower(query)
    ensures Progress(steps, tools, responses) == Progress(steps0, tools0, responses0).Then(Knowledge(query, reply))
  {
    steps, tools, responses := steps0, tools0, responses0;
    if ChatbotLevel2.Mentions(lower, Facts) {
      var fact := Ask(reply, AgentFailure);
      steps := steps + [Step("knowledge", query, fact)];
      tools := tools + [ModelTool];
      responses := responses + [fact];
    }
  }

  /** Stage 4: the model answers when no earlier stage gave a line. */
  method FallbackStage(query: string, reply: Reply,
                       steps0: seq<Step>, tools0: seq<string>, responses0: seq<string>)
    returns (steps: seq<Step>, tools: seq<string>, responses: seq<string>)
    ensures Progress(steps, tools, responses) == Finished(Progress(steps0, tools0, responses0), query, reply)
  {
    steps, tools, responses := steps0, tools0, responses0;
    if responses == [] {
      var fallback := Ask(reply, AgentFailure);
      steps := steps + [Step("llm_fallback", query, fallback)];
      tools := tools + [ModelTool];
      responses := responses + [fallback];
    }
  }

  lemma NothingThen(p: Progress)
    ensures Nothing.Then(p) == p && p.Then(Nothing) == p
  {
    assert [] + p.steps == p.steps && p.steps + [] == p.steps;
    assert [] + p.tools == p.tools && p.tools + [] == p.tools;
    assert [] + p.lines == p.lines && p.lines + [] == p.lines;
  }

  /** The error branch adds no step. */
  lemma FailureAppended(p: Progress, reason: string)
    ensures Progress(p.steps, p.tools + [CalculatorTool], p.lines + [CalculatorError + reason]) == p.Then(Failure(reason))
  {
    assert p.steps + [] == p.steps;
  }

  lemma ThenAssoc(p: Progress, q: Progress, r: Progress)
    ensures p.Then(q).Then(r) == p.Then(q.Then(r))
  {
    assert p.steps + q.steps + r.steps == p.steps + (q.steps + r.steps);
    assert p.tools + q.tools + r.tools == p.tools + (q.tools + r.tools);
    assert p.lines + q.lines + r.lines == p.lines + (q.lines + r.lines);
  }

  /** The loop's step over the calculations. */
  lemma CalculationsStep(cs: seq<Calculation>, i: nat, calculator: string -> Evaluation)
    requires i < |cs|
    ensures Calculations(cs[i..], calculator) ==
      match calculator(cs[i].expr)
      case Value(shown) => Computed(cs[i], shown).Then(Calculations(cs[i + 1..], calculator))
      case Raised(reason) => Failure(reason)
  {
    assert cs[i..][1..] == cs[i + 1..];
  }

  /** How many calculations return before the first one the calculator
      raises on. */
  function Leading(cs: seq<Calculation>, calculator: string -> Evaluation): (n: nat)
    ensures n <= |cs|
    ensures forall k :: 0 <= k < n ==> calculator(cs[k].expr).Value?
    ensures n < |cs| ==> calculator(cs[n].expr).Raised?
  {
    if cs == [] || calculator(cs[0].expr).Raised? then 0 else 1 + Leading(cs[1..], calculator)
  }

  /** The calculation loop keeps one step for every calculation before the
      first failure, in order. */
  lemma {:induction false} CalculationsSteps(cs: seq<Calculation>, calculator: string -> Evaluation)
    ensures |Calculations(cs, calculator).steps| == Leading(cs, calculator)
    ensures forall k :: 0 <= k < Leading(cs, calculator) ==>
      Calculations(cs, calculator).steps[k] == Step(cs[k].operation.Name(), cs[k].expr, calculator(cs[k].expr).shown)
  {
    if cs != [] && calculator(cs[0].expr).Value? {
      var rest := cs[1..];
      CalculationsSteps(rest, calculator);
      assert forall k :: 1 <= k < |cs| ==> cs[k] == rest[k - 1];
    }
  }

  /** The loop gives one result line for every calculation before the first
      failure, in order, then that failure's error line if there is one. */
  lemma {:induction false} CalculationsLines(cs: seq<Calculation>, calculator: string -> Evaluation)
    ensures var n := Leading(cs, calculator);
      |Calculations(cs, calculator).lines| == (if n < |cs| then n + 1 else n)
    ensures forall k :: 0 <= k < Leading(cs, calculator) ==>
      Calculations(cs, calculator).lines[k] == cs[k].operation.Title() + " Result: " + calculator(cs[k].expr).shown
    ensures Leading(cs, calculator) < |cs| ==>
      Calculations(cs, calculator).lines[Leading(cs, calculator)] == CalculatorError + calculator(cs[Leading(cs, calculator)].expr).reason
  {
    if cs != [] && calculator(cs[0].expr).Value? {
      var rest := cs[1..];
      CalculationsLines(rest, calculator);
      assert forall k :: 1 <= k < |cs| ==> cs[k] == rest[k - 1];
    }
  }

  /** The loop names the calculator once for each line, and no other tool. */
  lemma {:induction false} CalculationsTools(cs: seq<Calculation>, calculator: string -> Evaluation)
    ensures |Calculations(cs, calculator).tools| == |Calculations(cs, calculator).lines|
    ensures forall t :: t in Calculations(cs, calculator).tools ==> t == CalculatorTool
  {
    if cs != [] && calculator(cs[0].expr).Value? {
      CalculationsTools(cs[1..], calculator);
    }
  }

  /** Sound calculations make steps that add or multiply whitelisted expressions. */
  lemma {:induction false} SoundSteps(cs: seq<Calculation>, calculator: string -> Evaluation)
    requires forall c :: c in cs ==> Sound(c)
    ensures forall s :: s in Calculations(cs, calculator).steps ==>
      (s.action == "add" || s.action == "multiply") && Whitelisted(s.input)
  {
    if cs != [] && calculator(cs[0].expr).Value? {
      assert cs[0] in cs;
      assert forall c :: c in cs[1..] ==> c in cs;
      SoundSteps(cs[1..], calculator);
    }
  }

  /** Every step of the arithmetic stage adds or multiplies an expression
      the calculator's whitelist accepts. */
  lemma ArithmeticSteps(query: string, calculator: string -> Evaluation)
    ensures forall s :: s in Arithmetic(query, calculator).steps ==>
      (s.action == "add" || s.action == "multiply") && Whitelisted(s.input)
  {
    ExtractedShape(query);
    SoundSteps(Extracted(query), calculator);
  }

  /** The arithmetic stage gives at least one line exactly when the query
      has a gate keyword; with nothing extracted, that is the single error
      line; and every tool it names is the calculator, once per line. */
  lemma ArithmeticLines(query: string, calculator: string -> Evaluation)
    ensures Arithmetic(query, calculator).lines != [] <==> Gate(query)
    ensures Gate(query) && Extracted(query) == [] ==>
      Arithmetic(query, calculator).lines == [CalculatorError + NothingFound] && Arithmetic(query, calculator).steps == []
    ensures |Arithmetic(query, calculator).tools| == |Arithmetic(query, calculator).lines|
    ensures forall t :: t in Arithmetic(query, calculator).tools ==> t == CalculatorTool
  {
    if Gate(query) && Extracted(query) != [] {
      CalculationsLines(Extracted(query), calculator);
      CalculationsTools(Extracted(query), calculator);
    }
  }

  /** A translation happens exactly when the request pattern matches: a
      match already means the lower-cased query holds the verb. */
  lemma TranslationIff(query: string)
    ensures Translation(query).steps != [] <==> Request(query).Some?
    ensures Translation(query).lines != [] <==> Request(query).Some?
    ensures forall t :: t in Translation(query).tools ==> t == TranslatorTool
    ensures forall s :: s in Translation(query).steps ==> s.action == "translate"
    ensures Request(query).Some? ==>
      Translation(query).lines == ["Translated: " + Translate(Strip(Request(query).value))]
  {
    if Request(query).Some? {
      RequestMentions(query);
    }
  }

  /** A step in which the model is asked. */
  predicate AsksModel(s: Step) {
    s.action == "knowledge" || s.action == "llm_fallback"
  }

  /** The number of steps in which the model is asked. */
  function Consults(steps: seq<Step>): nat {
    if steps == [] then 0 else (if AsksModel(steps[0]) then 1 else 0) + Consults(steps[1..])
  }

  lemma {:induction false} ConsultsAppend(a: seq<Step>, b: seq<Step>)
    ensures Consults(a + b) == Consults(a) + Consults(b)
  {
    if a != [] {
      assert (a + b)[1..] == a[1..] + b;
      ConsultsAppend(a[1..], b);
    } else {
      assert a + b == b;
    }
  }

  lemma {:induction false} ConsultsNone(steps: seq<Step>)
    requires forall s :: s in steps ==> !AsksModel(s)
    ensures Consults(steps) == 0
  {
    if steps != [] {
      assert steps[0] in steps;
      assert forall s :: s in steps[1..] ==> s in steps;
      ConsultsNone(steps[1..]);
    }
  }

  /** Three stages in a row: the model is asked only in the third, nothing
      falls back, and no line comes out only when none of them gives one. */
  lemma ThreeStages(t: Progress, a: Progress, k: Progress)
    requires forall s :: s in t.steps ==> s.action == "translate"
    requires forall s :: s in a.steps ==> s.action == "add" || s.action == "multiply"
    requires forall s :: s in k.steps ==> s.action == "knowledge"
    ensures Consults(t.Then(a).Then(k).steps) == Consults(k.steps)
    ensures forall s :: s in t.Then(a).Then(k).steps ==> s.action != "llm_fallback"
    ensures t.Then(a).Then(k).lines == [] <==> t.lines == [] && a.lines == [] && k.lines == []
  {
    ConsultsNone(t.steps);
    ConsultsNone(a.steps);
    ConsultsAppend(t.steps, a.steps);
    ConsultsAppend(t.steps + a.steps, k.steps);
  }

  /** The stages before the fallback give no line exactly when there is no
      translation request, no gate keyword and no factual question; they
      ask the model only for a factual question, and never fall back. */
  lemma StagedShape(query: string, reply: Reply, calculator: string -> Evaluation)
    ensures Staged(query, reply, calculator).lines == [] <==> Request(query).None? && !Gate(query) && !Factual(query)
    ensures Consults(Staged(query, reply, calculator).steps) == if Factual(query) then 1 else 0
    ensures forall s :: s in Staged(query, reply, calculator).steps ==> s.action != "llm_fallback"
  {
    TranslationIff(query);
    ArithmeticLines(query, calculator);
    ArithmeticSteps(query, calculator);
    var k := Knowledge(query, reply);
    assert Consults(k.steps) == if Factual(query) then 1 else 0 by {
      if Factual(query) {
        assert k.steps[1..] == [];
      }
    }
    ThreeStages(Translation(query), Arithmetic(query, calculator), k);
  }

  /** The fallback asks the model once exactly when nothing came before it,
      and leaves at least one line. */
  lemma FinishedShape(p: Progress, query: string, reply: Reply)
    requires forall s :: s in p.steps ==> s.action != "llm_fallback"
    ensures Consults(Finished(p, query, reply).steps) == Consults(p.steps) + (if p.lines == [] then 1 else 0)
    ensures (exists k :: 0 <= k < |Finished(p, query, reply).steps| && Finished(p, query, reply).steps[k].action == "llm_fallback")
      <==> p.lines == []
    ensures Finished(p, query, reply).lines != []
  {
    var f := Finished(p, query, reply);
    if p.lines == [] {
      ConsultsAppend(p.steps, Consulted("llm_fallback", query, reply).steps);
      assert f.steps[|p.steps|].action == "llm_fallback";
    } else {
      assert forall k :: 0 <= k < |f.steps| ==> f.steps[k] in p.steps;
    }
  }

  /** The model is asked at most once per query: for the factual questions,
      or as the fallback when neither a translation nor a gate keyword nor a
      factual question is found; in every other case not at all. */
  lemma ModelAskedOnce(query: string, reply: Reply, calculator: string -> Evaluation)
    ensures Consults(Handled(query, reply, calculator).steps) ==
      if Factual(query) || (Request(query).None? && !Gate(query)) then 1 else 0
  {
    StagedShape(query, reply, calculator);
    FinishedShape(Staged(query, reply, calculator), query, reply);
  }

  /** The fallback step is taken exactly when no earlier stage gives a line:
      no translation request, no gate keyword and no factual question. Either
      way the response has at least one line. */
  lemma FallbackIff(query: string, reply: Reply, calculator: string -> Evaluation)
    ensures var steps := Handled(query, reply, calculator).steps;
      (exists k :: 0 <= k < |steps| && steps[k].action == "llm_fallback") <==>
      Request(query).None? && !Gate(query) && !Factual(query)
    ensures Handled(query, reply, calculator).lines != []
  {
    StagedShape(query, reply, calculator);
    FinishedShape(Staged(query, reply, calculator), query, reply);
  }

  /** The tools of the four stages: each name appears exactly when its stage
      gave a line, and the model's also when the fallback runs. */
  lemma ToolsOf(t: Progress, a: Progress, k: Progress, query: string, reply: Reply)
    requires |t.tools| == |t.lines| && forall x :: x in t.tools ==> x == TranslatorTool
    requires |a.tools| == |a.lines| && forall x :: x in a.tools ==> x == CalculatorTool
    requires k.tools == if k.lines == [] then [] else [ModelTool]
    ensures var f := Finished(t.Then(a).Then(k), query, reply);
      (forall x :: x in f.tools ==> x == TranslatorTool || x == CalculatorTool || x == ModelTool)
      && (TranslatorTool in f.tools <==> t.lines != [])
      && (CalculatorTool in f.tools <==> a.lines != [])
      && (ModelTool in f.tools <==> k.lines != [] || (t.lines == [] && a.lines == []))
  {
    assert TranslatorTool[0] == 't' && CalculatorTool[0] == 'c' && ModelTool[0] == 'L';
    if t.tools != [] {
      assert t.tools[0] in t.tools;
    }
    if a.tools != [] {
      assert a.tools[0] in a.tools;
    }
  }

  /** The tool names of a query, in the order they were used. */
  lemma HandledTools(query: string, reply: Reply, calculator: string -> Evaluation)
    ensures var f := Handled(query, reply, calculator).tools;
      (forall x :: x in f ==> x == TranslatorTool || x == CalculatorTool || x == ModelTool)
      && (TranslatorTool in f <==> Request(query).Some?)
      && (CalculatorTool in f <==> Gate(query))
      && (ModelTool in f <==> Factual(query) || (Request(query).None? && !Gate(query)))
  {
    var t, a, k := Translation(query), Arithmetic(query, calculator), Knowledge(query, reply);
    assert |t.tools| == |t.lines| && forall x :: x in t.tools ==> x == TranslatorTool;
    assert t.lines != [] <==> Request(query).Some? by {
      TranslationIff(query);
    }
    assert |a.tools| == |a.lines| && (forall x :: x in a.tools ==> x == CalculatorTool) && (a.lines != [] <==> Gate(query)) by {
      ArithmeticLines(query, calculator);
    }
    ToolsOf(t, a, k, query, reply);
  }

  /** The log names the translator exactly when a translation request
      matches, the calculator exactly when a gate keyword is present, and
      the model exactly when it is asked; no other tool. */
  lemma ToolsUsed(timestamp: string, query: string, reply: Reply, calculator: string -> Evaluation)
    ensures var used := LogOf(timestamp, query, reply, calculator).toolsUsed;
      used <= {TranslatorTool, CalculatorTool, ModelTool}
      && (TranslatorTool in used <==> Request(query).Some?)
      && (CalculatorTool in used <==> Gate(query))
      && (ModelTool in used <==> Factual(query) || (Request(query).None? && !Gate(query)))
  {
    HandledTools(query, reply, calculator);
  }

  /** What leads the response when the first stage gave a line. */
  lemma Leads(t: Progress, a: Progress, k: Progress, query: string, reply: Reply)
    requires t.steps != [] && t.lines != []
    ensures var f := Finished(t.Then(a).Then(k), query, reply);
      f.steps != [] && f.lines != [] && f.steps[0] == t.steps[0] && f.lines[0] == t.lines[0]
  {
  }

  /** A translation gives the first step and the first line. */
  lemma TranslationFirst(query: string, reply: Reply, calculator: string -> Evaluation)
    requires Request(query).Some?
    ensures var h, text := Handled(query, reply, calculator), Strip(Request(query).value);
      h.steps != [] && h.lines != [] &&
      h.steps[0] == Step("translate", text, Translate(text)) && h.lines[0] == "Translated: " + Translate(text)
  {
    TranslationIff(query);
    Leads(Translation(query), Arithmetic(query, calculator), Knowledge(query, reply), query, reply);
  }

  /** A factual question gives the last step and the last line: the model's answer. */
  lemma KnowledgeLast(query: string, reply: Reply, calculator: string -> Evaluation)
    requires Factual(query)
    ensures var h := Handled(query, reply, calculator);
      h.steps[|h.steps| - 1] == Step("knowledge", query, Ask(reply, AgentFailure)) &&
      h.lines[|h.lines| - 1] == Ask(reply, AgentFailure)
  {
  }

  /** Every gate keyword is also a math keyword of the calculator chatbot,
      so a query that opens the arithmetic stage here would go to the
      calculator there as well. */
  lemma GateIsMath(query: string)
    requires Gate(query)
    ensures ChatbotLevel2.IsMathExpression(query)
  {
    var k :| 0 <= k < |GateKeywords| && Contains(Lower(query), GateKeywords[k]);
    var j := [0, 1, 2, 6, 7, 13, 11][k];
    assert ChatbotLevel2.MathKeywords[j] == GateKeywords[k];
  }

  /** The phrase the request names is translated once its surrounding
      whitespace is stripped. */
  lemma TranslatedPhrase(query: string, x: string)
    requires Request(query) == Some(x) && !IsSpace(x[0]) && !IsSpace(x[|x| - 1])
    ensures Translation(query).lines == ["Translated: " + Translate(x)]
  {
    TranslationIff(query);
    StripPadded([], x, []);
    assert [] + x + [] == x;
  }

  /** A quoted phrase of the request is translated without its quotes. */
  lemma QuotedTranslation(v: string, q: char, x: string, n: string, m: string)
    requires Lower(v) == Verb && [Lower(n), Lower(m)] == Target && IsQuote(q)
    requires x != [] && !IsSpace(x[0]) && !IsSpace(x[|x| - 1])
    requires forall k :: 0 <= k < |x| ==> !IsQuote(x[k])
    ensures Translation(v + " " + ([q] + x + [q]) + " " + n + " " + m).lines == ["Translated: " + Translate(x)]
  {
    QuotedRequest(v, q, x, n, m);
    TranslatedPhrase(v + " " + ([q] + x + [q]) + " " + n + " " + m, x);
  }

  /** A run writes one log entry for each line before the first exit
      command, in order: the line as typed, not stripped, its clock reading,
      and the response to it. */
  lemma SessionLogs(turns: seq<Turn>, calculator: string -> Evaluation)
    ensures var logs := Sessions.Transcript(turns, Quits, Entry(calculator));
      |logs| <= |turns| && (|logs| < |turns| <==> Sessions.Stops(turns, Quits))
      && (|logs| < |turns| ==> ChatbotLevel2.Exits(turns[|logs|].line))
    ensures var logs := Sessions.Transcript(turns, Quits, Entry(calculator));
      forall i :: 0 <= i < |logs| ==>
        (!ChatbotLevel2.Exits(turns[i].line) && logs[i].query == turns[i].line && logs[i].timestamp == turns[i].timestamp &&
         logs[i].response == Join(Handled(turns[i].line, turns[i].reply, calculator).lines, "\n"))
  {
    Sessions.TranscriptShape(turns, Quits, Entry(calculator));
  }
}
