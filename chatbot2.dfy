/** The calculator chatbot of Level-2/chatbot-2.py: it refuses a line that
    mixes a calculation with a general question, hands a calculation to the
    calculator tool after rewriting it as an expression, and sends everything
    else to the language model; every turn adds one record to the session
    log. */
module ChatbotLevel2 {
  import opened Wrappers
  import opened Text
  import opened Patterns
  import opened Sentences
  import opened Exclusion
  import opened Quiet
  import opened Calculator
  import opened Gemini
  import Sessions

  const MathKeywords: seq<string> := ["add", "plus", "sum", "subtract", "minus", "difference",
    "multiply", "times", "product", "divide", "divided", "+", "-", "*", "/"]
  const Splitters: seq<string> := [" and ", " also ", " while ", " as well as ", ", then "]
  const GeneralKeywords: seq<string> := ["capital", "president", "country", "population", "who is"]

  /** One of `words` is a substring of `text`, as `any(w in text for w in words)`. */
  predicate Mentions(text: string, words: seq<string>) {
    exists k :: 0 <= k < |words| && Contains(text, words[k])
  }

  /** `is_math_expression`. */
  predicate IsMathExpression(text: string) {
    Mentions(Lower(text), MathKeywords)
  }

  /** `is_mixed_intent`: a splitter, a math keyword and a general keyword. */
  predicate IsMixedIntent(text: string) {
    var t := Lower(text);
    Mentions(t, Splitters) && IsMathExpression(t) && Mentions(t, GeneralKeywords)
  }

  /** The patterns in the order `convert_natural_to_expression` tries them. */
  const Rules: seq<Pattern> := [Add, Subtract, Multiply, Divide, WhatTimes, WhatDivided, WhatPlus, WhatMinus]

  /** The text the patterns are searched in: lower case, stripped, without question marks. */
  function Normalize(text: string): string {
    Remove(Strip(Lower(text)), '?')
  }

  /** `re.search(p, s)`: the leftmost match of a pattern; both of its groups are numerals. */
  function Find(p: Pattern, s: string): (r: Option<Match>)
    ensures r.Some? ==> |r.value.groups| == 2 && IsNumeral(r.value.groups[0]) && IsNumeral(r.value.groups[1])
  {
    Search(p.Tokens(), s, 0)
  }

  /** The search result of every rule, in order. */
  function Found(rules: seq<Pattern>, s: string): (r: seq<Option<Match>>)
    ensures |r| == |rules| && forall k :: 0 <= k < |rules| ==> r[k] == Find(rules[k], s)
    ensures forall k :: 0 <= k < |r| && r[k].Some? ==> |r[k].value.groups| == 2
  {
    seq(|rules|, k requires 0 <= k < |rules| => Find(rules[k], s))
  }

  /** The index of the first search that found something. */
  function FirstFound(found: seq<Option<Match>>): (r: Option<nat>)
    ensures r.Some? ==> r.value < |found| && found[r.value].Some?
    ensures r.Some? ==> forall k :: 0 <= k < r.value ==> found[k].None?
    ensures r.None? ==> forall k :: 0 <= k < |found| ==> found[k].None?
  {
    if found == [] then None
    else if found[0].Some? then Some(0)
    else
      var rest := FirstFound(found[1..]);
      assert forall k :: 1 <= k < |found| ==> found[k] == found[1..][k - 1];
      if rest.None? then None else Some(rest.value + 1)
  }

  /** The operator a pattern stands for. */
  function Operator(p: Pattern): char {
    match p
    case Add | WhatPlus => '+'
    case Subtract | WhatMinus => '-'
    case Multiply | WhatTimes | MultiplyLoose => '*'
    case Divide | WhatDivided => '/'
  }

  /** The expression a match is rewritten to; "subtract" takes its numbers in the other order. */
  function Render(p: Pattern, m: Match): string
    requires |m.groups| == 2
  {
    if p == Subtract then Expression(m.groups[1], '-', m.groups[0])
    else Expression(m.groups[0], Operator(p), m.groups[1])
  }

  /** The first of `rules` that matches anywhere in `s` rewrites its match
      to an expression; when none matches, `s` comes back as it is. */
  function Rewrite(rules: seq<Pattern>, s: string): string {
    var found := Found(rules, s);
    match FirstFound(found)
    case None => s
    case Some(k) => Render(rules[k], found[k].value)
  }

  /** `convert_natural_to_expression`. */
  function Convert(text: string): string {
    Rewrite(Rules, Normalize(text))
  }

  /** A whole sentence is found at its start and spans all of it. */
  lemma FindSentence(p: Pattern, c: nat, a: string, b: string)
    requires c < |p.Connectives()| && IsNumeral(a) && IsNumeral(b)
    ensures var s := Sentence(p, c, a, b); Find(p, s) == Some(Match(0, |s|, [a, b]))
  {
    var s := Sentence(p, c, a, b);
    var ts := p.Tokens();
    OccursSelf(s);
    MatchSentence(p, c, a, b, s, 0);
    assert MatchAt(ts, s, 0) == Some(Match(0, |s|, [a, b]));
    SearchAtStart(ts, s);
    FindIsSearch(p, s);
  }

  lemma FindIsSearch(p: Pattern, s: string)
    ensures Find(p, s) == Search(p.Tokens(), s, 0)
  {
  }

  lemma OccursSelf(s: string)
    ensures OccursAt(s, s, 0)
  {
  }

  lemma SearchAtStart(ts: seq<Token>, s: string)
    requires MatchAt(ts, s, 0).Some?
    ensures Search(ts, s, 0) == MatchAt(ts, s, 0)
  {
  }

  /** Rules that never match are never found. */
  lemma Unfound(k: nat, s: string)
    requires k <= |Rules| && forall j :: 0 <= j < k ==> Silent(Rules[j], s)
    ensures forall j :: 0 <= j < k ==> Find(Rules[j], s).None?
  {
    forall j | 0 <= j < k
      ensures Find(Rules[j], s).None?
    {
      SilentSearch(Rules[j], s);
    }
  }

  /** In a sentence of `Rules[k]`, no earlier rule is found. */
  lemma EarlierUnfound(k: nat, c: nat, a: string, b: string)
    requires k < |Rules| && c < |Rules[k].Connectives()| && IsNumeral(a) && IsNumeral(b)
    ensures var s := Sentence(Rules[k], c, a, b); forall j :: 0 <= j < k ==> Find(Rules[j], s).None?
  {
    var s := Sentence(Rules[k], c, a, b);
    if k == 1 {
      QuietSubtract(c, a, b);
    } else if k == 2 {
      QuietMultiply(c, a, b);
    } else if k == 3 {
      QuietDivide(c, a, b);
    } else if k == 4 {
      QuietWhatTimes(c, a, b);
    } else if k == 5 {
      QuietWhatDivided(c, a, b);
    } else if k == 6 {
      QuietWhatPlus(c, a, b);
    } else if k == 7 {
      QuietWhatMinus(c, a, b);
    }
    Unfound(k, s);
  }

  /** `FirstFound` picks the only candidate: a found entry with nothing found before it. */
  lemma FirstFoundAt(found: seq<Option<Match>>, k: nat)
    requires k < |found| && found[k].Some? && forall j :: 0 <= j < k ==> found[j].None?
    ensures FirstFound(found) == Some(k)
  {
  }

  /** The rule that `Rewrite` applies is the first one found. */
  lemma RewritePicks(rules: seq<Pattern>, s: string, k: nat, m: Match)
    requires k < |rules| && Find(rules[k], s) == Some(m)
    requires forall j :: 0 <= j < k ==> Find(rules[j], s).None?
    ensures Rewrite(rules, s) == Render(rules[k], m)
  {
    FirstFoundAt(Found(rules, s), k);
  }

  /** A normalized sentence of `Rules[k]` is rewritten to that rule's
      expression, with the numbers in the order spoken, except for "subtract
      a from b", which becomes `b - a`: no earlier rule matches it. */
  lemma ConvertSentence(text: string, k: nat, c: nat, a: string, b: string)
    requires k < |Rules| && c < |Rules[k].Connectives()| && IsNumeral(a) && IsNumeral(b)
    requires Normalize(text) == Sentence(Rules[k], c, a, b)
    ensures Rules[k] == Subtract ==> Convert(text) == Expression(b, '-', a)
    ensures Rules[k] != Subtract ==> Convert(text) == Expression(a, Operator(Rules[k]), b)
  {
    var s := Normalize(text);
    FindSentence(Rules[k], c, a, b);
    EarlierUnfound(k, c, a, b);
    RewritePicks(Rules, s, k, Match(0, |s|, [a, b]));
  }

  /** Every pattern starts with a letter the calculator does not accept. */
  lemma LeadLetter(p: Pattern)
    ensures p.Lead() != [] && p.Lead()[0] != [] && p.Lead()[0][0] !in Allowed
  {
    var w := p.Lead()[0];
    assert w[0] in "asmdw" by {
      match p
      case Add => assert w == "add";
      case Subtract => assert w == "subtract";
      case Multiply | MultiplyLoose => assert w == "multiply";
      case Divide => assert w == "divide";
      case WhatTimes | WhatDivided | WhatPlus | WhatMinus => assert w == "what";
    }
  }

  /** A text in which a pattern is found holds a letter the calculator rejects. */
  lemma FoundNotWhitelisted(p: Pattern, s: string)
    requires Find(p, s).Some?
    ensures !Whitelisted(s)
  {
    var j := Find(p, s).value.start;
    LeadNeeded(p, s, j);
    LeadLetter(p);
    OccursChar(s, p.Lead()[0], j, 0);
    assert s[j] !in Allowed;
  }

  /** An expression of two numerals and one of the four operators passes the whitelist. */
  lemma ExpressionWhitelisted(a: string, op: char, b: string)
    requires IsNumeral(a) && IsNumeral(b) && op in "+-*/"
    ensures Whitelisted(Expression(a, op, b))
  {
    var e := Expression(a, op, b);
    forall k | 0 <= k < |e|
      ensures e[k] in Allowed
    {
      WhitelistedChars(e);
      if k < |a| {
        assert e[k] == a[k];
      } else if k < |a| + 3 {
        assert e[k] == ' ' || e[k] == op;
      } else {
        assert e[k] == b[k - |a| - 3];
      }
    }
  }

  /** The rewritten text differs from the searched text exactly when some
      pattern is found in it, and then it is an expression of two numerals
      that the calculator's whitelist accepts. */
  lemma RewriteOutcome(rules: seq<Pattern>, s: string)
    ensures Rewrite(rules, s) != s <==> exists k :: 0 <= k < |rules| && Find(rules[k], s).Some?
    ensures Rewrite(rules, s) != s ==> Whitelisted(Rewrite(rules, s))
    ensures Rewrite(rules, s) != s ==>
      exists a, op, b :: IsNumeral(a) && IsNumeral(b) && op in "+-*/" && Rewrite(rules, s) == Expression(a, op, b)
  {
    var found := Found(rules, s);
    var first := FirstFound(found);
    if first.Some? {
      RewriteFoundCase(rules, s, first.value);
    }
  }

  lemma RewriteFoundCase(rules: seq<Pattern>, s: string, k: nat)
    requires FirstFound(Found(rules, s)) == Some(k)
    ensures Rewrite(rules, s) != s && Whitelisted(Rewrite(rules, s))
    ensures exists a, op, b :: IsNumeral(a) && IsNumeral(b) && op in "+-*/" && Rewrite(rules, s) == Expression(a, op, b)
  {
    var m := Found(rules, s)[k].value;
    var p := rules[k];
    var a, b := m.groups[0], m.groups[1];
    var op := Operator(p);
    assert Find(p, s) == Some(m);
    FoundNotWhitelisted(p, s);
    assert op in "+-*/";
    if p == Subtract {
      ExpressionWhitelisted(b, op, a);
      assert Rewrite(rules, s) == Expression(b, op, a);
    } else {
      ExpressionWhitelisted(a, op, b);
      assert Rewrite(rules, s) == Expression(a, op, b);
    }
  }

  /** The same for `convert_natural_to_expression` and its eight rules. */
  lemma ConvertOutcome(text: string)
    ensures Convert(text) != Normalize(text) <==> exists k :: 0 <= k < |Rules| && Find(Rules[k], Normalize(text)).Some?
    ensures Convert(text) != Normalize(text) ==> Whitelisted(Convert(text))
    ensures Convert(text) != Normalize(text) ==>
      exists a, op, b :: IsNumeral(a) && IsNumeral(b) && op in "+-*/" && Convert(text) == Expression(a, op, b)
  {
    RewriteOutcome(Rules, Normalize(text));
  }

  /** A mixed line is always also a math line: `is_mixed_intent` runs the
      math check on the lowered text, and lowering twice is lowering once. */
  lemma MixedIsMath(text: string)
    ensures IsMixedIntent(text) ==> IsMathExpression(text)
  {
    LowerIdempotent(text);
  }

  /** A text without upper-case letters is its own lower case. */
  lemma LowerPlain(s: string)
    requires forall i :: 0 <= i < |s| ==> !IsUpper(s[i])
    ensures Lower(s) == s
  {
  }

  /** The keywords are written in lower case. */
  lemma KeywordsLower()
    ensures forall k, i :: 0 <= k < |MathKeywords| && 0 <= i < |MathKeywords[k]| ==> !IsUpper(MathKeywords[k][i])
  {
  }

  /** A keyword anywhere in a line, even inside another word, makes it a math line. */
  lemma KeywordMakesMath(x: string, k: nat, y: string)
    requires k < |MathKeywords|
    ensures IsMathExpression(x + MathKeywords[k] + y)
  {
    var w := MathKeywords[k];
    KeywordsLower();
    LowerPlain(w);
    LowerAppend(x + w, y);
    LowerAppend(x, w);
    assert Contains(w, w) by {
      assert StartsWith(w, w);
    }
    ContainsInfix(Lower(x), w, Lower(y), w);
  }

  /** The answer to a line that mixes intents. */
  const Refusal: string := "I'm currently unable to handle multiple questions at once. Please ask one at a time."

  /** The text in front of a calculator error. */
  const CalculatorFailure: string := ErrorPrefix + " Calculator tool failed: "

  /** The answer, the tools and the event of one turn. */
  datatype Reaction = Reaction(answer: string, tools: seq<string>, event: Event)

  /** The calculator's turn on an expression: its value, or its error message
      quoted after the expression, in the same words the calculator uses. */
  function Compute(evaluate: string -> Evaluation, e: string): Reaction {
    match Calculate(evaluate, e)
    case Returned(shown) => Reaction("The result is: " + shown, ["calculator"], ToolCalculator)
    case ValueError(message) => Reaction(CalculatorFailure + Invalid(e, message), ["calculator"], ErrorOccurred)
  }

  /** What the main loop does with a stripped line `u` that is not an exit
      command: refuse a mixed line, compute a math line, ask the model about
      anything else. */
  function Respond(u: string, reply: Reply, evaluate: string -> Evaluation): Reaction {
    if IsMixedIntent(u) then Reaction(Refusal, [], MultiIntentDetected)
    else if IsMathExpression(u) then Compute(evaluate, Convert(u))
    else
      var answer := Ask(reply, ChatbotFailure);
      Reaction(answer, ["LLM (Gemini)"], Tag(answer))
  }

  /** Which tool a turn uses is decided by the two detectors alone, and the
      events agree with the tools and the answers. */
  lemma ReactionKinds(u: string, reply: Reply, evaluate: string -> Evaluation)
    ensures Respond(u, reply, evaluate).tools == [] <==> IsMixedIntent(u)
    ensures Respond(u, reply, evaluate).event == MultiIntentDetected <==> IsMixedIntent(u)
    ensures Respond(u, reply, evaluate).tools == ["calculator"] <==> !IsMixedIntent(u) && IsMathExpression(u)
    ensures Respond(u, reply, evaluate).tools == ["LLM (Gemini)"] <==> !IsMathExpression(u)
    ensures Respond(u, reply, evaluate).event == ToolCalculator <==>
      !IsMixedIntent(u) && IsMathExpression(u) && Calculate(evaluate, Convert(u)).Returned?
    ensures Respond(u, reply, evaluate).event == ErrorOccurred ==> StartsWith(Respond(u, reply, evaluate).answer, ErrorPrefix)
  {
    MixedIsMath(u);
    var r := Respond(u, reply, evaluate);
    assert ["calculator"] != ["LLM (Gemini)"] by {
      assert "calculator"[0] != "LLM (Gemini)"[0];
    }
    if !IsMixedIntent(u) && IsMathExpression(u) {
      var c := Calculate(evaluate, Convert(u));
      if c.ValueError? {
        CalculatorErrorPrefixed(Invalid(Convert(u), c.message));
      }
    }
  }

  /** The calculator branch, for every math line that is not mixed: the
      calculator's value gives "The result is: " and `tool:calculator`; its
      error, whether from the whitelist or from the evaluator, is wrapped once
      more and tagged `error_occurred`. */
  lemma CalculatorAnswer(u: string, reply: Reply, evaluate: string -> Evaluation)
    requires !IsMixedIntent(u) && IsMathExpression(u)
    ensures Respond(u, reply, evaluate) == match Calculate(evaluate, Convert(u))
      case Returned(shown) => Reaction("The result is: " + shown, ["calculator"], ToolCalculator)
      case ValueError(message) => Reaction(CalculatorFailure + Invalid(Convert(u), message), ["calculator"], ErrorOccurred)
    ensures Respond(u, reply, evaluate).event == ToolCalculator <==> Calculate(evaluate, Convert(u)).Returned?
    ensures Respond(u, reply, evaluate).event == ErrorOccurred <==> Calculate(evaluate, Convert(u)).ValueError?
  {
  }

  lemma CalculatorErrorPrefixed(x: string)
    ensures StartsWith(CalculatorFailure + x, ErrorPrefix)
  {
    PrefixOf(ErrorPrefix, " Calculator tool failed: " + x);
    assert CalculatorFailure + x == ErrorPrefix + (" Calculator tool failed: " + x);
  }

  /** The expression a sentence of `Rules[k]` stands for. */
  function Intended(k: nat, a: string, b: string): string
    requires k < |Rules|
  {
    if Rules[k] == Subtract then Expression(b, '-', a) else Expression(a, Operator(Rules[k]), b)
  }

  /** A math line whose normalized text is a sentence of one of the rules is
      answered with the value of the expression that sentence stands for, or
      with the evaluator's error about that expression. */
  lemma SentenceAnswered(u: string, reply: Reply, evaluate: string -> Evaluation, k: nat, c: nat, a: string, b: string)
    requires k < |Rules| && c < |Rules[k].Connectives()| && IsNumeral(a) && IsNumeral(b)
    requires Normalize(u) == Sentence(Rules[k], c, a, b)
    requires !IsMixedIntent(u) && IsMathExpression(u)
    ensures var e := Intended(k, a, b);
      Respond(u, reply, evaluate) == match evaluate(e)
        case Value(shown) => Reaction("The result is: " + shown, ["calculator"], ToolCalculator)
        case Raised(reason) => Reaction(CalculatorFailure + Invalid(e, Invalid(e, reason)), ["calculator"], ErrorOccurred)
  {
    ConvertSentence(u, k, c, a, b);
    IntendedWhitelisted(k, a, b);
  }

  lemma IntendedWhitelisted(k: nat, a: string, b: string)
    requires k < |Rules| && IsNumeral(a) && IsNumeral(b)
    ensures Whitelisted(Intended(k, a, b))
  {
    assert Operator(Rules[k]) in "+-*/";
    if Rules[k] == Subtract {
      ExpressionWhitelisted(b, '-', a);
    } else {
      ExpressionWhitelisted(a, Operator(Rules[k]), b);
    }
  }

  /** A math line that no rule rewrites and that keeps a letter is refused by
      the calculator's whitelist, and the error quotes the normalized line. */
  lemma UnconvertedRejected(u: string, reply: Reply, evaluate: string -> Evaluation)
    requires !IsMixedIntent(u) && IsMathExpression(u)
    requires forall k :: 0 <= k < |Rules| ==> Find(Rules[k], Normalize(u)).None?
    requires !Whitelisted(Normalize(u))
    ensures Respond(u, reply, evaluate) ==
      Reaction(CalculatorFailure + Invalid(Normalize(u), InvalidCharacters), ["calculator"], ErrorOccurred)
  {
    ConvertOutcome(u);
  }

  /** A math line whose normalized text is already made of allowed
      characters is handed to the evaluator unchanged. */
  lemma WrittenArithmetic(u: string, reply: Reply, evaluate: string -> Evaluation)
    requires !IsMixedIntent(u) && IsMathExpression(u) && Whitelisted(Normalize(u))
    ensures Convert(u) == Normalize(u)
    ensures evaluate(Normalize(u)).Value? ==>
      Respond(u, reply, evaluate) == Reaction("The result is: " + evaluate(Normalize(u)).shown, ["calculator"], ToolCalculator)
  {
    ConvertOutcome(u);
    if Convert(u) != Normalize(u) {
      var k :| 0 <= k < |Rules| && Find(Rules[k], Normalize(u)).Some?;
      FoundNotWhitelisted(Rules[k], Normalize(u));
    }
  }

  /** One entry of the session log. */
  datatype Record = Record(timestamp: string, userInput: string, botResponse: string, toolsUsed: seq<string>, event: Event)

  /** The loop stops on "exit" or "quit", in any letter case, around which the line may carry whitespace. */
  predicate Exits(line: string) {
    var u := Lower(Strip(line));
    u == "exit" || u == "quit"
  }

  /** The log entry of a turn that is not an exit command. */
  function RecordOf(t: Turn, evaluate: string -> Evaluation): Record {
    var u := Strip(t.line);
    var r := Respond(u, t.reply, evaluate);
    Record(t.timestamp, u, r.answer, r.tools, r.event)
  }

  /** The log entry of every turn, for a given evaluator. */
  function Entry(evaluate: string -> Evaluation): Turn -> Record {
    t => RecordOf(t, evaluate)
  }

  /** Whether a turn is an exit command. */
  function Quits(t: Turn): bool {
    Exits(t.line)
  }

  /** The calculator chatbot's state: the session log, and what was written
      to the log file, which happens only when the user exits. */
  class Assistant {
    var log: seq<Record>
    var saved: Option<seq<Record>>

    constructor ()
      ensures log == [] && saved == None
    {
      log := [];
      saved := None;
    }

    /** One pass of the main loop. */
    method Turn(t: Turn, evaluate: string -> Evaluation) returns (done: bool)
      modifies this
      ensures done == Quits(t)
      ensures done ==> log == old(log) && saved == Some(old(log))
      ensures !done ==> log == old(log) + [Entry(evaluate)(t)] && saved == old(saved)
    {
      var u := Strip(t.line);
      if Lower(u) == "exit" || Lower(u) == "quit" {
        saved := Some(log);
        return true;
      }
      var answer: string;
      var tools: seq<string>;
      var event: Event;
      if IsMixedIntent(u) {
        answer := Refusal;
        tools := [];
        event := MultiIntentDetected;
      } else if IsMathExpression(u) {
        var e := Convert(u);
        var outcome := Calculate(evaluate, e);
        if outcome.Returned? {
          answer := "The result is: " + outcome.shown;
          event := ToolCalculator;
        } else {
          answer := CalculatorFailure + Invalid(e, outcome.message);
          event := ErrorOccurred;
        }
        tools := ["calculator"];
      } else {
        answer := Ask(t.reply, ChatbotFailure);
        tools := ["LLM (Gemini)"];
        event := Tag(answer);
      }
      log := log + [Record(t.timestamp, u, answer, tools, event)];
      return false;
    }

    /** The main loop over the lines the user types, until an exit command
        or the end of the input. */
    method Run(turns: seq<Turn>, evaluate: string -> Evaluation) returns (stopped: bool)
      modifies this
      ensures stopped == Sessions.Stops(turns, Quits)
      ensures log == old(log) + Sessions.Transcript(turns, Quits, Entry(evaluate))
      ensures saved == if stopped then Some(log) else old(saved)
    {
      var i := 0;
      while i < |turns|
        invariant 0 <= i <= |turns|
        invariant !Sessions.Stops(turns[..i], Quits)
        invariant old(log) + Sessions.Transcript(turns, Quits, Entry(evaluate)) == log + Sessions.Transcript(turns[i..], Quits, Entry(evaluate))
        invariant saved == old(saved)
      {
        ghost var before := log;
        var done := Turn(turns[i], evaluate);
        if done {
          Sessions.Ended(turns, i, Quits, Entry(evaluate));
          Sessions.StopsFrom(turns, i, Quits);
          return true;
        }
        Sessions.Appended(before, turns, i, Quits, Entry(evaluate));
        Sessions.StopsExtend(turns, i, Quits);
        i := i + 1;
      }
      Sessions.TranscriptEnd(turns, Quits, Entry(evaluate));
      Sessions.StopsFrom(turns, i, Quits);
      return false;
    }
  }
}
