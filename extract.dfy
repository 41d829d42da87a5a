/** How the full agent of Level-3/full_agent.py reads arithmetic out of a
    query: every non-overlapping match of four sentence patterns, pattern by
    pattern, each turned into an addition or a multiplication. */
module AgentMath {
  import opened Wrappers
  import opened Text
  import opened Patterns
  import opened Calculator
  import ChatbotLevel2
  import Sentences
  import Exclusion

  /** The two operations the agent knows. */
  datatype Operation = Addition | Multiplication
  {
    /** The name recorded as the action of a step. */
    function Name(): string {
      match this
      case Addition => "add"
      case Multiplication => "multiply"
    }

    /** `Name().title()`, which starts a result line. */
    function Title(): string {
      match this
      case Addition => "Add"
      case Multiplication => "Multiply"
    }

    function Symbol(): char {
      match this
      case Addition => '+'
      case Multiplication => '*'
    }
  }

  /** One entry of the list `convert_all_math_expressions` returns. */
  datatype Calculation = Calculation(operation: Operation, expr: string)

  /** A token list `finditer` can walk: it never matches the empty string and
      it captures two numbers, as every pattern's tokens do. */
  predicate Scannable(ts: seq<Token>) {
    ts != [] && Advances(ts[0]) && Captures(ts) == 2
  }

  /** `re.finditer` from `i`: every match has two numeral groups, and the
      matches run left to right without overlapping. */
  function Matches(ts: seq<Token>, t: string, i: nat): (ms: seq<Match>)
    requires Scannable(ts) && i <= |t|
    ensures forall k :: 0 <= k < |ms| ==> |ms[k].groups| == 2 && IsNumeral(ms[k].groups[0]) && IsNumeral(ms[k].groups[1])
    ensures forall k :: 0 <= k < |ms| ==> i <= ms[k].start < ms[k].end <= |t|
    ensures forall k :: 0 < k < |ms| ==> ms[k - 1].end <= ms[k].start
  {
    FindAll(ts, t, i)
  }

  /** The entry for one match. */
  function Calculated(op: Operation, m: Match): Calculation
    requires |m.groups| == 2
  {
    Calculation(op, Expression(m.groups[0], op.Symbol(), m.groups[1]))
  }

  /** The entries a loop over matches appends, in order. */
  function Scanned(op: Operation, ms: seq<Match>): seq<Calculation>
    requires forall k :: 0 <= k < |ms| ==> |ms[k].groups| == 2
  {
    if ms == [] then [] else [Calculated(op, ms[0])] + Scanned(op, ms[1..])
  }

  /** The text the patterns are searched in: lower case, stripped, without
      question marks, as in the calculator chatbot. */
  function Prepared(text: string): string {
    ChatbotLevel2.Normalize(text)
  }

  /** All additions written "add A and/to B", then all multiplications
      written "multiply A [and|by] B", then "what is A times/multiplied by B",
      then the additions written "what is A plus/added to B". */
  function Extracted(text: string): seq<Calculation> {
    var t := Prepared(text);
    Scanned(Addition, Matches(Add.Tokens(), t, 0)) + Scanned(Multiplication, Matches(MultiplyLoose.Tokens(), t, 0))
      + Scanned(Multiplication, Matches(WhatTimes.Tokens(), t, 0)) + Scanned(Addition, Matches(WhatPlus.Tokens(), t, 0))
  }

  /** One `for match in re.finditer(...)` loop: the entry of each match is appended to `before`. */
  method Scan(ts: seq<Token>, op: Operation, t: string, before: seq<Calculation>) returns (after: seq<Calculation>)
    requires Scannable(ts)
    ensures after == before + Scanned(op, Matches(ts, t, 0))
  {
    after := before;
    var i := 0;
    while true
      invariant i <= |t|
      invariant after + Scanned(op, Matches(ts, t, i)) == before + Scanned(op, Matches(ts, t, 0))
      decreases |t| - i
    {
      var found := Search(ts, t, i);
      if found.None? {
        assert Matches(ts, t, i) == [];
        assert after + [] == after;
        return;
      }
      var m := found.value;
      ScanStep(ts, op, t, i, m);
      Regroup(after, Calculated(op, m), Scanned(op, Matches(ts, t, m.end)));
      after := after + [Calculated(op, m)];
      i := m.end;
    }
  }

  /** The loop's step: a match found from `i` contributes its entry, and the
      rest of the entries come from where it ends. */
  lemma ScanStep(ts: seq<Token>, op: Operation, t: string, i: nat, m: Match)
    requires Scannable(ts) && i <= |t| && Search(ts, t, i) == Some(m)
    ensures i < m.end <= |t| && |m.groups| == 2
    ensures Scanned(op, Matches(ts, t, i)) == [Calculated(op, m)] + Scanned(op, Matches(ts, t, m.end))
  {
    var rest := Matches(ts, t, m.end);
    assert Matches(ts, t, i) == [m] + rest;
    ScannedCons(op, m, rest);
  }

  lemma Regroup<T>(a: seq<T>, x: T, rest: seq<T>)
    ensures a + ([x] + rest) == (a + [x]) + rest
  {
  }

  lemma ScannedCons(op: Operation, m: Match, rest: seq<Match>)
    requires |m.groups| == 2 && forall k :: 0 <= k < |rest| ==> |rest[k].groups| == 2
    ensures Scanned(op, [m] + rest) == [Calculated(op, m)] + Scanned(op, rest)
  {
    assert ([m] + rest)[1..] == rest;
  }

  /** `convert_all_math_expressions(text)`. */
  method ConvertAllMathExpressions(text: string) returns (expressions: seq<Calculation>)
    ensures expressions == Extracted(text)
  {
    var t := Remove(Strip(Lower(text)), '?');
    assert t == Prepared(text);
    expressions := [];
    expressions := Scan(Add.Tokens(), Addition, t, expressions);
    assert expressions == Scanned(Addition, Matches(Add.Tokens(), t, 0));
    expressions := Scan(MultiplyLoose.Tokens(), Multiplication, t, expressions);
    expressions := Scan(WhatTimes.Tokens(), Multiplication, t, expressions);
    expressions := Scan(WhatPlus.Tokens(), Addition, t, expressions);
  }

  /** An entry of the agent: its operation's symbol between two numerals, so
      the calculator's whitelist lets it through. */
  ghost predicate Sound(c: Calculation) {
    (exists a, b :: IsNumeral(a) && IsNumeral(b) && c.expr == Expression(a, c.operation.Symbol(), b))
    && Whitelisted(c.expr) && c.operation.Symbol() in "+*"
  }

  /** Every entry of a loop is sound, and it comes from the match at its place. */
  lemma {:induction false} ScannedShape(op: Operation, ms: seq<Match>)
    requires forall k :: 0 <= k < |ms| ==> |ms[k].groups| == 2 && IsNumeral(ms[k].groups[0]) && IsNumeral(ms[k].groups[1])
    ensures |Scanned(op, ms)| == |ms|
    ensures forall k :: 0 <= k < |ms| ==>
      (Scanned(op, ms)[k].operation == op && Scanned(op, ms)[k].expr == Expression(ms[k].groups[0], op.Symbol(), ms[k].groups[1]))
    ensures forall c :: c in Scanned(op, ms) ==> Sound(c)
  {
    if ms != [] {
      ScannedShape(op, ms[1..]);
      ScannedCons(op, ms[0], ms[1..]);
      assert ms == [ms[0]] + ms[1..];
      ChatbotLevel2.ExpressionWhitelisted(ms[0].groups[0], op.Symbol(), ms[0].groups[1]);
      assert Sound(Calculated(op, ms[0]));
    }
  }

  /** Every entry the agent extracts is "A + B" named "add" or "A * B" named
      "multiply", with A and B runs of digits, so it passes the calculator's
      whitelist; subtraction and division are never produced. */
  lemma ExtractedShape(text: string)
    ensures forall c :: c in Extracted(text) ==> Sound(c)
  {
    var t := Prepared(text);
    ScannedShape(Addition, Matches(Add.Tokens(), t, 0));
    ScannedShape(Multiplication, Matches(MultiplyLoose.Tokens(), t, 0));
    ScannedShape(Multiplication, Matches(WhatTimes.Tokens(), t, 0));
    ScannedShape(Addition, Matches(WhatPlus.Tokens(), t, 0));
  }

  /** No match is skipped: wherever a pattern matches the prepared text, the
      match lies inside one that its loop reports. */
  lemma EveryMatchReported(ts: seq<Token>, text: string, j: nat)
    requires Scannable(ts)
    requires j <= |Prepared(text)| && MatchAt(ts, Prepared(text), j).Some?
    ensures Covered(Matches(ts, Prepared(text), 0), j)
  {
    FindAllCovers(ts, Prepared(text), 0, j);
  }

  /** The connective of the agent's multiply pattern is optional: "multiply A B"
      is one match that spans the whole text and captures both numbers. */
  lemma BareMultiply(a: string, b: string)
    requires IsNumeral(a) && IsNumeral(b)
    ensures var s := "multiply " + a + " " + b;
      MatchAt(MultiplyLoose.Tokens(), s, 0) == Some(Match(0, |s|, [a, b]))
  {
    var lead := MultiplyLoose.Lead();
    Sentences.SpokenShape(lead);
    BareMatch(Sentences.Spoken(lead), a, b, "multiply " + a + " " + b);
  }

  /** The same, for the lead word spoken and the text given as parameters. */
  lemma BareMatch(L: string, a: string, b: string, s: string)
    requires L == Sentences.Spoken(MultiplyLoose.Lead()) && IsNumeral(a) && IsNumeral(b)
    requires s == L + " " + a + " " + b
    ensures MatchAt(MultiplyLoose.Tokens(), s, 0) == Some(Match(0, |s|, [a, b]))
  {
    var lead, alternatives := MultiplyLoose.Lead(), MultiplyLoose.Connectives();
    var j := |L| + 1 + |a| + 1;
    Exclusion.LeadSolid(MultiplyLoose);
    BareHead(lead, L, a, b, s);
    BareParts(L, a, b, s);
    BareTail(s, j, b);
    Sentences.Combine([Phrase([lead]), Gap, Number, Gap], Tail(alternatives, true), Shape(lead, alternatives, true), s, 0, j, |s|, a, b);
    Sentences.TokensShape(MultiplyLoose, s, 0, Match(0, |s|, [a, b]));
  }

  /** The lead words, the first number and the space after it. */
  lemma BareHead(lead: seq<string>, L: string, a: string, b: string, s: string)
    requires Sentences.Solid(lead) && L == Sentences.Spoken(lead) && IsNumeral(a) && IsNumeral(b)
    requires s == L + " " + a + " " + b
    ensures MatchAt([Phrase([lead]), Gap, Number, Gap], s, 0) == Some(Match(0, 0 + |Sentences.Spoken(lead)| + 1 + |a| + 1, [a]))
  {
    BareParts(L, a, b, s);
    Sentences.MatchHead(lead, s, 0, a);
  }

  /** Where the parts of `L + " " + a + " " + b` stand. */
  lemma BareParts(L: string, a: string, b: string, s: string)
    requires IsNumeral(b) && s == L + " " + a + " " + b
    ensures var j := |L| + 1 + |a| + 1;
      OccursAt(s, L, 0) && s[|L|] == ' ' && OccursAt(s, a, |L| + 1) && s[j - 1] == ' '
      && OccursAt(s, b, j) && j + |b| == |s| && IsDigit(s[j])
  {
    ChatbotLevel2.OccursSelf(s);
    Sentences.SentenceParts(L, a, b, s, 0);
    OccursChar(s, b, |L| + 1 + |a| + 1, 0);
  }

  /** A number where a connective may stand skips the optional connective. */
  lemma BareTail(s: string, j: nat, b: string)
    requires IsNumeral(b) && OccursAt(s, b, j) && j + |b| == |s|
    ensures MatchAt(Tail(MultiplyLoose.Connectives(), true), s, j) == Some(Match(j, |s|, [b]))
  {
    var alternatives := MultiplyLoose.Connectives();
    var tail := Tail(alternatives, true);
    OccursChar(s, b, j, 0);
    OccursChar(s, "and", j, 0);
    OccursChar(s, "by", j, 0);
    assert FirstWords(s, j, alternatives) == None;
    assert Step(OptionalPhrase(alternatives), s, j) == Some(j);
    Sentences.LastNumber(s, j, b);
    assert tail[0] == OptionalPhrase(alternatives) && tail[1..] == [Number];
    Sentences.MatchAtStep(tail, s, j, j, Match(j, |s|, [b]));
    Sentences.Single(b);
  }

  /** "multiply A B", without a connective, is read as the multiplication "A * B". */
  lemma BareMultiplyExtracted(a: string, b: string)
    requires IsNumeral(a) && IsNumeral(b)
    ensures Calculation(Multiplication, Expression(a, '*', b)) in Extracted("multiply " + a + " " + b)
  {
    var s := "multiply " + a + " " + b;
    var ts := MultiplyLoose.Tokens();
    PreparedPlain(a, b);
    BareMultiply(a, b);
    ChatbotLevel2.SearchAtStart(ts, s);
    ScanStep(ts, Multiplication, s, 0, Match(0, |s|, [a, b]));
  }

  /** "multiply A B" is its own prepared text. */
  lemma PreparedPlain(a: string, b: string)
    requires IsNumeral(a) && IsNumeral(b)
    ensures Prepared("multiply " + a + " " + b) == "multiply " + a + " " + b
  {
    PlainText("multiply ", a, b, "multiply " + a + " " + b);
  }

  /** A lower-case word, a space-separated pair of numerals after it, is its own prepared text. */
  lemma PlainText(w: string, a: string, b: string, s: string)
    requires IsNumeral(a) && IsNumeral(b) && s == w + a + " " + b
    requires w != [] && !IsSpace(w[0]) && forall k :: 0 <= k < |w| ==> !IsUpper(w[k]) && w[k] != '?'
    ensures Prepared(s) == s
  {
    assert forall k :: 0 <= k < |s| ==> !IsUpper(s[k]) && s[k] != '?' by {
      forall k | 0 <= k < |s|
        ensures !IsUpper(s[k]) && s[k] != '?'
      {
        if k < |w| {
          assert s[k] == w[k];
        } else if k < |w| + |a| {
          assert s[k] == a[k - |w|];
        } else if k > |w| + |a| {
          assert s[k] == b[k - |w| - |a| - 1];
        }
      }
    }
    ChatbotLevel2.LowerPlain(s);
    assert s[0] == w[0] && s[|s| - 1] == b[|b| - 1];
    StripPadded("", s, "");
    assert "" + s + "" == s;
    RemoveAbsent(s, '?');
  }
}
