/** The arithmetic sentence patterns shared by the calculator chatbot
    (Level-2/chatbot-2.py) and the full agent (Level-3/full_agent.py), matched
    the way Python's `re` matches them on an already lower-cased text.

    Every pattern is a fixed lead phrase, whitespace, a number, whitespace,
    one of a few connective phrases, whitespace and a number, so a pattern is
    written here as a short list of tokens. Words, digits and whitespace
    never overlap and the connectives of one pattern start with different
    letters, so each greedy repetition
    has exactly one length that lets the rest of the pattern match and the
    first alternative that is present is the only one: matching at a
    position is a deterministic walk over the tokens. The one place where
    the regular expression backtracks, the optional connective of the
    agent's multiply pattern, is spelled out in `Step`. */
module Patterns {
  import opened Wrappers
  import opened Text

  /** One piece of a pattern. */
  datatype Token =
    | Phrase(alternatives: seq<seq<string>>)          // (?:one|other), the words of each separated by \s+
    | Gap                                             // \s+
    | Number                                          // (\d+), captured
    | OptionalPhrase(alternatives: seq<seq<string>>)  // (?:one|other)?\s* in front of a number

  /** One match: the span `[start, end)` and the captured numbers, in order. */
  datatype Match = Match(start: nat, end: nat, groups: seq<string>)

  /** The arithmetic patterns. The first eight are the calculator chatbot's,
      in its order of priority; the agent uses `Add`, `MultiplyLoose`,
      `WhatTimes` and `WhatPlus`. */
  datatype Pattern =
    | Add           // add\s+(\d+)\s+(?:and|to)\s+(\d+)
    | Subtract      // subtract\s+(\d+)\s+from\s+(\d+)
    | Multiply      // multiply\s+(\d+)\s+(?:and|by)\s+(\d+)
    | Divide        // divide\s+(\d+)\s+by\s+(\d+)
    | WhatTimes     // what\s+is\s+(\d+)\s+(?:times|multiplied\s+by)\s+(\d+)
    | WhatDivided   // what\s+is\s+(\d+)\s+divided\s+by\s+(\d+)
    | WhatPlus      // what\s+is\s+(\d+)\s+(?:plus|added\s+to)\s+(\d+)
    | WhatMinus     // what\s+is\s+(\d+)\s+(?:minus|subtracted\s+from)\s+(\d+)
    | MultiplyLoose // multiply\s+(\d+)\s+(?:and|by)?\s*(\d+)
  {
    /** The words the pattern starts with. */
    function Lead(): seq<string> {
      match this
      case Add => ["add"]
      case Subtract => ["subtract"]
      case Multiply | MultiplyLoose => ["multiply"]
      case Divide => ["divide"]
      case WhatTimes | WhatDivided | WhatPlus | WhatMinus => ["what", "is"]
    }

    /** The alternative connectives between the two numbers, in the order they are tried. */
    function Connectives(): seq<seq<string>> {
      match this
      case Add => [["and"], ["to"]]
      case Subtract => [["from"]]
      case Multiply | MultiplyLoose => [["and"], ["by"]]
      case Divide => [["by"]]
      case WhatTimes => [["times"], ["multiplied", "by"]]
      case WhatDivided => [["divided", "by"]]
      case WhatPlus => [["plus"], ["added", "to"]]
      case WhatMinus => [["minus"], ["subtracted", "from"]]
    }

    /** The pattern as tokens: it never matches the empty string and it captures two numbers. */
    function Tokens(): (ts: seq<Token>)
      ensures ts != [] && Advances(ts[0])
      ensures Captures(ts) == 2
    {
      Shape(Lead(), Connectives(), this == MultiplyLoose)
    }
  }

  /** Lead words, whitespace, a number, whitespace, then `Tail`. */
  function Shape(lead: seq<string>, connectives: seq<seq<string>>, loose: bool): (ts: seq<Token>)
    ensures ts != [] && ts[0] == Phrase([lead])
    ensures Captures(ts) == 2
  {
    var ts := [Phrase([lead]), Gap, Number, Gap] + Tail(connectives, loose);
    assert Captures(ts) == 2 by {
      var rest := Tail(connectives, loose);
      CapturesCons(Gap, rest);
      CapturesCons(Number, [Gap] + rest);
      CapturesCons(Gap, [Number] + ([Gap] + rest));
      CapturesCons(Phrase([lead]), [Gap] + ([Number] + ([Gap] + rest)));
      assert ts == [Phrase([lead])] + ([Gap] + ([Number] + ([Gap] + rest)));
    }
    ts
  }

  /** One of the connectives, whitespace and a number; with `loose`, the
      connective and the whitespace after it may be absent. */
  function Tail(connectives: seq<seq<string>>, loose: bool): (ts: seq<Token>)
    ensures Captures(ts) == 1
  {
    CapturesCons(Number, []);
    if loose then
      CapturesCons(OptionalPhrase(connectives), [Number]);
      [OptionalPhrase(connectives), Number]
    else
      CapturesCons(Gap, [Number]);
      CapturesCons(Phrase(connectives), [Gap, Number]);
      [Phrase(connectives), Gap, Number]
  }

  /** The number of groups a token list captures. */
  function Captures(ts: seq<Token>): nat {
    if ts == [] then 0 else (if ts[0].Number? then 1 else 0) + Captures(ts[1..])
  }

  lemma CapturesCons(t: Token, rest: seq<Token>)
    ensures Captures([t] + rest) == (if t.Number? then 1 else 0) + Captures(rest)
  {
    assert ([t] + rest)[1..] == rest;
  }

  /** A token that never matches the empty string. */
  predicate Advances(t: Token) {
    match t
    case Gap | Number => true
    case Phrase(alternatives) => forall k :: 0 <= k < |alternatives| ==> alternatives[k] != [] && alternatives[k][0] != []
    case OptionalPhrase(_) => false
  }

  /** The end of the whitespace run starting at `i`. */
  function SkipSpaces(s: string, i: nat): (j: nat)
    requires i <= |s|
    ensures i <= j <= |s| && (j == |s| || !IsSpace(s[j]))
    ensures forall k :: i <= k < j ==> IsSpace(s[k])
    decreases |s| - i
  {
    if i < |s| && IsSpace(s[i]) then SkipSpaces(s, i + 1) else i
  }

  /** The end of the digit run starting at `i`. */
  function SkipDigits(s: string, i: nat): (j: nat)
    requires i <= |s|
    ensures i <= j <= |s| && (j == |s| || !IsDigit(s[j]))
    ensures forall k :: i <= k < j ==> IsDigit(s[k])
    decreases |s| - i
  {
    if i < |s| && IsDigit(s[i]) then SkipDigits(s, i + 1) else i
  }

  /** The words at `i`, separated by one or more whitespace characters; the
      position after them. */
  function Words(s: string, i: nat, words: seq<string>): (r: Option<nat>)
    requires i <= |s|
    ensures r.Some? ==> i <= r.value <= |s|
    ensures r.Some? && words != [] ==> OccursAt(s, words[0], i)
    decreases words
  {
    if words == [] then Some(i)
    else if !OccursAt(s, words[0], i) then None
    else if |words| == 1 then Some(i + |words[0]|)
    else
      var k := SkipSpaces(s, i + |words[0]|);
      if k == i + |words[0]| then None else Words(s, k, words[1..])
  }

  /** The first of the alternatives that is present at `i`. */
  function FirstWords(s: string, i: nat, alternatives: seq<seq<string>>): (r: Option<nat>)
    requires i <= |s|
    ensures r.Some? ==> i <= r.value <= |s|
    ensures r.Some? && Advances(Phrase(alternatives)) ==> i < r.value
    decreases alternatives
  {
    if alternatives == [] then None
    else
      match Words(s, i, alternatives[0])
      case Some(j) => Some(j)
      case None => FirstWords(s, i, alternatives[1..])
  }

  /** Where one token that starts at `i` ends. */
  function Step(t: Token, s: string, i: nat): (r: Option<nat>)
    requires i <= |s|
    ensures r.Some? ==> i <= r.value <= |s|
    ensures r.Some? && Advances(t) ==> i < r.value
    ensures r.Some? && t.Number? ==> IsNumeral(s[i..r.value])
  {
    match t
    case Phrase(alternatives) => FirstWords(s, i, alternatives)
    case Gap => var j := SkipSpaces(s, i); if j == i then None else Some(j)
    case Number => var j := SkipDigits(s, i); if j == i then None else Some(j)
    case OptionalPhrase(alternatives) =>
      // The connective is tried first; without a digit after it and the
      // whitespace behind it, the regular expression backtracks to no
      // connective at all.
      match FirstWords(s, i, alternatives)
      case Some(c) =>
        var b := SkipSpaces(s, c);
        if b < |s| && IsDigit(s[b]) then Some(b) else Some(SkipSpaces(s, i))
      case None => Some(SkipSpaces(s, i))
  }

  /** The match of the tokens that starts exactly at `i`, if any. */
  function MatchAt(ts: seq<Token>, s: string, i: nat): (r: Option<Match>)
    requires i <= |s|
    ensures r.Some? ==> r.value.start == i <= r.value.end <= |s|
    ensures r.Some? && ts != [] && Advances(ts[0]) ==> i < r.value.end
    ensures r.Some? ==> |r.value.groups| == Captures(ts)
    ensures r.Some? ==> forall k :: 0 <= k < |r.value.groups| ==> IsNumeral(r.value.groups[k])
    decreases ts
  {
    if ts == [] then Some(Match(i, i, []))
    else
      match Step(ts[0], s, i)
      case None => None
      case Some(j) =>
        match MatchAt(ts[1..], s, j)
        case None => None
        case Some(m) => Some(Match(i, m.end, (if ts[0].Number? then [s[i..j]] else []) + m.groups))
  }

  /** `re.search` from position `i`: the leftmost match at or after `i`. */
  function Search(ts: seq<Token>, s: string, i: nat): (r: Option<Match>)
    requires i <= |s|
    ensures r.Some? ==> i <= r.value.start <= |s| && MatchAt(ts, s, r.value.start) == r
    ensures r.Some? ==> forall j :: i <= j < r.value.start ==> MatchAt(ts, s, j).None?
    ensures r.None? ==> forall j :: i <= j <= |s| ==> MatchAt(ts, s, j).None?
    decreases |s| - i
  {
    if MatchAt(ts, s, i).Some? then MatchAt(ts, s, i)
    else if i == |s| then None
    else Search(ts, s, i + 1)
  }

  /** The position `j` lies inside one of the matches. */
  predicate Covered(ms: seq<Match>, j: int) {
    exists k :: 0 <= k < |ms| && ms[k].start <= j < ms[k].end
  }

  lemma CoveredCons(m: Match, rest: seq<Match>, j: int)
    requires m.start <= j < m.end || Covered(rest, j)
    ensures Covered([m] + rest, j)
  {
    if m.start <= j < m.end {
      assert ([m] + rest)[0] == m;
    } else {
      var k :| 0 <= k < |rest| && rest[k].start <= j < rest[k].end;
      assert ([m] + rest)[k + 1] == rest[k];
    }
  }

  /** `re.finditer` from position `i`: the leftmost match, then the leftmost
      match from where that one ended, and so on. Every match is a match at
      its own start and they come left to right without overlapping. */
  function FindAll(ts: seq<Token>, s: string, i: nat): (ms: seq<Match>)
    requires i <= |s|
    requires ts != [] && Advances(ts[0])
    ensures forall k :: 0 <= k < |ms| ==> i <= ms[k].start <= |s| && MatchAt(ts, s, ms[k].start) == Some(ms[k])
    ensures forall k :: 0 < k < |ms| ==> ms[k - 1].end <= ms[k].start
    decreases |s| - i
  {
    match Search(ts, s, i)
    case None => []
    case Some(m) => [m] + FindAll(ts, s, m.end)
  }

  /** No match is skipped: every position from `i` on where the tokens match
      lies inside one of the matches `FindAll` reports. */
  lemma {:induction false} FindAllCovers(ts: seq<Token>, s: string, i: nat, j: nat)
    requires i <= j <= |s|
    requires ts != [] && Advances(ts[0])
    requires MatchAt(ts, s, j).Some?
    ensures Covered(FindAll(ts, s, i), j)
    decreases |s| - i
  {
    match Search(ts, s, i)
    case Some(m) =>
      var rest := FindAll(ts, s, m.end);
      assert FindAll(ts, s, i) == [m] + rest;
      if m.end <= j {
        FindAllCovers(ts, s, m.end, j);
      }
      CoveredCons(m, rest, j);
  }

  /** The arithmetic expression `"A op B"` that both programs build from two numbers. */
  function Expression(left: string, op: char, right: string): string {
    left + " " + [op] + " " + right
  }
}
