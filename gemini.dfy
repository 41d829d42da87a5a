/** What the chatbots do with the language model's reply. The model itself is
    not modelled: a turn is given the reply the service produced, or the text
    of the exception the call raised. From it `ask_gemini` (Level-1/chatbot-1.py,
    Level-2/chatbot-2.py, Level-3/full_agent.py) makes the answer text, and
    the chatbots tag the turn from that text. */
module Gemini {
  import opened Wrappers
  import opened Text

  /** What the service call did. */
  datatype Reply = Answered(text: string) | Failed(details: string)

  /** What one round of a chat loop is given: the line typed, the clock
      reading, and what the model replies if it is asked. */
  datatype Turn = Turn(line: string, timestamp: string, reply: Reply)

  /** The prefix of every error text the assistants produce. */
  const ErrorPrefix: string := "[Error]"

  /** The answer text on a failed call, for the two chatbots and for the agent. */
  const ChatbotFailure: string := ErrorPrefix + " Could not get a response from Gemini. Details: "
  const AgentFailure: string := ErrorPrefix + " Gemini failed: "

  /** A `**` starts at `m`. */
  predicate Stars(s: string, m: int) {
    0 <= m && m + 1 < |s| && s[m] == '*' && s[m + 1] == '*'
  }

  /** Where the first `**` at or after `k` stands, when no newline comes
      before it: what the lazy `(.*?)\*\*` finds after an opening `**`. */
  function Closing(s: string, k: nat): (r: Option<nat>)
    requires k <= |s|
    ensures r.Some? ==> k <= r.value && Stars(s, r.value)
    ensures r.Some? ==> forall m :: k <= m < r.value ==> s[m] != '\n' && !Stars(s, m)
    ensures r.None? ==> forall m :: k <= m && Stars(s, m) ==> exists n :: k <= n < m && s[n] == '\n'
    decreases |s| - k
  {
    if k + 2 > |s| then None
    else if Stars(s, k) then Some(k)
    else if s[k] == '\n' then None
    else Closing(s, k + 1)
  }

  /** `re.sub(r"\*\*(.*?)\*\*", r"\1", s[i..])`: scanning left to right, each
      `**x**` with `x` as short as possible and free of newlines becomes `x`;
      every replacement removes four asterisks. */
  function Unbold(s: string, i: nat): (r: string)
    requires i <= |s|
    ensures |r| <= |s| - i && (|s| - i - |r|) % 4 == 0
    decreases |s| - i
  {
    if i == |s| then []
    else if Stars(s, i) && Closing(s, i + 2).Some? then
      var j := Closing(s, i + 2).value;
      s[i + 2..j] + Unbold(s, j + 2)
    else [s[i]] + Unbold(s, i + 1)
  }

  /** `r` is `t` with some of its asterisks deleted and nothing else changed:
      every other character is kept, in order. */
  predicate StarsDeleted(t: string, r: string)
    decreases |t|
  {
    if t == [] then r == []
    else (r != [] && r[0] == t[0] && StarsDeleted(t[1..], r[1..])) || (t[0] == '*' && StarsDeleted(t[1..], r))
  }

  /** Bold stripping deletes asterisks only: the text of the reply survives,
      character for character and in order. */
  lemma {:induction false} UnboldDeletesStars(s: string, i: nat)
    requires i <= |s|
    ensures StarsDeleted(s[i..], Unbold(s, i))
    decreases |s| - i
  {
    if i == |s| {
    } else if Stars(s, i) && Closing(s, i + 2).Some? {
      var j := Closing(s, i + 2).value;
      UnboldDeletesStars(s, j + 2);
      StarDeleted(s, j + 1, Unbold(s, j + 2));
      StarDeleted(s, j, Unbold(s, j + 2));
      KeptSpan(s, i + 2, j, Unbold(s, j + 2));
      StarDeleted(s, i + 1, s[i + 2..j] + Unbold(s, j + 2));
      StarDeleted(s, i, s[i + 2..j] + Unbold(s, j + 2));
    } else {
      UnboldDeletesStars(s, i + 1);
      KeptSpan(s, i, i + 1, Unbold(s, i + 1));
      assert s[i..i + 1] == [s[i]];
    }
  }

  lemma StarDeleted(s: string, k: nat, r: string)
    requires k < |s| && s[k] == '*' && StarsDeleted(s[k + 1..], r)
    ensures StarsDeleted(s[k..], r)
  {
    assert s[k..][1..] == s[k + 1..];
  }

  lemma {:induction false} KeptSpan(s: string, a: nat, b: nat, r: string)
    requires a <= b <= |s| && StarsDeleted(s[b..], r)
    ensures StarsDeleted(s[a..], s[a..b] + r)
    decreases b - a
  {
    if a < b {
      KeptSpan(s, a + 1, b, r);
      var t, x := s[a..], s[a..b] + r;
      assert t != [] && t[0] == s[a] && t[1..] == s[a + 1..];
      assert x != [] && x[0] == s[a] && x[1..] == s[a + 1..b] + r;
      assert StarsDeleted(t[1..], x[1..]);
    } else {
      assert s[a..b] + r == r;
    }
  }

  /** Deleting asterisks keeps the count of every other character, and the
      length lost is the number of asterisks deleted. */
  lemma {:induction false} StarsDeletedCounts(t: string, r: string)
    requires StarsDeleted(t, r)
    ensures forall c :: c != '*' ==> multiset(r)[c] == multiset(t)[c]
    ensures |t| - |r| == multiset(t)['*'] as int - multiset(r)['*']
    decreases |t|
  {
    if t != [] {
      assert t == [t[0]] + t[1..];
      if r != [] && r[0] == t[0] && StarsDeleted(t[1..], r[1..]) {
        StarsDeletedCounts(t[1..], r[1..]);
        assert r == [r[0]] + r[1..];
      } else {
        StarsDeletedCounts(t[1..], r);
      }
    }
  }

  /** What bold stripping keeps of a reply: every character other than an
      asterisk, as many times as it occurs. */
  lemma UnboldKeepsText(s: string)
    ensures forall c :: c != '*' ==> multiset(Unbold(s, 0))[c] == multiset(s)[c]
    ensures |s| - |Unbold(s, 0)| == multiset(s)['*'] as int - multiset(Unbold(s, 0))['*']
  {
    UnboldDeletesStars(s, 0);
    assert s[0..] == s;
    StarsDeletedCounts(s, Unbold(s, 0));
  }

  /** The answer `ask_gemini` returns for a reply; `failure` is the text it puts in front of the error. */
  function Ask(reply: Reply, failure: string): string {
    match reply
    case Answered(text) => Unbold(Strip(text), 0)
    case Failed(details) => failure + details
  }

  /** A text without `**` is left as it is. */
  lemma {:induction false} UnboldPlain(s: string, i: nat)
    requires i <= |s|
    requires forall m :: i <= m ==> !Stars(s, m)
    ensures Unbold(s, i) == s[i..]
    decreases |s| - i
  {
    if i < |s| {
      UnboldPlain(s, i + 1);
      assert s[i..] == [s[i]] + s[i + 1..];
    }
  }

  /** A bold span with no asterisk and no newline inside loses its markers. */
  lemma BoldSpan(x: string)
    requires forall k :: 0 <= k < |x| ==> x[k] != '*' && x[k] != '\n'
    ensures Unbold("**" + x + "**", 0) == x
  {
    var s := "**" + x + "**";
    var j := |x| + 2;
    ClosingAfter(s, 2, j);
    assert s[2..j] == x;
    assert Unbold(s, j + 2) == [];
  }

  /** `Closing` finds the first `**` when nothing before it is an asterisk or a newline. */
  lemma {:induction false} ClosingAfter(s: string, k: nat, j: nat)
    requires k <= j && Stars(s, j)
    requires forall m :: k <= m < j ==> s[m] != '*' && s[m] != '\n'
    ensures Closing(s, k) == Some(j)
    decreases j - k
  {
    if k < j {
      ClosingAfter(s, k + 1, j);
    }
  }

  /** The event a chatbot records for an answer of the model. */
  datatype Event = MultiIntentDetected | ToolCalculator | ErrorOccurred | MathRefused | QueryAnswered
  {
    /** The name written to the session log. */
    function Name(): string {
      match this
      case MultiIntentDetected => "multi_intent_detected"
      case ToolCalculator => "tool:calculator"
      case ErrorOccurred => "error_occurred"
      case MathRefused => "math_refused"
      case QueryAnswered => "query_answered"
    }
  }

  /** The tag for an answer of the model: a mention of the calculator tool, in
      any letter case, comes first, then the error prefix. */
  function Tag(answer: string): (e: Event)
    ensures e == MathRefused <==> Contains(Lower(answer), "calculator tool")
    ensures e == ErrorOccurred <==> !Contains(Lower(answer), "calculator tool") && StartsWith(answer, ErrorPrefix)
    ensures e == MathRefused || e == ErrorOccurred || e == QueryAnswered
  {
    if Contains(Lower(answer), "calculator tool") then MathRefused
    else if StartsWith(answer, ErrorPrefix) then ErrorOccurred
    else QueryAnswered
  }

  /** A failed call is tagged as an error, unless its text mentions the calculator tool. */
  lemma FailureTagged(details: string, failure: string)
    requires StartsWith(failure, ErrorPrefix)
    ensures Tag(Ask(Failed(details), failure)) ==
      if Contains(Lower(failure + details), "calculator tool") then MathRefused else ErrorOccurred
  {
    assert (failure + details)[..|ErrorPrefix|] == failure[..|ErrorPrefix|];
  }

  /** Both failure texts carry the error prefix. */
  lemma FailurePrefixes()
    ensures StartsWith(ChatbotFailure, ErrorPrefix) && StartsWith(AgentFailure, ErrorPrefix)
  {
    PrefixOf(ErrorPrefix, " Could not get a response from Gemini. Details: ");
    PrefixOf(ErrorPrefix, " Gemini failed: ");
  }

  lemma PrefixOf(a: string, b: string)
    ensures StartsWith(a + b, a)
  {
    assert (a + b)[..|a|] == a;
  }

  /** A mention of the calculator tool, in any letter case, wins over the error prefix. */
  lemma MentionWins(x: string, w: string, y: string)
    requires Lower(w) == "calculator tool"
    ensures Tag(ErrorPrefix + x + w + y) == MathRefused
  {
    LowerAppend(ErrorPrefix + x, w);
    LowerAppend(ErrorPrefix + x + w, y);
    assert Contains(Lower(w), "calculator tool") by {
      assert StartsWith(Lower(w), "calculator tool");
    }
    ContainsInfix(Lower(ErrorPrefix + x), Lower(w), Lower(y), "calculator tool");
  }
}
