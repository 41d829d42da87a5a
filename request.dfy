/** How the full agent of Level-3/full_agent.py finds a translation request:
    `re.search(r"translate\s+['\"]?([^'\"]+)['\"]?\s+into\s+german", query,
    re.IGNORECASE)`, and the phrase its group captures.

    The expression is matched here in the order Python's backtracking
    matcher tries it. After "translate" the greedy `\s+` first takes the
    whole run of whitespace and gives it back one character at a time; at
    each length the optional quote is taken when it is there; the greedy
    group first takes the whole run of characters other than quotes and
    gives it back one character at a time until an optional quote and
    `\s+into\s+german` follow. That tail has one way to match at a given
    position, because each run of whitespace in it stops at a letter. */
module TranslationRequest {
  import opened Wrappers
  import opened Text
  import opened Patterns

  predicate IsQuote(c: char) {
    c == '\'' || c == '"'
  }

  /** The word the expression starts with, and the words after the group. */
  const Verb: string := "translate"
  const Target: seq<string> := ["into", "german"]

  /** `\s+into\s+german` at `k` in the lower-cased text. */
  predicate Ending(l: string, k: nat) {
    k < |l| && IsSpace(l[k]) && Words(l, SkipSpaces(l, k), Target).Some?
  }

  /** `['\"]?\s+into\s+german` at `g`: the quote is tried first. */
  predicate Closes(l: string, g: nat) {
    (g < |l| && IsQuote(l[g]) && Ending(l, g + 1)) || Ending(l, g)
  }

  /** The end of the run of characters other than quotes from `a`. */
  function SkipPhrase(l: string, a: nat): (e: nat)
    requires a <= |l|
    ensures a <= e <= |l| && (e == |l| || IsQuote(l[e]))
    ensures forall k :: a <= k < e ==> !IsQuote(l[k])
    decreases |l| - a
  {
    if a < |l| && !IsQuote(l[a]) then SkipPhrase(l, a + 1) else a
  }

  /** A greedy group from `a`, given back from `g` downwards: the longest end
      after which the rest of the expression, `closes`, matches. */
  function GiveBack(a: nat, g: nat, closes: nat -> bool): (r: Option<nat>)
    ensures r.Some? ==> a < r.value <= g && closes(r.value)
    ensures r.Some? ==> forall h :: r.value < h <= g ==> !closes(h)
    ensures r.None? ==> forall h :: a < h <= g ==> !closes(h)
    decreases g
  {
    if g <= a then None
    else if closes(g) then Some(g)
    else GiveBack(a, g - 1, closes)
  }

  /** `GiveBack` stops at the last end that closes. */
  lemma {:induction false} GiveBackAt(a: nat, e: nat, g: nat, closes: nat -> bool)
    requires a < e <= g && closes(e)
    requires forall h :: e < h <= g ==> !closes(h)
    ensures GiveBack(a, g, closes) == Some(e)
    decreases g
  {
    if g > e {
      GiveBackAt(a, e, g - 1, closes);
    }
  }

  /** Where `([^'\"]+)` from `a` ends, when the rest of the expression
      matches after it; the group holds no quote. */
  function Phrase(l: string, a: nat): (r: Option<nat>)
    requires a <= |l|
    ensures r.Some? ==> a < r.value <= |l| && Closes(l, r.value)
    ensures r.Some? ==> forall k :: a <= k < r.value ==> !IsQuote(l[k])
  {
    GiveBack(a, SkipPhrase(l, a), (h: nat) => Closes(l, h))
  }

  /** The group's span when `['\"]?([^'\"]+)['\"]?\s+into\s+german` matches at `j`. */
  function Quoted(l: string, j: nat): (r: Option<(nat, nat)>)
    requires j <= |l|
    ensures r.Some? ==> j <= r.value.0 < r.value.1 <= |l|
    ensures r.Some? ==> forall k :: r.value.0 <= k < r.value.1 ==> !IsQuote(l[k])
  {
    if j < |l| && IsQuote(l[j]) && Phrase(l, j + 1).Some? then Some((j + 1, Phrase(l, j + 1).value))
    else
      match Phrase(l, j)
      case Some(g) => Some((j, g))
      case None => None
  }

  /** The whitespace after "translate", which starts at `p`, given back from
      `j` downwards until the rest matches. */
  function AfterVerb(l: string, p: nat, j: nat): (r: Option<(nat, nat)>)
    requires p <= j <= |l|
    ensures r.Some? ==> p < r.value.0 < r.value.1 <= |l|
    ensures r.Some? ==> forall k :: r.value.0 <= k < r.value.1 ==> !IsQuote(l[k])
    decreases j
  {
    if j <= p then None
    else
      match Quoted(l, j)
      case Some(span) => Some(span)
      case None => AfterVerb(l, p, j - 1)
  }

  /** The group's span when the whole expression matches at `i`. */
  function RequestAt(l: string, i: nat): (r: Option<(nat, nat)>)
    requires i <= |l|
    ensures r.Some? ==> OccursAt(l, Verb, i) && i + |Verb| < r.value.0 < r.value.1 <= |l|
    ensures r.Some? ==> forall k :: r.value.0 <= k < r.value.1 ==> !IsQuote(l[k])
  {
    if OccursAt(l, Verb, i) then AfterVerb(l, i + |Verb|, SkipSpaces(l, i + |Verb|)) else None
  }

  /** `re.search` from `i` over the positions up to `n`: the leftmost one
      where the expression matches, as `at` tells, and its match. */
  function Leftmost<T>(i: nat, n: nat, at: nat -> Option<T>): (r: Option<(nat, T)>)
    requires i <= n
    ensures r.Some? ==> i <= r.value.0 <= n && at(r.value.0) == Some(r.value.1)
    ensures r.Some? ==> forall j :: i <= j < r.value.0 ==> at(j).None?
    ensures r.None? ==> forall j :: i <= j <= n ==> at(j).None?
    decreases n - i
  {
    match at(i)
    case Some(x) => Some((i, x))
    case None => if i == n then None else Leftmost(i + 1, n, at)
  }

  /** Where the expression matches in the lower-cased text, position by position. */
  function Matcher(l: string): nat -> Option<(nat, nat)> {
    (i: nat) => if i <= |l| then RequestAt(l, i) else None
  }

  /** Lowering keeps quotes and only quotes. */
  lemma LowerQuote(c: char)
    ensures IsQuote(LowerChar(c)) == IsQuote(c)
  {
  }

  /** The span of the group of the leftmost match in the lower-cased text;
      it holds no quote. */
  function Span(l: string): (r: Option<(nat, nat)>)
    ensures r.Some? ==> r.value.0 < r.value.1 <= |l|
    ensures r.Some? ==> forall k :: r.value.0 <= k < r.value.1 ==> !IsQuote(l[k])
  {
    match Leftmost(0, |l|, Matcher(l))
    case None => None
    case Some(found) =>
      assert RequestAt(l, found.0) == Some(found.1);
      Some(found.1)
  }

  /** The phrase a query asks to translate, as `match.group(1)`, when the
      case-insensitive expression matches: the span is found in the
      lower-cased query and cut from the query itself. It is not empty and
      holds no quote. */
  function Request(query: string): (r: Option<string>)
    ensures r.Some? ==> r.value != [] && forall k :: 0 <= k < |r.value| ==> !IsQuote(r.value[k])
  {
    match Span(Lower(query))
    case None => None
    case Some(span) =>
      LowerQuotes(query, span.0, span.1);
      Some(query[span.0..span.1])
  }

  /** A stretch of the lower-cased text without quotes is one of the text. */
  lemma LowerQuotes(s: string, a: nat, g: nat)
    requires a <= g <= |s| && forall k :: a <= k < g ==> !IsQuote(Lower(s)[k])
    ensures forall k :: 0 <= k < g - a ==> !IsQuote(s[a..g][k])
  {
    forall k | 0 <= k < g - a
      ensures !IsQuote(s[a..g][k])
    {
      assert Lower(s)[a + k] == LowerChar(s[a + k]);
    }
  }

  /** A query that asks for a translation mentions "translate" in lower case,
      so the agent's own check for that word never turns a request away. */
  lemma RequestMentions(query: string)
    requires Request(query).Some?
    ensures Contains(Lower(query), Verb)
  {
    var l := Lower(query);
    var found := Leftmost(0, |l|, Matcher(l));
    assert found.Some?;
    assert RequestAt(l, found.value.0).Some?;
    ContainsIff(l, Verb);
  }

  /** The tail `A B` of the target words after the text `L`, with single
      spaces, closes the expression at the end of `L`. */
  lemma TailEnds(L: string, A: string, B: string)
    requires Target == [A, B]
    ensures Ending(L + " " + A + " " + B, |L|)
  {
    var t := L + " " + A + " " + B;
    var e := |L|;
    assert OccursAt(t, A, e + 1) by {
      forall k | 0 <= k < |A| ensures t[e + 1 + k] == A[k] { }
    }
    assert OccursAt(t, B, e + 2 + |A|) by {
      forall k | 0 <= k < |B| ensures t[e + 2 + |A| + k] == B[k] { }
    }
    assert SkipSpaces(t, e) == e + 1 by { assert t[e + 1] == A[0]; }
    assert SkipSpaces(t, e + 1 + |A|) == e + 2 + |A| by { assert t[e + 2 + |A|] == B[0]; }
    assert Words(t, e + 2 + |A|, Target[1..]) == Some(|t|) by { assert Target[1..] == [B]; }
  }

  /** Nothing after the end of `L` closes the expression: the tail holds
      one other whitespace character, and "german" follows it, not "into". */
  lemma TailQuiet(L: string, A: string, B: string)
    requires Target == [A, B]
    ensures forall h :: |L| < h <= |L + " " + A + " " + B| ==> !Closes(L + " " + A + " " + B, h)
  {
    var t := L + " " + A + " " + B;
    var e := |L|;
    forall h | e < h <= |t|
      ensures !Closes(t, h)
    {
      if e < h <= e + |A| {
        assert t[h] == A[h - e - 1];
      } else if e + 1 + |A| < h < |t| {
        assert t[h] == B[h - e - 2 - |A|];
      } else if h == e + 1 + |A| {
        assert SkipSpaces(t, h) == h + 1 by { assert t[h + 1] == B[0]; }
        assert t[h + 1] != A[0];
      }
    }
  }

  /** The tail holds no quote. */
  lemma TailUnquoted(L: string, A: string, B: string)
    requires Target == [A, B]
    ensures forall k :: |L| <= k < |L + " " + A + " " + B| ==> !IsQuote((L + " " + A + " " + B)[k])
  {
    var t := L + " " + A + " " + B;
    var e := |L|;
    forall k | e <= k < |t|
      ensures !IsQuote(t[k])
    {
      if e < k <= e + |A| {
        assert t[k] == A[k - e - 1];
      } else if e + 1 + |A| < k {
        assert t[k] == B[k - e - 2 - |A|];
      }
    }
  }

  /** Lowering a text of words and single spaces lowers each word. */
  lemma LowerWords(v: string, x: string, n: string, m: string)
    ensures Lower(v + " " + x + " " + n + " " + m) == Lower(v) + " " + Lower(x) + " " + Lower(n) + " " + Lower(m)
  {
    assert Lower(" ") == " ";
    LowerAppend(v + " " + x + " " + n + " ", m);
    LowerAppend(v + " " + x + " " + n, " ");
    LowerAppend(v + " " + x + " ", n);
    LowerAppend(v + " " + x, " ");
    LowerAppend(v + " ", x);
    LowerAppend(v, " ");
  }

  /** A request is found at the start of a text when the expression matches there. */
  lemma SpanAtStart(l: string, span: (nat, nat))
    requires RequestAt(l, 0) == Some(span)
    ensures Span(l) == Some(span)
  {
    assert Matcher(l)(0) == Some(span);
  }

  /** The verb starts the text, and one space follows it. */
  lemma HeadWords(V: string, X: string, A: string, B: string)
    requires V == Verb && X != [] && !IsSpace(X[0])
    ensures OccursAt(V + " " + X + " " + A + " " + B, Verb, 0)
    ensures SkipSpaces(V + " " + X + " " + A + " " + B, |V|) == |V| + 1
  {
    var l := V + " " + X + " " + A + " " + B;
    forall k | 0 <= k < |V| ensures l[k] == V[k] { }
    assert l[|V|] == ' ' && l[|V| + 1] == X[0];
  }

  /** In a lower-cased text "translate X into german", with single spaces,
      the group is X. */
  lemma PlainSpan(V: string, X: string, A: string, B: string)
    requires V == Verb && Target == [A, B]
    requires X != [] && !IsSpace(X[0]) && forall k :: 0 <= k < |X| ==> !IsQuote(X[k])
    ensures Span(V + " " + X + " " + A + " " + B) == Some((|V| + 1, |V| + 1 + |X|))
  {
    var L := V + " " + X;
    var l := L + " " + A + " " + B;
    var e := |L|;
    assert |V| == 9;
    HeadWords(V, X, A, B);
    assert SkipPhrase(l, 10) == e + 1 + |A| + 1 + |B| by {
      TailUnquoted(L, A, B);
      forall k | 10 <= k < e ensures !IsQuote(l[k]) { assert l[k] == X[k - 10]; }
      SkipPhraseOver(l, 10, |l|);
    }
    TailEnds(L, A, B);
    TailQuiet(L, A, B);
    GiveBackAt(10, e, |l|, (h: nat) => Closes(l, h));
    assert Quoted(l, 10) == Some((10, e));
    assert RequestAt(l, 0) == Some((10, e));
    SpanAtStart(l, (10, e));
  }

  /** In a lower-cased text "translate 'X' into german", with single spaces
      and either quote, the group is X. */
  lemma QuotedSpan(V: string, Y: string, A: string, B: string)
    requires V == Verb && Target == [A, B]
    requires |Y| >= 3 && IsQuote(Y[0]) && IsQuote(Y[|Y| - 1])
    requires forall k :: 0 < k < |Y| - 1 ==> !IsQuote(Y[k])
    ensures Span(V + " " + Y + " " + A + " " + B) == Some((|V| + 2, |V| + |Y|))
  {
    var L := V + " " + Y;
    var l := L + " " + A + " " + B;
    var e := |L| - 1;
    assert |V| == 9;
    HeadWords(V, Y, A, B);
    assert l[10] == Y[0] && l[e] == Y[|Y| - 1];
    assert SkipPhrase(l, 11) == e by {
      forall k | 11 <= k < e ensures !IsQuote(l[k]) { assert l[k] == Y[k - 10]; }
      SkipPhraseOver(l, 11, e);
    }
    TailEnds(L, A, B);
    assert Closes(l, e);
    GiveBackAt(11, e, e, (h: nat) => Closes(l, h));
    assert Quoted(l, 10) == Some((11, e));
    assert RequestAt(l, 0) == Some((11, e));
    SpanAtStart(l, (11, e));
  }

  /** Lowering keeps whitespace and quotes where they are. */
  lemma LowerKeeps(x: string)
    ensures x != [] ==> IsSpace(Lower(x)[0]) == IsSpace(x[0])
    ensures forall k :: 0 <= k < |x| ==> IsQuote(Lower(x)[k]) == IsQuote(x[k])
  {
  }

  /** "translate X into german", in any letter case of the three words and
      with single spaces between them, asks for X, whatever X holds besides
      quotes. */
  lemma PlainRequest(v: string, x: string, n: string, m: string)
    requires Lower(v) == Verb && [Lower(n), Lower(m)] == Target
    requires x != [] && !IsSpace(x[0]) && forall k :: 0 <= k < |x| ==> !IsQuote(x[k])
    ensures Request(v + " " + x + " " + n + " " + m) == Some(x)
  {
    var query := v + " " + x + " " + n + " " + m;
    LowerWords(v, x, n, m);
    LowerKeeps(x);
    PlainSpan(Lower(v), Lower(x), Lower(n), Lower(m));
    Inside(v, x, n, m);
  }

  /** Where the second word of a text of words and single spaces stands. */
  lemma Inside(v: string, x: string, n: string, m: string)
    ensures (v + " " + x + " " + n + " " + m)[|v| + 1..|v| + 1 + |x|] == x
  {
    var query := v + " " + x + " " + n + " " + m;
    forall k | 0 <= k < |x| ensures query[|v| + 1 + k] == x[k] { }
  }

  /** "translate 'X' into german", with either quote around X, asks for X; the
      whitespace inside the quotes is kept. */
  lemma QuotedRequest(v: string, q: char, x: string, n: string, m: string)
    requires Lower(v) == Verb && [Lower(n), Lower(m)] == Target && IsQuote(q)
    requires x != [] && forall k :: 0 <= k < |x| ==> !IsQuote(x[k])
    ensures Request(v + " " + ([q] + x + [q]) + " " + n + " " + m) == Some(x)
  {
    var y := [q] + x + [q];
    LowerWords(v, y, n, m);
    QuotedWord(q, x);
    QuotedSpan(Lower(v), Lower(y), Lower(n), Lower(m));
    InsideQuotes(v, q, x, n, m);
  }

  /** A phrase in quotes, lowered, keeps its quotes, and only those. */
  lemma QuotedWord(q: char, x: string)
    requires IsQuote(q) && x != [] && forall k :: 0 <= k < |x| ==> !IsQuote(x[k])
    ensures var Y := Lower([q] + x + [q]);
      |Y| >= 3 && IsQuote(Y[0]) && IsQuote(Y[|Y| - 1]) && forall k :: 0 < k < |Y| - 1 ==> !IsQuote(Y[k])
  {
    var y := [q] + x + [q];
    assert y[0] == q && y[|y| - 1] == q;
    assert forall k :: 0 < k < |y| - 1 ==> y[k] == x[k - 1];
    LowerKeeps(y);
  }

  /** Where the quoted second word of a text of words and single spaces stands. */
  lemma InsideQuotes(v: string, q: char, x: string, n: string, m: string)
    ensures (v + " " + ([q] + x + [q]) + " " + n + " " + m)[|v| + 2..|v| + 2 + |x|] == x
  {
    var query := v + " " + ([q] + x + [q]) + " " + n + " " + m;
    forall k | 0 <= k < |x| ensures query[|v| + 2 + k] == x[k] { }
  }

  /** `SkipPhrase` runs to the first quote. */
  lemma {:induction false} SkipPhraseOver(l: string, a: nat, e: nat)
    requires a <= e <= |l| && (e == |l| || IsQuote(l[e]))
    requires forall k :: a <= k < e ==> !IsQuote(l[k])
    ensures SkipPhrase(l, a) == e
    decreases e - a
  {
    if a < e {
      SkipPhraseOver(l, a + 1, e);
    }
  }
}
