/** Why a pattern finds nothing in a sentence written for another one. A
    match needs, where it starts, the first word of the pattern's lead
    followed by whitespace, and further on the first word of one of its
    connectives. A word without digits that occurs in a sentence lies inside
    one of the sentence's fixed parts, so looking at those parts is enough. */
module Exclusion {
  import opened Wrappers
  import opened Text
  import opened Patterns
  import opened Sentences

  /** The pattern matches nowhere in `s`. */
  predicate Silent(p: Pattern, s: string) {
    forall j :: 0 <= j <= |s| ==> MatchAt(p.Tokens(), s, j).None?
  }

  /** `w` occurs nowhere in `r`. */
  predicate Misses(r: string, w: string) {
    forall j :: 0 <= j <= |r| ==> !OccursAt(r, w, j)
  }

  predicate NoDigits(w: string) {
    forall k :: 0 <= k < |w| ==> !IsDigit(w[k])
  }

  /** The only whitespace in `s` is the plain space. */
  predicate Spaced(s: string) {
    forall k :: 0 <= k < |s| && IsSpace(s[k]) ==> s[k] == ' '
  }

  lemma SilentSearch(p: Pattern, s: string)
    requires Silent(p, s)
    ensures Search(p.Tokens(), s, 0) == None
  {
  }

  lemma TokensLayout(p: Pattern)
    ensures |p.Tokens()| >= 5 && p.Tokens()[0] == Phrase([p.Lead()]) && p.Tokens()[1] == Gap
    ensures p != MultiplyLoose ==> p.Tokens()[4] == Phrase(p.Connectives())
  {
    var head := [Phrase([p.Lead()]), Gap, Number, Gap];
    var tail := Tail(p.Connectives(), p == MultiplyLoose);
    assert p.Tokens() == head + tail;
    assert (head + tail)[1] == Gap;
    if p != MultiplyLoose {
      assert (head + tail)[4] == tail[0];
    }
  }

  lemma LeadSolid(p: Pattern)
    ensures Solid(p.Lead())
  {
  }

  /** A match goes through a step of every token of the pattern. */
  lemma {:induction false} StepsAlong(ts: seq<Token>, s: string, j: nat, n: nat)
    requires j <= |s| && MatchAt(ts, s, j).Some? && n < |ts|
    ensures exists k :: 0 <= k <= |s| && Step(ts[n], s, k).Some?
    decreases n
  {
    var j1 := FirstStep(ts, s, j);
    if n == 0 {
      assert Step(ts[0], s, j).Some?;
    } else {
      StepsAlong(ts[1..], s, j1, n - 1);
      assert ts[1..][n - 1] == ts[n];
    }
  }

  /** A match takes a first step, and the rest of the pattern matches after it. */
  lemma FirstStep(ts: seq<Token>, s: string, j: nat) returns (j1: nat)
    requires j <= |s| && MatchAt(ts, s, j).Some? && ts != []
    ensures Step(ts[0], s, j) == Some(j1) && j1 <= |s| && MatchAt(ts[1..], s, j1).Some?
  {
    j1 := Step(ts[0], s, j).value;
  }


  /** The first alternative that is present is one of the alternatives. */
  lemma {:induction false} FirstWordsFrom(s: string, k: nat, alternatives: seq<seq<string>>)
    requires k <= |s| && FirstWords(s, k, alternatives).Some?
    ensures exists c :: 0 <= c < |alternatives| && Words(s, k, alternatives[c]).Some?
    decreases alternatives
  {
    if Words(s, k, alternatives[0]).None? {
      FirstWordsFrom(s, k, alternatives[1..]);
      var c :| 0 <= c < |alternatives[1..]| && Words(s, k, alternatives[1..][c]).Some?;
      assert alternatives[1..][c] == alternatives[c + 1];
    }
  }

  /** Where a match starts, the first word of the lead stands, and whitespace after it. */
  lemma LeadNeeded(p: Pattern, s: string, j: nat)
    requires j <= |s|
    ensures MatchAt(p.Tokens(), s, j).Some? ==>
      var w := p.Lead()[0]; OccursAt(s, w, j) && j + |w| < |s| && IsSpace(s[j + |w|])
  {
    var ts, lead := p.Tokens(), p.Lead();
    TokensLayout(p);
    LeadSolid(p);
    if MatchAt(ts, s, j).Some? {
      var j1 := Step(ts[0], s, j).value;
      assert MatchAt(ts[1..], s, j1).Some?;
      assert Words(s, j, lead) == Some(j1) by {
        var alts: seq<seq<string>> := [lead];
        assert alts[0] == lead && alts[1..] == [];
        assert Step(ts[0], s, j) == FirstWords(s, j, alts);
        assert FirstWords(s, j, alts[1..]) == None;
      }
      var w := lead[0];
      if |lead| == 1 {
        assert ts[1..][0] == Gap;
        assert Step(Gap, s, j1).Some?;
      } else {
        assert SkipSpaces(s, j + |w|) > j + |w|;
      }
    }
  }

  /** Somewhere the first word of one of the connectives stands. */
  lemma ConnectiveNeeded(p: Pattern, s: string, j: nat)
    requires p != MultiplyLoose && j <= |s|
    ensures MatchAt(p.Tokens(), s, j).Some? ==>
      exists c, k :: 0 <= c < |p.Connectives()| && OccursAt(s, p.Connectives()[c][0], k)
  {
    if MatchAt(p.Tokens(), s, j).Some? {
      TokensLayout(p);
      WellSpelled(p);
      StepsAlong(p.Tokens(), s, j, 4);
      var k :| 0 <= k <= |s| && Step(Phrase(p.Connectives()), s, k).Some?;
      FirstWordsFrom(s, k, p.Connectives());
      var c :| 0 <= c < |p.Connectives()| && Words(s, k, p.Connectives()[c]).Some?;
      assert OccursAt(s, p.Connectives()[c][0], k);
    }
  }

  /** A word without digits that occurs in `P + a + Q + b`, for numerals `a`
      and `b`, occurs inside `P` or inside `Q`. */
  lemma Region(P: string, a: string, Q: string, b: string, w: string, j: int)
    requires IsNumeral(a) && IsNumeral(b) && w != [] && NoDigits(w)
    ensures OccursAt(P + a + Q + b, w, j) ==> OccursAt(P, w, j) || OccursAt(Q, w, j - |P| - |a|)
  {
    var s := P + a + Q + b;
    var n1, n2 := |P|, |P| + |a|;
    var n3 := n2 + |Q|;
    assert forall k :: n1 <= k < n2 ==> s[k] == a[k - n1];
    assert forall k :: n3 <= k < |s| ==> s[k] == b[k - n3];
    OccursChar(s, w, j, 0);
    OccursChar(s, w, j, n1 - j);
    OccursChar(s, w, j, n3 - j);
    if OccursAt(s, w, j) {
      if j < n1 {
        assert forall k :: 0 <= k < |w| ==> P[j + k] == w[k];
      } else {
        assert forall k :: 0 <= k < |w| ==> Q[j - n2 + k] == w[k];
      }
    }
  }

  /** A word without digits that is in neither fixed part is nowhere in the sentence. */
  lemma Absent(P: string, a: string, Q: string, b: string, w: string)
    requires IsNumeral(a) && IsNumeral(b) && w != [] && NoDigits(w)
    requires Misses(P, w) && Misses(Q, w)
    ensures Misses(P + a + Q + b, w)
  {
    forall j
      ensures !OccursAt(P + a + Q + b, w, j)
    {
      Region(P, a, Q, b, w, j);
    }
  }

  /** `w` is nowhere in `r` when every place in `r` with room for `w` that
      starts with `w[0]` differs from `w` at offset `k1` or at offset `k2`. */
  lemma MissesBy(r: string, w: string, k1: nat, k2: nat)
    requires k1 < |w| && k2 < |w|
    requires forall j :: 0 <= j && j + |w| <= |r| && r[j] == w[0] ==> r[j + k1] != w[k1] || r[j + k2] != w[k2]
    ensures Misses(r, w)
  {
    forall j | 0 <= j <= |r|
      ensures !OccursAt(r, w, j)
    {
      OccursChar(r, w, j, 0);
      OccursChar(r, w, j, k1);
      OccursChar(r, w, j, k2);
    }
  }

  /** A pattern whose lead word, followed by a space, differs at offset `k1`
      or `k2` from every place in either fixed part that starts like it,
      matches nowhere. */
  lemma ByLead(q: Pattern, P: string, a: string, Q: string, b: string, k1: nat, k2: nat)
    requires IsNumeral(a) && IsNumeral(b) && Spaced(P) && Spaced(Q)
    requires var w := q.Lead()[0] + " ";
      && k1 < |w| && k2 < |w|
      && (forall j :: 0 <= j && j + |w| <= |P| && P[j] == w[0] ==> P[j + k1] != w[k1] || P[j + k2] != w[k2])
      && (forall j :: 0 <= j && j + |w| <= |Q| && Q[j] == w[0] ==> Q[j + k1] != w[k1] || Q[j + k2] != w[k2])
    ensures Silent(q, P + a + Q + b)
  {
    var w := q.Lead()[0] + " ";
    MissesBy(P, w, k1, k2);
    MissesBy(Q, w, k1, k2);
    SilentByLead(q, P, a, Q, b);
  }

  /** A pattern none of whose connectives can start anywhere in either fixed
      part, as their second letters show, matches nowhere. */
  lemma ByConnective(q: Pattern, P: string, a: string, Q: string, b: string)
    requires q != MultiplyLoose && IsNumeral(a) && IsNumeral(b)
    requires forall c :: 0 <= c < |q.Connectives()| ==> (var w := q.Connectives()[c][0];
      && |w| > 1
      && (forall j :: 0 <= j && j + |w| <= |P| && P[j] == w[0] ==> P[j + 1] != w[1])
      && (forall j :: 0 <= j && j + |w| <= |Q| && Q[j] == w[0] ==> Q[j + 1] != w[1]))
    ensures Silent(q, P + a + Q + b)
  {
    forall c | 0 <= c < |q.Connectives()|
      ensures Misses(P, q.Connectives()[c][0]) && Misses(Q, q.Connectives()[c][0])
    {
      MissesBy(P, q.Connectives()[c][0], 1, 1);
      MissesBy(Q, q.Connectives()[c][0], 1, 1);
    }
    SilentByConnective(q, P, a, Q, b);
  }

  lemma SpacedSentence(P: string, a: string, Q: string, b: string)
    requires IsNumeral(a) && IsNumeral(b) && Spaced(P) && Spaced(Q)
    ensures Spaced(P + a + Q + b)
  {
    var s := P + a + Q + b;
    assert forall k :: |P| <= k < |P| + |a| ==> s[k] == a[k - |P|];
    assert forall k :: |P| + |a| + |Q| <= k < |s| ==> s[k] == b[k - |P| - |a| - |Q|];
  }

  /** A word followed by a space is an occurrence of the word and the space. */
  lemma OccursSpaced(s: string, w: string, j: nat)
    ensures OccursAt(s, w, j) && j + |w| < |s| && s[j + |w|] == ' ' ==> OccursAt(s, w + " ", j)
  {
    assert forall k :: 0 <= k < |w| ==> (w + " ")[k] == w[k];
  }

  /** A pattern whose lead word, followed by a space, is missing from both fixed parts matches nowhere. */
  lemma SilentByLead(q: Pattern, P: string, a: string, Q: string, b: string)
    requires IsNumeral(a) && IsNumeral(b) && Spaced(P) && Spaced(Q)
    requires Misses(P, q.Lead()[0] + " ") && Misses(Q, q.Lead()[0] + " ")
    ensures Silent(q, P + a + Q + b)
  {
    var s, w := P + a + Q + b, q.Lead()[0];
    LeadSolid(q);
    LetterWords(q);
    assert NoDigits(w + " ") by {
      assert forall k :: 0 <= k < |w| ==> (w + " ")[k] == w[k];
    }
    Absent(P, a, Q, b, w + " ");
    SpacedSentence(P, a, Q, b);
    forall j | 0 <= j <= |s|
      ensures MatchAt(q.Tokens(), s, j).None?
    {
      LeadNeeded(q, s, j);
      OccursSpaced(s, w, j);
    }
  }

  /** A pattern none of whose connectives' first words is in either fixed part matches nowhere. */
  lemma SilentByConnective(q: Pattern, P: string, a: string, Q: string, b: string)
    requires q != MultiplyLoose && IsNumeral(a) && IsNumeral(b)
    requires forall c :: 0 <= c < |q.Connectives()| ==> Misses(P, q.Connectives()[c][0]) && Misses(Q, q.Connectives()[c][0])
    ensures Silent(q, P + a + Q + b)
  {
    var s := P + a + Q + b;
    WellSpelled(q);
    LetterWords(q);
    forall c | 0 <= c < |q.Connectives()|
      ensures Misses(s, q.Connectives()[c][0])
    {
      Absent(P, a, Q, b, q.Connectives()[c][0]);
    }
    forall j | 0 <= j <= |s|
      ensures MatchAt(q.Tokens(), s, j).None?
    {
      ConnectiveNeeded(q, s, j);
    }
  }

  /** The words of a pattern have no digits. */
  lemma LetterWords(p: Pattern)
    ensures forall k :: 0 <= k < |p.Lead()[0]| ==> !IsDigit(p.Lead()[0][k])
    ensures forall c, k :: 0 <= c < |p.Connectives()| && 0 <= k < |p.Connectives()[c][0]| ==> !IsDigit(p.Connectives()[c][0][k])
  {
  }
}
