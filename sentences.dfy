/** What the patterns do on the sentences they are written for: a sentence
    spelled with single spaces, "subtract 3 from 10" say, is matched in full
    and its two numbers are captured in the order they are spoken. */
module Sentences {
  import opened Wrappers
  import opened Text
  import opened Patterns

  /** Words that are non-empty and do not start with whitespace. */
  predicate Solid(words: seq<string>) {
    words != [] && forall k :: 0 <= k < |words| ==> words[k] != [] && !IsSpace(words[k][0])
  }

  /** The words of a pattern are solid and its connectives start with different letters. */
  lemma WellSpelled(p: Pattern)
    ensures Solid(p.Lead())
    ensures forall c :: 0 <= c < |p.Connectives()| ==> Solid(p.Connectives()[c])
    ensures forall c, d :: 0 <= c < d < |p.Connectives()| ==> p.Connectives()[c][0][0] != p.Connectives()[d][0][0]
  {
  }

  /** The words written with one space between them. */
  function Spoken(words: seq<string>): string {
    Join(words, " ")
  }

  /** The sentence a pattern is written for, with single spaces, the
      `c`-th connective and the numbers `a` and `b`. */
  function Sentence(p: Pattern, c: nat, a: string, b: string): string
    requires c < |p.Connectives()|
  {
    Spoken(p.Lead()) + " " + a + " " + Spoken(p.Connectives()[c]) + " " + b
  }

  lemma SpokenShape(words: seq<string>)
    requires words != []
    ensures |words| == 1 ==> Spoken(words) == words[0]
    ensures |words| > 1 ==> Spoken(words) == words[0] + " " + Spoken(words[1..])
  {
  }

  lemma {:induction false} SpokenStart(words: seq<string>)
    requires Solid(words)
    ensures |Spoken(words)| > 0 && Spoken(words)[0] == words[0][0]
  {
    SpokenShape(words);
  }

  /** An occurrence of `x + y` is an occurrence of `x` followed by one of `y`. */
  lemma OccursSplit(s: string, x: string, y: string, i: nat)
    requires OccursAt(s, x + y, i)
    ensures OccursAt(s, x, i) && OccursAt(s, y, i + |x|)
  {
    forall k | 0 <= k < |x|
      ensures s[i + k] == x[k]
    {
      assert (x + y)[k] == x[k];
    }
    forall k | 0 <= k < |y|
      ensures s[i + |x| + k] == y[k]
    {
      assert (x + y)[|x| + k] == y[k];
    }
  }

  lemma SkipDigitsOver(s: string, i: nat, j: nat)
    requires i <= j <= |s| && (j == |s| || !IsDigit(s[j]))
    requires forall k :: i <= k < j ==> IsDigit(s[k])
    ensures SkipDigits(s, i) == j
    decreases j - i
  {
    if i < j {
      SkipDigitsOver(s, i + 1, j);
    }
  }

  /** A numeral followed by a non-digit is one `Number` token. */
  lemma NumberOver(s: string, i: nat, a: string)
    requires IsNumeral(a) && OccursAt(s, a, i)
    requires i + |a| == |s| || !IsDigit(s[i + |a|])
    ensures Step(Number, s, i) == Some(i + |a|) && s[i..i + |a|] == a
  {
    assert forall k :: i <= k < i + |a| ==> s[k] == a[k - i];
    SkipDigitsOver(s, i, i + |a|);
  }

  /** A single space followed by something else is one `Gap` token. */
  lemma GapOne(s: string, i: nat)
    requires i < |s| && IsSpace(s[i])
    requires i + 1 == |s| || !IsSpace(s[i + 1])
    ensures Step(Gap, s, i) == Some(i + 1) && SkipSpaces(s, i) == i + 1
  {
  }

  lemma {:induction false} WordsStep(s: string, i: nat, words: seq<string>, k: nat, e: nat)
    requires i <= |s| && |words| > 1
    requires OccursAt(s, words[0], i) && i + |words[0]| < |s| && SkipSpaces(s, i + |words[0]|) == k && k > i + |words[0]|
    requires k <= |s| && Words(s, k, words[1..]) == Some(e)
    ensures Words(s, i, words) == Some(e)
  {
  }

  /** Words written out with single spaces are matched exactly. */
  lemma {:induction false} WordsOverSpoken(s: string, i: nat, words: seq<string>)
    requires Solid(words)
    requires OccursAt(s, Spoken(words), i)
    ensures Words(s, i, words) == Some(i + |Spoken(words)|)
    decreases words
  {
    if |words| == 1 {
      SpokenShape(words);
    } else {
      var j := i + |words[0]|;
      SpokenParts(s, i, words);
      GapOne(s, j);
      WordsOverSpoken(s, j + 1, words[1..]);
      WordsStep(s, i, words, j + 1, i + |Spoken(words)|);
    }
  }

  /** Where the first word, the space after it and the other words are. */
  lemma SpokenParts(s: string, i: nat, words: seq<string>)
    requires Solid(words) && |words| > 1
    requires OccursAt(s, Spoken(words), i)
    ensures var j := i + |words[0]|;
      OccursAt(s, words[0], i) && j + 1 < |s| && s[j] == ' ' && !IsSpace(s[j + 1])
      && Solid(words[1..]) && OccursAt(s, Spoken(words[1..]), j + 1)
      && |Spoken(words)| == |words[0]| + 1 + |Spoken(words[1..])|
  {
    var w, rest := words[0], words[1..];
    var j := i + |w|;
    assert Solid(rest);
    SpokenShape(words);
    SpokenStart(rest);
    assert Spoken(words) == w + (" " + Spoken(rest));
    OccursSplit(s, w, " " + Spoken(rest), i);
    OccursSplit(s, " ", Spoken(rest), j);
    assert s[j] == ' ' && s[j + 1] == rest[0][0] by {
      OccursChar(s, " ", j, 0);
      OccursChar(s, Spoken(rest), j + 1, 0);
    }
  }

  /** The chosen connective is the first alternative that is present. */
  lemma {:induction false} FirstWordsAt(s: string, i: nat, alternatives: seq<seq<string>>, c: nat)
    requires c < |alternatives| && Solid(alternatives[c])
    requires forall d :: 0 <= d < c ==> alternatives[d] != [] && alternatives[d][0] != [] && alternatives[d][0][0] != alternatives[c][0][0]
    requires OccursAt(s, Spoken(alternatives[c]), i)
    ensures FirstWords(s, i, alternatives) == Some(i + |Spoken(alternatives[c])|)
    decreases c
  {
    SpokenStart(alternatives[c]);
    assert s[i] == alternatives[c][0][0] by {
      assert s[i..i + |Spoken(alternatives[c])|][0] == Spoken(alternatives[c])[0];
    }
    if c == 0 {
      WordsOverSpoken(s, i, alternatives[0]);
    } else {
      OccursChar(s, alternatives[0][0], i, 0);
      FirstWordsAt(s, i, alternatives[1..], c - 1);
    }
  }

  /** One token matched, then the rest. */
  lemma MatchAtStep(ts: seq<Token>, s: string, i: nat, j: nat, m: Match)
    requires i <= |s| && ts != [] && Step(ts[0], s, i) == Some(j) && MatchAt(ts[1..], s, j) == Some(m)
    ensures MatchAt(ts, s, i) == Some(Match(i, m.end, (if ts[0].Number? then [s[i..j]] else []) + m.groups))
  {
  }

  /** Alternative `c` is solid and no earlier alternative starts with its letter. */
  predicate Chooses(alternatives: seq<seq<string>>, c: nat) {
    c < |alternatives| && Solid(alternatives[c])
    && forall d :: 0 <= d < c ==> alternatives[d] != [] && alternatives[d][0] != [] && alternatives[d][0][0] != alternatives[c][0][0]
  }

  /** The positions where the parts of `L + " " + a + " " + R` start inside `s`. */
  lemma SentenceParts(L: string, a: string, R: string, s: string, i: nat)
    requires OccursAt(s, L + " " + a + " " + R, i)
    ensures var i1 := i + |L|; var i3 := i1 + 1 + |a|;
      OccursAt(s, L, i) && s[i1] == ' ' && OccursAt(s, a, i1 + 1) && s[i3] == ' ' && OccursAt(s, R, i3 + 1)
  {
    var x1 := L + " ";
    var x2 := x1 + a;
    var x3 := x2 + " ";
    OccursSplit(s, x3, R, i);
    OccursSplit(s, x2, " ", i);
    OccursSplit(s, x1, a, i);
    OccursSplit(s, L, " ", i);
    OccursChar(s, " ", i + |L|, 0);
    OccursChar(s, " ", i + |x2|, 0);
  }

  /** A connective, a space and a number, not followed by another digit,
      match the tail of a pattern. */
  lemma MatchTail(alternatives: seq<seq<string>>, c: nat, loose: bool, b: string, s: string, j: nat, e: nat)
    requires Chooses(alternatives, c) && IsNumeral(b)
    requires OccursAt(s, Spoken(alternatives[c]) + " " + b, j)
    requires e == j + |Spoken(alternatives[c]) + " " + b| && (e == |s| || !IsDigit(s[e]))
    ensures MatchAt(Tail(alternatives, loose), s, j) == Some(Match(j, e, [b]))
  {
    var C := Spoken(alternatives[c]);
    var i5 := j + |C|;
    var i6 := i5 + 1;
    var i7 := i6 + |b|;
    OccursSplit(s, C + " ", b, j);
    OccursSplit(s, C, " ", j);
    assert s[i5] == ' ' && s[i6] == b[0] by {
      OccursChar(s, " ", i5, 0);
      OccursChar(s, b, i6, 0);
    }
    LastNumber(s, i6, b);
    FirstWordsAt(s, j, alternatives, c);
    GapOne(s, i5);
    if loose {
      LooseTail(alternatives, s, j, i5, b, e);
    } else {
      StrictTail(alternatives, s, j, i5, b, e);
    }
  }

  lemma LastNumber(s: string, i: nat, b: string)
    requires IsNumeral(b) && OccursAt(s, b, i)
    requires i + |b| == |s| || !IsDigit(s[i + |b|])
    ensures MatchAt([Number], s, i) == Some(Match(i, i + |b|, [b]))
  {
    NumberOver(s, i, b);
    assert [Number][1..] == [];
    MatchAtStep([Number], s, i, i + |b|, Match(i + |b|, i + |b|, []));
    Single(b);
  }

  lemma LooseTail(alternatives: seq<seq<string>>, s: string, j: nat, i5: nat, b: string, e: nat)
    requires j <= i5 < |s| && FirstWords(s, j, alternatives) == Some(i5) && SkipSpaces(s, i5) == i5 + 1
    requires MatchAt([Number], s, i5 + 1) == Some(Match(i5 + 1, i5 + 1 + |b|, [b])) && IsNumeral(b)
    requires e == i5 + 1 + |b|
    ensures MatchAt(Tail(alternatives, true), s, j) == Some(Match(j, e, [b]))
  {
    var ts := Tail(alternatives, true);
    assert ts[0] == OptionalPhrase(alternatives) && ts[1..] == [Number];
    assert IsDigit(s[i5 + 1]);
    assert Step(OptionalPhrase(alternatives), s, j) == Some(i5 + 1);
    MatchAtStep(ts, s, j, i5 + 1, Match(i5 + 1, i5 + 1 + |b|, [b]));
    Single(b);
  }

  lemma StrictTail(alternatives: seq<seq<string>>, s: string, j: nat, i5: nat, b: string, e: nat)
    requires j <= i5 < |s| && FirstWords(s, j, alternatives) == Some(i5) && Step(Gap, s, i5) == Some(i5 + 1)
    requires MatchAt([Number], s, i5 + 1) == Some(Match(i5 + 1, i5 + 1 + |b|, [b]))
    requires e == i5 + 1 + |b|
    ensures MatchAt(Tail(alternatives, false), s, j) == Some(Match(j, e, [b]))
  {
    var ts := Tail(alternatives, false);
    assert ts[0] == Phrase(alternatives) && ts[1..] == [Gap, Number] && [Gap, Number][1..] == [Number];
    MatchAtStep([Gap, Number], s, i5, i5 + 1, Match(i5 + 1, i5 + 1 + |b|, [b]));
    Single(b);
    MatchAtStep(ts, s, j, i5, Match(i5, i5 + 1 + |b|, [b]));
  }

  /** The lead words, a number, a connective and a number, spelled with
      single spaces and not followed by another digit, match the whole shape
      and capture the two numbers in order. */
  lemma MatchShape(lead: seq<string>, alternatives: seq<seq<string>>, c: nat, loose: bool, a: string, b: string, s: string, i: nat, e: nat)
    requires Solid(lead) && Chooses(alternatives, c) && IsNumeral(a) && IsNumeral(b)
    requires OccursAt(s, Spoken(lead) + " " + a + " " + (Spoken(alternatives[c]) + " " + b), i)
    requires e == i + |Spoken(lead) + " " + a + " " + (Spoken(alternatives[c]) + " " + b)| && (e == |s| || !IsDigit(s[e]))
    ensures MatchAt(Shape(lead, alternatives, loose), s, i) == Some(Match(i, e, [a, b]))
  {
    var i4 := i + |Spoken(lead)| + 1 + |a| + 1;
    var head := [Phrase([lead]), Gap, Number, Gap];
    ShapeParts(lead, alternatives, c, loose, a, b, s, i, i4, e);
    Combine(head, Tail(alternatives, loose), Shape(lead, alternatives, loose), s, i, i4, e, a, b);
  }

  /** The head of the shape matches up to the connective, and the tail from there on. */
  lemma ShapeParts(lead: seq<string>, alternatives: seq<seq<string>>, c: nat, loose: bool, a: string, b: string, s: string, i: nat, i4: nat, e: nat)
    requires Solid(lead) && Chooses(alternatives, c) && IsNumeral(a) && IsNumeral(b)
    requires OccursAt(s, Spoken(lead) + " " + a + " " + (Spoken(alternatives[c]) + " " + b), i)
    requires i4 == i + |Spoken(lead)| + 1 + |a| + 1
    requires e == i + |Spoken(lead) + " " + a + " " + (Spoken(alternatives[c]) + " " + b)| && (e == |s| || !IsDigit(s[e]))
    ensures MatchAt([Phrase([lead]), Gap, Number, Gap], s, i) == Some(Match(i, i4, [a]))
    ensures MatchAt(Tail(alternatives, loose), s, i4) == Some(Match(i4, e, [b]))
  {
    var L, R := Spoken(lead), Spoken(alternatives[c]) + " " + b;
    SentenceParts(L, a, R, s, i);
    SpokenStart(alternatives[c]);
    assert s[i4] == alternatives[c][0][0] by {
      OccursChar(s, R, i4, 0);
    }
    assert OccursAt(s, R, i4) && e == i4 + |R|;
    MatchHead(lead, s, i, a);
    MatchTail(alternatives, c, loose, b, s, i4, e);
  }

  /** Two matches one after the other, with one number each. */
  lemma Combine(xs: seq<Token>, ys: seq<Token>, ts: seq<Token>, s: string, i: nat, j: nat, e: nat, a: string, b: string)
    requires i <= j <= |s| && ts == xs + ys
    requires MatchAt(xs, s, i) == Some(Match(i, j, [a])) && MatchAt(ys, s, j) == Some(Match(j, e, [b]))
    ensures MatchAt(ts, s, i) == Some(Match(i, e, [a, b]))
  {
    MatchAtAppend(xs, ys, s, i, Match(i, j, [a]), Match(j, e, [b]));
    Pair(a, b);
  }

  lemma Single(a: string)
    ensures [a] + [] == [a] && [] + [a] == [a]
  {
  }

  lemma Pair(a: string, b: string)
    ensures [a] + [b] == [a, b]
  {
  }

  /** Matching two token lists one after the other is matching their concatenation. */
  lemma {:induction false} MatchAtAppend(xs: seq<Token>, ys: seq<Token>, s: string, i: nat, m1: Match, m2: Match)
    requires i <= |s| && MatchAt(xs, s, i) == Some(m1) && MatchAt(ys, s, m1.end) == Some(m2)
    ensures MatchAt(xs + ys, s, i) == Some(Match(i, m2.end, m1.groups + m2.groups))
    decreases xs
  {
    if xs == [] {
      AppendNothing(ys, s, i, m1, m2);
    } else {
      var j := Step(xs[0], s, i).value;
      var m := MatchAt(xs[1..], s, j).value;
      MatchAtAppend(xs[1..], ys, s, j, m, m2);
      AppendStep(xs, ys, s, i, j, m1, m, m2);
    }
  }

  lemma AppendNothing(ys: seq<Token>, s: string, i: nat, m1: Match, m2: Match)
    requires i <= |s| && MatchAt([], s, i) == Some(m1) && MatchAt(ys, s, m1.end) == Some(m2)
    ensures MatchAt([] + ys, s, i) == Some(Match(i, m2.end, m1.groups + m2.groups))
  {
    assert [] + ys == ys && m1 == Match(i, i, []);
    assert m1.groups + m2.groups == m2.groups;
  }

  lemma AppendStep(xs: seq<Token>, ys: seq<Token>, s: string, i: nat, j: nat, m1: Match, m: Match, m2: Match)
    requires i <= |s| && xs != [] && Step(xs[0], s, i) == Some(j) && MatchAt(xs[1..], s, j) == Some(m)
    requires MatchAt(xs, s, i) == Some(m1)
    requires MatchAt(xs[1..] + ys, s, j) == Some(Match(j, m2.end, m.groups + m2.groups))
    ensures MatchAt(xs + ys, s, i) == Some(Match(i, m2.end, m1.groups + m2.groups))
  {
    var cap := if xs[0].Number? then [s[i..j]] else [];
    MatchAtStep(xs, s, i, j, m);
    StepAppended(xs, ys, s, i, j, Match(j, m2.end, m.groups + m2.groups));
    Assoc(cap, m.groups, m2.groups, m1.groups);
  }

  lemma Assoc(a: seq<string>, b: seq<string>, c: seq<string>, ab: seq<string>)
    requires ab == a + b
    ensures a + (b + c) == ab + c
  {
  }

  lemma ConsAppend(xs: seq<Token>, ys: seq<Token>)
    requires xs != []
    ensures (xs + ys)[0] == xs[0] && (xs + ys)[1..] == xs[1..] + ys
  {
  }

  lemma StepAppended(xs: seq<Token>, ys: seq<Token>, s: string, i: nat, j: nat, m: Match)
    requires i <= |s| && xs != [] && Step(xs[0], s, i) == Some(j)
    requires MatchAt(xs[1..] + ys, s, j) == Some(m)
    ensures MatchAt(xs + ys, s, i) == Some(Match(i, m.end, (if xs[0].Number? then [s[i..j]] else []) + m.groups))
  {
    ConsAppend(xs, ys);
    MatchAtStep(xs + ys, s, i, j, m);
  }

  /** The lead, a gap, a number and a gap. */
  lemma MatchHead(lead: seq<string>, s: string, i: nat, a: string)
    requires Solid(lead) && IsNumeral(a) && OccursAt(s, Spoken(lead), i)
    requires var i1 := i + |Spoken(lead)|; var i3 := i1 + 1 + |a|;
      i3 + 1 < |s| && s[i1] == ' ' && OccursAt(s, a, i1 + 1) && s[i3] == ' ' && !IsSpace(s[i3 + 1])
    ensures MatchAt([Phrase([lead]), Gap, Number, Gap], s, i) == Some(Match(i, i + |Spoken(lead)| + 1 + |a| + 1, [a]))
  {
    var i1 := i + |Spoken(lead)|;
    var i3 := i1 + 1 + |a|;
    assert s[i1 + 1] == a[0] by {
      OccursChar(s, a, i1 + 1, 0);
    }
    NumberOver(s, i1 + 1, a);
    GapOne(s, i1);
    GapOne(s, i3);
    FirstWordsAt(s, i, [lead], 0);
    HeadSteps(lead, s, i, i1, i3, a);
  }

  lemma HeadSteps(lead: seq<string>, s: string, i: nat, i1: nat, i3: nat, a: string)
    requires i <= i1 && i1 + 1 <= i3 < |s|
    requires Step(Phrase([lead]), s, i) == Some(i1) && Step(Gap, s, i1) == Some(i1 + 1)
    requires Step(Number, s, i1 + 1) == Some(i3) && s[i1 + 1..i3] == a && Step(Gap, s, i3) == Some(i3 + 1)
    ensures MatchAt([Phrase([lead]), Gap, Number, Gap], s, i) == Some(Match(i, i3 + 1, [a]))
  {
    var ts := [Phrase([lead]), Gap, Number, Gap];
    GapNumberGap(s, i1, i3, a);
    assert ts[0] == Phrase([lead]) && ts[1..] == [Gap, Number, Gap];
    MatchAtStep(ts, s, i, i1, Match(i1, i3 + 1, [a]));
    Single(a);
  }

  lemma GapNumberGap(s: string, i1: nat, i3: nat, a: string)
    requires i1 + 1 <= i3 < |s| && Step(Gap, s, i1) == Some(i1 + 1)
    requires Step(Number, s, i1 + 1) == Some(i3) && s[i1 + 1..i3] == a && Step(Gap, s, i3) == Some(i3 + 1)
    ensures MatchAt([Gap, Number, Gap], s, i1) == Some(Match(i1, i3 + 1, [a]))
  {
    var ts := [Gap, Number, Gap];
    NumberGap(s, i1 + 1, i3, a);
    assert ts[0] == Gap && ts[1..] == [Number, Gap];
    MatchAtStep(ts, s, i1, i1 + 1, Match(i1 + 1, i3 + 1, [a]));
    Single(a);
  }

  lemma NumberGap(s: string, i2: nat, i3: nat, a: string)
    requires i2 <= i3 < |s|
    requires Step(Number, s, i2) == Some(i3) && s[i2..i3] == a && Step(Gap, s, i3) == Some(i3 + 1)
    ensures MatchAt([Number, Gap], s, i2) == Some(Match(i2, i3 + 1, [a]))
  {
    var ts := [Number, Gap];
    assert ts[1..] == [Gap] && [Gap][1..] == [];
    MatchAtStep([Gap], s, i3, i3 + 1, Match(i3 + 1, i3 + 1, []));
    MatchAtStep(ts, s, i2, i3, Match(i3, i3 + 1, []));
    Single(a);
  }

  /** A sentence spelled with single spaces, not followed by another digit,
      is a match of its pattern that spans the whole sentence and captures
      its two numbers in the order they are spoken. */
  lemma MatchSentence(p: Pattern, c: nat, a: string, b: string, s: string, i: nat)
    requires c < |p.Connectives()| && IsNumeral(a) && IsNumeral(b)
    requires OccursAt(s, Sentence(p, c, a, b), i)
    requires i + |Sentence(p, c, a, b)| == |s| || !IsDigit(s[i + |Sentence(p, c, a, b)|])
    ensures MatchAt(p.Tokens(), s, i) == Some(Match(i, i + |Sentence(p, c, a, b)|, [a, b]))
  {
    var lead, alternatives := p.Lead(), p.Connectives();
    ChoosesConnective(p, c);
    SentenceShape(p, c, a, b);
    MatchShape(lead, alternatives, c, p == MultiplyLoose, a, b, s, i, i + |Sentence(p, c, a, b)|);
    TokensShape(p, s, i, Match(i, i + |Sentence(p, c, a, b)|, [a, b]));
  }

  lemma TokensShape(p: Pattern, s: string, i: nat, m: Match)
    requires i <= |s| && MatchAt(Shape(p.Lead(), p.Connectives(), p == MultiplyLoose), s, i) == Some(m)
    ensures MatchAt(p.Tokens(), s, i) == Some(m)
  {
  }

  /** Whichever connective is spoken, the pattern chooses it. */
  lemma ChoosesConnective(p: Pattern, c: nat)
    requires c < |p.Connectives()|
    ensures Solid(p.Lead()) && Chooses(p.Connectives(), c)
  {
    WellSpelled(p);
  }

  lemma SentenceShape(p: Pattern, c: nat, a: string, b: string)
    requires c < |p.Connectives()|
    ensures Sentence(p, c, a, b) == Spoken(p.Lead()) + " " + a + " " + (Spoken(p.Connectives()[c]) + " " + b)
  {
  }
}
