/** The few Python string operations the assistant relies on, with the meaning
    Python gives them: `str.isspace` (which is also what `\s` matches and what
    `str.strip` removes), `str.lower` restricted to ASCII letters, `in` on
    strings (substring search), `startswith`, `replace(c, "")` and `join`. */
module Text {

  /** Python's `str.isspace()`: the characters `str.strip()` removes and `\s` matches. */
  predicate IsSpace(c: char) {
    ('\t' <= c <= '\r') || ('\U{1C}' <= c <= ' ') || c == '\U{85}' || c == '\U{A0}'
    || c == '\U{1680}' || ('\U{2000}' <= c <= '\U{200A}') || c == '\U{2028}' || c == '\U{2029}'
    || c == '\U{202F}' || c == '\U{205F}' || c == '\U{3000}'
  }

  /** `\d`, restricted to the ASCII digits. */
  predicate IsDigit(c: char) {
    '0' <= c <= '9'
  }

  predicate IsUpper(c: char) {
    'A' <= c <= 'Z'
  }

  predicate AllSpace(s: string) {
    forall i :: 0 <= i < |s| ==> IsSpace(s[i])
  }

  predicate AllDigits(s: string) {
    forall i :: 0 <= i < |s| ==> IsDigit(s[i])
  }

  /** A non-empty run of digits, as a `(\d+)` group captures it. */
  predicate IsNumeral(s: string) {
    |s| > 0 && AllDigits(s)
  }

  function LowerChar(c: char): (d: char)
    ensures !IsUpper(d)
    ensures IsSpace(d) == IsSpace(c) && IsDigit(d) == IsDigit(c)
    ensures !IsUpper(c) ==> d == c
  {
    if IsUpper(c) then (c as int + 32) as char else c
  }

  /** `str.lower()` on ASCII letters; every other character is kept. */
  function Lower(s: string): (r: string)
    ensures |r| == |s|
    ensures forall i :: 0 <= i < |s| ==> r[i] == LowerChar(s[i])
  {
    if s == [] then [] else [LowerChar(s[0])] + Lower(s[1..])
  }

  /** Lowering twice is lowering once. */
  lemma {:induction false} LowerIdempotent(s: string)
    ensures Lower(Lower(s)) == Lower(s)
  {
    if s != [] {
      LowerIdempotent(s[1..]);
      assert Lower(s)[1..] == Lower(s[1..]);
    }
  }

  lemma LowerAppend(a: string, b: string)
    ensures Lower(a + b) == Lower(a) + Lower(b)
  {
    assert forall i :: 0 <= i < |a + b| ==> Lower(a + b)[i] == (Lower(a) + Lower(b))[i];
  }

  /** Leading whitespace removed, as `str.lstrip()` does. */
  function StripStart(s: string): (r: string)
    ensures |r| <= |s| && (r == [] || !IsSpace(r[0]))
  {
    if s != [] && IsSpace(s[0]) then StripStart(s[1..]) else s
  }

  /** Trailing whitespace removed, as `str.rstrip()` does. */
  function StripEnd(s: string): (r: string)
    ensures |r| <= |s| && (r == [] || (r[0] == s[0] && !IsSpace(r[|r| - 1])))
  {
    if s != [] && IsSpace(s[|s| - 1]) then StripEnd(s[..|s| - 1]) else s
  }

  /** `str.strip()`. */
  function Strip(s: string): (r: string)
    ensures r == [] || (!IsSpace(r[0]) && !IsSpace(r[|r| - 1]))
  {
    StripEnd(StripStart(s))
  }

  /** Whitespace around a text that neither starts nor ends with whitespace is
      exactly what `Strip` takes away. */
  lemma {:induction false} StripPadded(before: string, core: string, after: string)
    requires AllSpace(before) && AllSpace(after)
    requires core == [] || (!IsSpace(core[0]) && !IsSpace(core[|core| - 1]))
    ensures Strip(before + core + after) == core
  {
    if core == [] {
      assert before + core + after == (before + after) + [];
      assert AllSpace(before + after);
      StripStartPadded(before + after, []);
    } else {
      assert (before + core + after) == before + (core + after);
      StripStartPadded(before, core + after);
      StripEndPadded(core, after);
    }
  }

  lemma {:induction false} StripStartPadded(before: string, rest: string)
    requires AllSpace(before)
    requires rest == [] || !IsSpace(rest[0])
    ensures StripStart(before + rest) == rest
  {
    if before != [] {
      assert (before + rest)[1..] == before[1..] + rest;
      StripStartPadded(before[1..], rest);
    }
  }

  lemma {:induction false} StripEndPadded(rest: string, after: string)
    requires AllSpace(after)
    requires rest == [] || !IsSpace(rest[|rest| - 1])
    ensures StripEnd(rest + after) == rest
  {
    if after != [] {
      var shorter := after[..|after| - 1];
      assert (rest + after)[..|rest + after| - 1] == rest + shorter;
      StripEndPadded(rest, shorter);
    } else {
      assert rest + after == rest;
    }
  }

  /** `s.replace(c, "")`: every occurrence of `c` removed, the rest in order. */
  function Remove(s: string, c: char): (r: string)
    ensures c !in r
    ensures |r| <= |s|
    ensures forall d :: d in r ==> d in s
  {
    if s == [] then [] else (if s[0] == c then [] else [s[0]]) + Remove(s[1..], c)
  }

  /** Removing a character that does not occur changes nothing. */
  lemma {:induction false} RemoveAbsent(s: string, c: char)
    requires c !in s
    ensures Remove(s, c) == s
  {
    if s != [] {
      assert c !in s[1..];
      RemoveAbsent(s[1..], c);
      assert s == [s[0]] + s[1..];
    }
  }

  /** `s.startswith(w)`. */
  predicate StartsWith(s: string, w: string) {
    |w| <= |s| && s[..|w|] == w
  }

  /** `w` occurs in `s` starting at index `i`. */
  predicate OccursAt(s: string, w: string, i: int) {
    0 <= i && i + |w| <= |s| && forall k :: 0 <= k < |w| ==> s[i + k] == w[k]
  }

  /** Each character of an occurrence. */
  lemma OccursChar(s: string, w: string, i: int, k: int)
    ensures OccursAt(s, w, i) && 0 <= k < |w| ==> s[i + k] == w[k]
  {
  }

  /** Python's `w in s` on strings: `w` is a substring of `s`. */
  predicate Contains(s: string, w: string) {
    StartsWith(s, w) || (s != [] && Contains(s[1..], w))
  }

  /** `Contains` means there is an index at which `w` occurs, and back. */
  lemma {:induction false} ContainsIff(s: string, w: string)
    ensures Contains(s, w) <==> exists i :: OccursAt(s, w, i)
  {
    if s != [] {
      ContainsIff(s[1..], w);
    }
    if Contains(s, w) {
      if StartsWith(s, w) {
        assert OccursAt(s, w, 0);
      } else {
        var i :| OccursAt(s[1..], w, i);
        assert s[1..][i..i + |w|] == s[i + 1..i + 1 + |w|];
        assert OccursAt(s, w, i + 1);
      }
    }
    if exists i :: OccursAt(s, w, i) {
      var i :| OccursAt(s, w, i);
      if i == 0 {
        assert StartsWith(s, w);
      } else {
        assert s[1..][i - 1..i - 1 + |w|] == s[i..i + |w|];
        assert OccursAt(s[1..], w, i - 1);
      }
    }
  }

  /** A substring of a part is a substring of the whole. */
  lemma ContainsInfix(before: string, s: string, after: string, w: string)
    requires Contains(s, w)
    ensures Contains(before + s + after, w)
  {
    ContainsIff(s, w);
    var i :| OccursAt(s, w, i);
    var t := before + s + after;
    assert t[|before| + i..|before| + i + |w|] == s[i..i + |w|];
    assert OccursAt(t, w, |before| + i);
    ContainsIff(t, w);
  }

  /** The lines joined with `sep` between them, as `sep.join(lines)`. */
  function Join(lines: seq<string>, sep: string): string {
    if lines == [] then "" else if |lines| == 1 then lines[0] else lines[0] + sep + Join(lines[1..], sep)
  }
}
