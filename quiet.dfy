/** No rule of the calculator chatbot that comes before the rule a sentence
    is written for matches anywhere in that sentence, so the sentence reaches
    its own rule. Each fixed part of a sentence is shown free of the lead
    words and connectives of the earlier rules; `Exclusion` carries that over
    to the whole sentence, whatever its numbers. */
module Quiet {
  import opened Text
  import opened Patterns
  import opened Sentences
  import opened Exclusion

  lemma SpokenPair(x: string, y: string)
    ensures Spoken([x, y]) == x + " " + y
  {
    SpokenShape([x, y]);
    assert [x, y][1..] == [y];
  }

  /** The lead words, each with the whitespace after it, as the earlier rules need them. */
  lemma LeadWords()
    ensures Add.Lead()[0] + " " == "add "
    ensures Subtract.Lead()[0] + " " == "subtract "
    ensures Multiply.Lead()[0] + " " == "multiply "
    ensures Divide.Lead()[0] + " " == "divide "
  {
  }

  /** The first words of the connectives of the "what is" rules. */
  lemma ConnectiveWords()
    ensures |WhatTimes.Connectives()| == 2 && WhatTimes.Connectives()[0][0] == "times" && WhatTimes.Connectives()[1][0] == "multiplied"
    ensures |WhatDivided.Connectives()| == 1 && WhatDivided.Connectives()[0][0] == "divided"
    ensures |WhatPlus.Connectives()| == 2 && WhatPlus.Connectives()[0][0] == "plus" && WhatPlus.Connectives()[1][0] == "added"
  {
  }

  /** "what is " holds none of "add ", "subtract ", "multiply ", "divide ". */
  lemma WhatIsLeads()
    ensures Spaced("what is ")
    ensures Misses("what is ", "add ")
    ensures Misses("what is ", "subtract ")
    ensures Misses("what is ", "multiply ")
    ensures Misses("what is ", "divide ")
  {
    MissesBy("what is ", "add ", 1, 1);
    MissesBy("what is ", "subtract ", 1, 1);
    MissesBy("what is ", "multiply ", 1, 1);
    MissesBy("what is ", "divide ", 1, 1);
  }

  /** "what is " holds none of "times", "multiplied", "divided", "plus", "added". */
  lemma WhatIsConnectives()
    ensures Misses("what is ", "times")
    ensures Misses("what is ", "multiplied")
    ensures Misses("what is ", "divided")
    ensures Misses("what is ", "plus")
    ensures Misses("what is ", "added")
  {
    MissesBy("what is ", "times", 1, 1);
    MissesBy("what is ", "multiplied", 1, 1);
    MissesBy("what is ", "divided", 1, 1);
    MissesBy("what is ", "plus", 1, 1);
    MissesBy("what is ", "added", 1, 1);
  }

  /** "subtract " holds none of "add ". */
  lemma SubtractLeadLeads()
    ensures Spaced("subtract ")
    ensures Misses("subtract ", "add ")
  {
    MissesBy("subtract ", "add ", 1, 1);
  }

  /** "multiply " holds none of "add ", "subtract ". */
  lemma MultiplyLeadLeads()
    ensures Spaced("multiply ")
    ensures Misses("multiply ", "add ")
    ensures Misses("multiply ", "subtract ")
  {
    MissesBy("multiply ", "add ", 1, 1);
    MissesBy("multiply ", "subtract ", 1, 1);
  }

  /** "divide " holds none of "add ", "subtract ", "multiply ". */
  lemma DivideLeadLeads()
    ensures Spaced("divide ")
    ensures Misses("divide ", "add ")
    ensures Misses("divide ", "subtract ")
    ensures Misses("divide ", "multiply ")
  {
    MissesBy("divide ", "add ", 1, 1);
    MissesBy("divide ", "subtract ", 1, 1);
    MissesBy("divide ", "multiply ", 1, 1);
  }

  /** " from " holds none of "add ". */
  lemma FromLeads()
    ensures Spaced(" from ")
    ensures Misses(" from ", "add ")
  {
    MissesBy(" from ", "add ", 1, 1);
  }

  /** " and " holds none of "add ", "subtract ". */
  lemma AndLeads()
    ensures Spaced(" and ")
    ensures Misses(" and ", "add ")
    ensures Misses(" and ", "subtract ")
  {
    MissesBy(" and ", "add ", 1, 1);
    MissesBy(" and ", "subtract ", 1, 1);
  }

  /** " by " holds none of "add ", "subtract ", "multiply ". */
  lemma ByLeads()
    ensures Spaced(" by ")
    ensures Misses(" by ", "add ")
    ensures Misses(" by ", "subtract ")
    ensures Misses(" by ", "multiply ")
  {
    MissesBy(" by ", "add ", 1, 1);
    MissesBy(" by ", "subtract ", 1, 1);
    MissesBy(" by ", "multiply ", 1, 1);
  }

  /** " times " holds none of "add ", "subtract ", "multiply ", "divide ". */
  lemma TimesLeads()
    ensures Spaced(" times ")
    ensures Misses(" times ", "add ")
    ensures Misses(" times ", "subtract ")
    ensures Misses(" times ", "multiply ")
    ensures Misses(" times ", "divide ")
  {
    MissesBy(" times ", "add ", 1, 1);
    MissesBy(" times ", "subtract ", 1, 1);
    MissesBy(" times ", "multiply ", 1, 1);
    MissesBy(" times ", "divide ", 1, 1);
  }

  /** " multiplied by " holds none of "add ", "subtract ". */
  lemma MultipliedByLeads()
    ensures Spaced(" multiplied by ")
    ensures Misses(" multiplied by ", "add ")
    ensures Misses(" multiplied by ", "subtract ")
  {
    MissesBy(" multiplied by ", "add ", 1, 1);
    MissesBy(" multiplied by ", "subtract ", 1, 1);
  }

  /** " multiplied by " holds none of "multiply ", "divide ". */
  lemma MultipliedByLeadsMore()
    ensures Misses(" multiplied by ", "multiply ")
    ensures Misses(" multiplied by ", "divide ")
  {
    MissesBy(" multiplied by ", "multiply ", 7, 7);
    MissesBy(" multiplied by ", "divide ", 1, 1);
  }

  /** " divided by " holds none of "add ", "subtract ". */
  lemma DividedByLeads()
    ensures Spaced(" divided by ")
    ensures Misses(" divided by ", "add ")
    ensures Misses(" divided by ", "subtract ")
  {
    MissesBy(" divided by ", "add ", 1, 1);
    MissesBy(" divided by ", "subtract ", 1, 1);
  }

  /** " divided by " holds none of "multiply ", "divide ". */
  lemma DividedByLeadsMore()
    ensures Misses(" divided by ", "multiply ")
    ensures Misses(" divided by ", "divide ")
  {
    MissesBy(" divided by ", "multiply ", 1, 1);
    MissesBy(" divided by ", "divide ", 6, 1);
  }

  /** " divided by " holds none of "times", "multiplied". */
  lemma DividedByConnectives()
    ensures Misses(" divided by ", "times")
    ensures Misses(" divided by ", "multiplied")
  {
    MissesBy(" divided by ", "times", 1, 1);
    MissesBy(" divided by ", "multiplied", 1, 1);
  }

  /** " plus " holds none of "add ", "subtract ", "multiply ", "divide ". */
  lemma PlusLeads()
    ensures Spaced(" plus ")
    ensures Misses(" plus ", "add ")
    ensures Misses(" plus ", "subtract ")
    ensures Misses(" plus ", "multiply ")
    ensures Misses(" plus ", "divide ")
  {
    MissesBy(" plus ", "add ", 1, 1);
    MissesBy(" plus ", "subtract ", 1, 1);
    MissesBy(" plus ", "multiply ", 1, 1);
    MissesBy(" plus ", "divide ", 1, 1);
  }

  /** " plus " holds none of "times", "multiplied", "divided". */
  lemma PlusConnectives()
    ensures Misses(" plus ", "times")
    ensures Misses(" plus ", "multiplied")
    ensures Misses(" plus ", "divided")
  {
    MissesBy(" plus ", "times", 1, 1);
    MissesBy(" plus ", "multiplied", 1, 1);
    MissesBy(" plus ", "divided", 1, 1);
  }

  /** " added to " holds none of "add ", "subtract ". */
  lemma AddedToLeads()
    ensures Spaced(" added to ")
    ensures Misses(" added to ", "add ")
    ensures Misses(" added to ", "subtract ")
  {
    MissesBy(" added to ", "add ", 3, 3);
    MissesBy(" added to ", "subtract ", 1, 1);
  }

  /** " added to " holds none of "multiply ", "divide ". */
  lemma AddedToLeadsMore()
    ensures Misses(" added to ", "multiply ")
    ensures Misses(" added to ", "divide ")
  {
    MissesBy(" added to ", "multiply ", 1, 1);
    MissesBy(" added to ", "divide ", 1, 1);
  }

  /** " added to " holds none of "times", "multiplied". */
  lemma AddedToConnectives()
    ensures Misses(" added to ", "times")
    ensures Misses(" added to ", "multiplied")
  {
    MissesBy(" added to ", "times", 1, 1);
    MissesBy(" added to ", "multiplied", 1, 1);
  }

  /** " added to " holds none of "divided". */
  lemma AddedToConnectivesMore()
    ensures Misses(" added to ", "divided")
  {
    MissesBy(" added to ", "divided", 1, 1);
  }

  /** " minus " holds none of "add ", "subtract ", "multiply ", "divide ". */
  lemma MinusLeads()
    ensures Spaced(" minus ")
    ensures Misses(" minus ", "add ")
    ensures Misses(" minus ", "subtract ")
    ensures Misses(" minus ", "multiply ")
    ensures Misses(" minus ", "divide ")
  {
    MissesBy(" minus ", "add ", 1, 1);
    MissesBy(" minus ", "subtract ", 1, 1);
    MissesBy(" minus ", "multiply ", 1, 1);
    MissesBy(" minus ", "divide ", 1, 1);
  }

  /** " minus " holds none of "times", "multiplied", "divided", "plus", "added". */
  lemma MinusConnectives()
    ensures Misses(" minus ", "times")
    ensures Misses(" minus ", "multiplied")
    ensures Misses(" minus ", "divided")
    ensures Misses(" minus ", "plus")
    ensures Misses(" minus ", "added")
  {
    MissesBy(" minus ", "times", 1, 1);
    MissesBy(" minus ", "multiplied", 1, 1);
    MissesBy(" minus ", "divided", 1, 1);
    MissesBy(" minus ", "plus", 1, 1);
    MissesBy(" minus ", "added", 1, 1);
  }

  /** " subtracted from " holds none of "add ", "subtract ". */
  lemma SubtractedFromLeads()
    ensures Spaced(" subtracted from ")
    ensures Misses(" subtracted from ", "add ")
    ensures Misses(" subtracted from ", "subtract ")
  {
    MissesBy(" subtracted from ", "add ", 1, 1);
    MissesBy(" subtracted from ", "subtract ", 8, 8);
  }

  /** " subtracted from " holds none of "multiply ", "divide ". */
  lemma SubtractedFromLeadsMore()
    ensures Misses(" subtracted from ", "multiply ")
    ensures Misses(" subtracted from ", "divide ")
  {
    MissesBy(" subtracted from ", "multiply ", 1, 1);
    MissesBy(" subtracted from ", "divide ", 1, 1);
  }

  /** " subtracted from " holds none of "times", "multiplied", "divided". */
  lemma SubtractedFromConnectives()
    ensures Misses(" subtracted from ", "times")
    ensures Misses(" subtracted from ", "multiplied")
    ensures Misses(" subtracted from ", "divided")
  {
    MissesBy(" subtracted from ", "times", 1, 1);
    MissesBy(" subtracted from ", "multiplied", 1, 1);
    MissesBy(" subtracted from ", "divided", 1, 1);
  }

  /** " subtracted from " holds none of "plus", "added". */
  lemma SubtractedFromConnectivesMore()
    ensures Misses(" subtracted from ", "plus")
    ensures Misses(" subtracted from ", "added")
  {
    MissesBy(" subtracted from ", "plus", 1, 1);
    MissesBy(" subtracted from ", "added", 1, 1);
  }

  lemma SubtractFromClear(a: string, b: string)
    requires IsNumeral(a) && IsNumeral(b)
    ensures var s := "subtract " + a + " from " + b; Silent(Add, s)
  {
    LeadWords();
    SubtractLeadLeads();
    FromLeads();
    SilentByLead(Add, "subtract ", a, " from ", b);
  }

  /** No rule before `Subtract` matches anywhere in a sentence written for `Subtract`. */
  lemma QuietSubtract(c: nat, a: string, b: string)
    requires c < |Subtract.Connectives()| && IsNumeral(a) && IsNumeral(b)
    ensures var s := Sentence(Subtract, c, a, b); Silent(Add, s)
  {
    SpelledSubtractFrom(a, b);
    SubtractFromClear(a, b);
  }

  lemma MultiplyAndClear(a: string, b: string)
    requires IsNumeral(a) && IsNumeral(b)
    ensures var s := "multiply " + a + " and " + b; Silent(Add, s) && Silent(Subtract, s)
  {
    LeadWords();
    MultiplyLeadLeads();
    AndLeads();
    SilentByLead(Add, "multiply ", a, " and ", b);
    SilentByLead(Subtract, "multiply ", a, " and ", b);
  }

  lemma MultiplyByClear(a: string, b: string)
    requires IsNumeral(a) && IsNumeral(b)
    ensures var s := "multiply " + a + " by " + b; Silent(Add, s) && Silent(Subtract, s)
  {
    LeadWords();
    MultiplyLeadLeads();
    ByLeads();
    SilentByLead(Add, "multiply ", a, " by ", b);
    SilentByLead(Subtract, "multiply ", a, " by ", b);
  }

  /** No rule before `Multiply` matches anywhere in a sentence written for `Multiply`. */
  lemma QuietMultiply(c: nat, a: string, b: string)
    requires c < |Multiply.Connectives()| && IsNumeral(a) && IsNumeral(b)
    ensures var s := Sentence(Multiply, c, a, b); Silent(Add, s) && Silent(Subtract, s)
  {
    if c == 0 {
      SpelledMultiplyAnd(a, b);
      MultiplyAndClear(a, b);
    } else {
      SpelledMultiplyBy(a, b);
      MultiplyByClear(a, b);
    }
  }

  lemma DivideByClear(a: string, b: string)
    requires IsNumeral(a) && IsNumeral(b)
    ensures var s := "divide " + a + " by " + b; Silent(Add, s) && Silent(Subtract, s) && Silent(Multiply, s)
  {
    LeadWords();
    DivideLeadLeads();
    ByLeads();
    SilentByLead(Add, "divide ", a, " by ", b);
    SilentByLead(Subtract, "divide ", a, " by ", b);
    SilentByLead(Multiply, "divide ", a, " by ", b);
  }

  /** No rule before `Divide` matches anywhere in a sentence written for `Divide`. */
  lemma QuietDivide(c: nat, a: string, b: string)
    requires c < |Divide.Connectives()| && IsNumeral(a) && IsNumeral(b)
    ensures var s := Sentence(Divide, c, a, b); Silent(Add, s) && Silent(Subtract, s) && Silent(Multiply, s)
  {
    SpelledDivideBy(a, b);
    DivideByClear(a, b);
  }

  lemma WhatTimesTimesClear(a: string, b: string)
    requires IsNumeral(a) && IsNumeral(b)
    ensures var s := "what is " + a + " times " + b; Silent(Add, s) && Silent(Subtract, s) && Silent(Multiply, s) && Silent(Divide, s)
  {
    LeadWords();
    WhatIsLeads();
    TimesLeads();
    SilentByLead(Add, "what is ", a, " times ", b);
    SilentByLead(Subtract, "what is ", a, " times ", b);
    SilentByLead(Multiply, "what is ", a, " times ", b);
    SilentByLead(Divide, "what is ", a, " times ", b);
  }

  lemma WhatTimesMultipliedByClear(a: string, b: string)
    requires IsNumeral(a) && IsNumeral(b)
    ensures var s := "what is " + a + " multiplied by " + b; Silent(Add, s) && Silent(Subtract, s) && Silent(Multiply, s) && Silent(Divide, s)
  {
    LeadWords();
    WhatIsLeads();
    MultipliedByLeads();
    MultipliedByLeadsMore();
    SilentByLead(Add, "what is ", a, " multiplied by ", b);
    SilentByLead(Subtract, "what is ", a, " multiplied by ", b);
    SilentByLead(Multiply, "what is ", a, " multiplied by ", b);
    SilentByLead(Divide, "what is ", a, " multiplied by ", b);
  }

  /** No rule before `WhatTimes` matches anywhere in a sentence written for `WhatTimes`. */
  lemma QuietWhatTimes(c: nat, a: string, b: string)
    requires c < |WhatTimes.Connectives()| && IsNumeral(a) && IsNumeral(b)
    ensures var s := Sentence(WhatTimes, c, a, b); Silent(Add, s) && Silent(Subtract, s) && Silent(Multiply, s) && Silent(Divide, s)
  {
    if c == 0 {
      SpelledWhatTimesTimes(a, b);
      WhatTimesTimesClear(a, b);
    } else {
      SpelledWhatTimesMultipliedBy(a, b);
      WhatTimesMultipliedByClear(a, b);
    }
  }

  lemma WhatDividedDividedByClear(a: string, b: string)
    requires IsNumeral(a) && IsNumeral(b)
    ensures var s := "what is " + a + " divided by " + b; Silent(Add, s) && Silent(Subtract, s) && Silent(Multiply, s) && Silent(Divide, s) && Silent(WhatTimes, s)
  {
    LeadWords();
    WhatIsLeads();
    DividedByLeads();
    DividedByLeadsMore();
    ConnectiveWords();
    WhatIsConnectives();
    DividedByConnectives();
    SilentByLead(Add, "what is ", a, " divided by ", b);
    SilentByLead(Subtract, "what is ", a, " divided by ", b);
    SilentByLead(Multiply, "what is ", a, " divided by ", b);
    SilentByLead(Divide, "what is ", a, " divided by ", b);
    SilentByConnective(WhatTimes, "what is ", a, " divided by ", b);
  }

  /** No rule before `WhatDivided` matches anywhere in a sentence written for `WhatDivided`. */
  lemma QuietWhatDivided(c: nat, a: string, b: string)
    requires c < |WhatDivided.Connectives()| && IsNumeral(a) && IsNumeral(b)
    ensures var s := Sentence(WhatDivided, c, a, b); Silent(Add, s) && Silent(Subtract, s) && Silent(Multiply, s) && Silent(Divide, s) && Silent(WhatTimes, s)
  {
    SpelledWhatDividedDividedBy(a, b);
    WhatDividedDividedByClear(a, b);
  }

  lemma WhatPlusPlusClear(a: string, b: string)
    requires IsNumeral(a) && IsNumeral(b)
    ensures var s := "what is " + a + " plus " + b; Silent(Add, s) && Silent(Subtract, s) && Silent(Multiply, s) && Silent(Divide, s) && Silent(WhatTimes, s) && Silent(WhatDivided, s)
  {
    LeadWords();
    WhatIsLeads();
    PlusLeads();
    ConnectiveWords();
    WhatIsConnectives();
    PlusConnectives();
    SilentByLead(Add, "what is ", a, " plus ", b);
    SilentByLead(Subtract, "what is ", a, " plus ", b);
    SilentByLead(Multiply, "what is ", a, " plus ", b);
    SilentByLead(Divide, "what is ", a, " plus ", b);
    SilentByConnective(WhatTimes, "what is ", a, " plus ", b);
    SilentByConnective(WhatDivided, "what is ", a, " plus ", b);
  }

  lemma WhatPlusAddedToClear(a: string, b: string)
    requires IsNumeral(a) && IsNumeral(b)
    ensures var s := "what is " + a + " added to " + b; Silent(Add, s) && Silent(Subtract, s) && Silent(Multiply, s) && Silent(Divide, s) && Silent(WhatTimes, s) && Silent(WhatDivided, s)
  {
    LeadWords();
    WhatIsLeads();
    AddedToLeads();
    AddedToLeadsMore();
    ConnectiveWords();
    WhatIsConnectives();
    AddedToConnectives();
    AddedToConnectivesMore();
    SilentByLead(Add, "what is ", a, " added to ", b);
    SilentByLead(Subtract, "what is ", a, " added to ", b);
    SilentByLead(Multiply, "what is ", a, " added to ", b);
    SilentByLead(Divide, "what is ", a, " added to ", b);
    SilentByConnective(WhatTimes, "what is ", a, " added to ", b);
    SilentByConnective(WhatDivided, "what is ", a, " added to ", b);
  }

  /** No rule before `WhatPlus` matches anywhere in a sentence written for `WhatPlus`. */
  lemma QuietWhatPlus(c: nat, a: string, b: string)
    requires c < |WhatPlus.Connectives()| && IsNumeral(a) && IsNumeral(b)
    ensures var s := Sentence(WhatPlus, c, a, b); Silent(Add, s) && Silent(Subtract, s) && Silent(Multiply, s) && Silent(Divide, s) && Silent(WhatTimes, s) && Silent(WhatDivided, s)
  {
    if c == 0 {
      SpelledWhatPlusPlus(a, b);
      WhatPlusPlusClear(a, b);
    } else {
      SpelledWhatPlusAddedTo(a, b);
      WhatPlusAddedToClear(a, b);
    }
  }

  lemma WhatMinusMinusClear(a: string, b: string)
    requires IsNumeral(a) && IsNumeral(b)
    ensures var s := "what is " + a + " minus " + b; Silent(Add, s) && Silent(Subtract, s) && Silent(Multiply, s) && Silent(Divide, s) && Silent(WhatTimes, s) && Silent(WhatDivided, s) && Silent(WhatPlus, s)
  {
    LeadWords();
    WhatIsLeads();
    MinusLeads();
    ConnectiveWords();
    WhatIsConnectives();
    MinusConnectives();
    SilentByLead(Add, "what is ", a, " minus ", b);
    SilentByLead(Subtract, "what is ", a, " minus ", b);
    SilentByLead(Multiply, "what is ", a, " minus ", b);
    SilentByLead(Divide, "what is ", a, " minus ", b);
    SilentByConnective(WhatTimes, "what is ", a, " minus ", b);
    SilentByConnective(WhatDivided, "what is ", a, " minus ", b);
    SilentByConnective(WhatPlus, "what is ", a, " minus ", b);
  }

  lemma WhatMinusSubtractedFromClear(a: string, b: string)
    requires IsNumeral(a) && IsNumeral(b)
    ensures var s := "what is " + a + " subtracted from " + b; Silent(Add, s) && Silent(Subtract, s) && Silent(Multiply, s) && Silent(Divide, s) && Silent(WhatTimes, s) && Silent(WhatDivided, s) && Silent(WhatPlus, s)
  {
    LeadWords();
    WhatIsLeads();
    SubtractedFromLeads();
    SubtractedFromLeadsMore();
    ConnectiveWords();
    WhatIsConnectives();
    SubtractedFromConnectives();
    SubtractedFromConnectivesMore();
    SilentByLead(Add, "what is ", a, " subtracted from ", b);
    SilentByLead(Subtract, "what is ", a, " subtracted from ", b);
    SilentByLead(Multiply, "what is ", a, " subtracted from ", b);
    SilentByLead(Divide, "what is ", a, " subtracted from ", b);
    SilentByConnective(WhatTimes, "what is ", a, " subtracted from ", b);
    SilentByConnective(WhatDivided, "what is ", a, " subtracted from ", b);
    SilentByConnective(WhatPlus, "what is ", a, " subtracted from ", b);
  }

  /** No rule before `WhatMinus` matches anywhere in a sentence written for `WhatMinus`. */
  lemma QuietWhatMinus(c: nat, a: string, b: string)
    requires c < |WhatMinus.Connectives()| && IsNumeral(a) && IsNumeral(b)
    ensures var s := Sentence(WhatMinus, c, a, b); Silent(Add, s) && Silent(Subtract, s) && Silent(Multiply, s) && Silent(Divide, s) && Silent(WhatTimes, s) && Silent(WhatDivided, s) && Silent(WhatPlus, s)
  {
    if c == 0 {
      SpelledWhatMinusMinus(a, b);
      WhatMinusMinusClear(a, b);
    } else {
      SpelledWhatMinusSubtractedFrom(a, b);
      WhatMinusSubtractedFromClear(a, b);
    }
  }
  lemma SpelledSubtractFrom(a: string, b: string)
    ensures Sentence(Subtract, 0, a, b) == "subtract " + a + " from " + b
  {
  }

  lemma SpelledMultiplyAnd(a: string, b: string)
    ensures Sentence(Multiply, 0, a, b) == "multiply " + a + " and " + b
  {
  }

  lemma SpelledMultiplyBy(a: string, b: string)
    ensures Sentence(Multiply, 1, a, b) == "multiply " + a + " by " + b
  {
  }

  lemma SpelledDivideBy(a: string, b: string)
    ensures Sentence(Divide, 0, a, b) == "divide " + a + " by " + b
  {
  }

  lemma SpelledWhatTimesTimes(a: string, b: string)
    ensures Sentence(WhatTimes, 0, a, b) == "what is " + a + " times " + b
  {
    SpokenPair("what", "is");
  }

  lemma SpelledWhatTimesMultipliedBy(a: string, b: string)
    ensures Sentence(WhatTimes, 1, a, b) == "what is " + a + " multiplied by " + b
  {
    SpokenPair("what", "is");
    SpokenPair("multiplied", "by");
  }

  lemma SpelledWhatDividedDividedBy(a: string, b: string)
    ensures Sentence(WhatDivided, 0, a, b) == "what is " + a + " divided by " + b
  {
    SpokenPair("what", "is");
    SpokenPair("divided", "by");
  }

  lemma SpelledWhatPlusPlus(a: string, b: string)
    ensures Sentence(WhatPlus, 0, a, b) == "what is " + a + " plus " + b
  {
    SpokenPair("what", "is");
  }

  lemma SpelledWhatPlusAddedTo(a: string, b: string)
    ensures Sentence(WhatPlus, 1, a, b) == "what is " + a + " added to " + b
  {
    SpokenPair("what", "is");
    SpokenPair("added", "to");
  }

  lemma SpelledWhatMinusMinus(a: string, b: string)
    ensures Sentence(WhatMinus, 0, a, b) == "what is " + a + " minus " + b
  {
    SpokenPair("what", "is");
  }

  lemma SpelledWhatMinusSubtractedFrom(a: string, b: string)
    ensures Sentence(WhatMinus, 1, a, b) == "what is " + a + " subtracted from " + b
  {
    SpokenPair("what", "is");
    SpokenPair("subtracted", "from");
  }
}
