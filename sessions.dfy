/** The shape shared by the chat loops of Level-1/chatbot-1.py and
    Level-2/chatbot-2.py: read a line, stop on an exit command, otherwise
    answer it and append one entry to the session log. */
module Sessions {
  /** The entries a run over `turns` adds: one per turn, up to the first one that `exits` holds for. */
  function Transcript<T, R>(turns: seq<T>, exits: T -> bool, entry: T -> R): seq<R> {
    if turns == [] || exits(turns[0]) then []
    else [entry(turns[0])] + Transcript(turns[1..], exits, entry)
  }

  /** Some turn is an exit command. */
  predicate Stops<T>(turns: seq<T>, exits: T -> bool) {
    exists i :: 0 <= i < |turns| && exits(turns[i])
  }

  /** The transcript holds one entry for each turn before the first exit
      command, in order; the turn after the last entry, if any, is that exit
      command, and there is one exactly when some turn is an exit command. */
  lemma {:induction false} TranscriptShape<T, R>(turns: seq<T>, exits: T -> bool, entry: T -> R)
    ensures var log := Transcript(turns, exits, entry);
      |log| <= |turns| && (|log| < |turns| <==> Stops(turns, exits)) && (|log| < |turns| ==> exits(turns[|log|]))
    ensures forall i :: 0 <= i < |Transcript(turns, exits, entry)| ==>
      !exits(turns[i]) && Transcript(turns, exits, entry)[i] == entry(turns[i])
  {
    if turns != [] && !exits(turns[0]) {
      var rest := turns[1..];
      TranscriptShape(rest, exits, entry);
      assert forall i :: 1 <= i < |turns| ==> turns[i] == rest[i - 1];
      if Stops(rest, exits) {
        var i :| 0 <= i < |rest| && exits(rest[i]);
        assert exits(turns[i + 1]);
      }
      if Stops(turns, exits) {
        var i :| 0 <= i < |turns| && exits(turns[i]);
        assert exits(rest[i - 1]);
      }
    }
  }

  /** One more turn: an exit command ends the transcript, any other line adds its entry. */
  lemma TranscriptStep<T, R>(turns: seq<T>, i: nat, exits: T -> bool, entry: T -> R)
    requires i < |turns|
    ensures Transcript(turns[i..], exits, entry) ==
      if exits(turns[i]) then [] else [entry(turns[i])] + Transcript(turns[i + 1..], exits, entry)
  {
    assert turns[i..][1..] == turns[i + 1..];
  }

  /** A turn that is not an exit command moves its entry from the rest of the transcript to the log. */
  lemma Appended<T, R>(log: seq<R>, turns: seq<T>, i: nat, exits: T -> bool, entry: T -> R)
    requires i < |turns| && !exits(turns[i])
    ensures log + Transcript(turns[i..], exits, entry) == (log + [entry(turns[i])]) + Transcript(turns[i + 1..], exits, entry)
  {
    TranscriptStep(turns, i, exits, entry);
  }

  /** An exit command ends the transcript. */
  lemma Ended<T, R>(turns: seq<T>, i: nat, exits: T -> bool, entry: T -> R)
    requires i < |turns| && exits(turns[i])
    ensures Transcript(turns[i..], exits, entry) == []
  {
    TranscriptStep(turns, i, exits, entry);
  }

  /** Once the turns run out, nothing more is added. */
  lemma TranscriptEnd<T, R>(turns: seq<T>, exits: T -> bool, entry: T -> R)
    ensures Transcript(turns[|turns|..], exits, entry) == []
  {
    assert turns[|turns|..] == [];
  }

  /** With no exit command among the first `i` turns, the rest decides whether the run stops. */
  lemma StopsFrom<T>(turns: seq<T>, i: nat, exits: T -> bool)
    requires i <= |turns| && !Stops(turns[..i], exits)
    ensures Stops(turns, exits) <==> Stops(turns[i..], exits)
  {
    if Stops(turns, exits) {
      var j :| 0 <= j < |turns| && exits(turns[j]);
      if j >= i {
        assert turns[i..][j - i] == turns[j];
      }
    }
    if Stops(turns[i..], exits) {
      var j :| 0 <= j < |turns[i..]| && exits(turns[i..][j]);
      assert turns[i + j] == turns[i..][j];
    }
  }

  /** One more turn that is not an exit command. */
  lemma StopsExtend<T>(turns: seq<T>, i: nat, exits: T -> bool)
    requires i < |turns| && !Stops(turns[..i], exits) && !exits(turns[i])
    ensures !Stops(turns[..i + 1], exits)
  {
    assert turns[..i + 1] == turns[..i] + [turns[i]];
  }
}
