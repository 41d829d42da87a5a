/** The plain chatbot of Level-1/chatbot-1.py: every line the user types,
    except an exit command, goes to the language model, and the turn is
    logged with an event read off the answer. */
module ChatbotLevel1 {
  import opened Wrappers
  import opened Text
  import opened Gemini
  import Sessions

  /** The only tool this chatbot uses. */
  const Tools: seq<string> := ["LLM (Gemini)"]

  /** One entry of the session log. */
  datatype Record = Record(timestamp: string, user: string, bot: string, toolsUsed: seq<string>, event: Event)

  /** The loop stops on "exit" or "quit" in any letter case; the line is not
      stripped, so whitespace around the command keeps the loop going. */
  predicate Exits(line: string) {
    Lower(line) == "exit" || Lower(line) == "quit"
  }

  /** Whether a turn is an exit command. */
  function Quits(t: Turn): bool {
    Exits(t.line)
  }

  /** The answer of a turn: the model's reply with its bold markers removed,
      or the error text of a failed call. */
  function Answer(t: Turn): string {
    Ask(t.reply, ChatbotFailure)
  }

  /** The log entry of a turn that is not an exit command. */
  function Entry(t: Turn): Record {
    var answer := Answer(t);
    Record(t.timestamp, t.line, answer, Tools, Tag(answer))
  }

  /** The chatbot's state: the session log, and what was written to the log
      file, which happens only when the user exits. */
  class Chatbot {
    var log: seq<Record>
    var saved: Option<seq<Record>>

    constructor ()
      ensures log == [] && saved == None
    {
      log := [];
      saved := None;
    }

    /** One pass of the main loop. */
    method Turn(t: Turn) returns (done: bool)
      modifies this
      ensures done == Quits(t)
      ensures done ==> log == old(log) && saved == Some(old(log))
      ensures !done ==> log == old(log) + [Entry(t)] && saved == old(saved)
    {
      if Lower(t.line) == "exit" || Lower(t.line) == "quit" {
        saved := Some(log);
        return true;
      }
      var answer := Ask(t.reply, ChatbotFailure);
      var event: Event;
      if Contains(Lower(answer), "calculator tool") {
        event := MathRefused;
      } else if StartsWith(answer, ErrorPrefix) {
        event := ErrorOccurred;
      } else {
        event := QueryAnswered;
      }
      log := log + [Record(t.timestamp, t.line, answer, Tools, event)];
      return false;
    }

    /** The main loop over the lines the user types, until an exit command
        or the end of the input. */
    method Run(turns: seq<Turn>) returns (stopped: bool)
      modifies this
      ensures stopped == Sessions.Stops(turns, Quits)
      ensures log == old(log) + Sessions.Transcript(turns, Quits, Entry)
      ensures saved == if stopped then Some(log) else old(saved)
    {
      var i := 0;
      while i < |turns|
        invariant 0 <= i <= |turns|
        invariant !Sessions.Stops(turns[..i], Quits)
        invariant old(log) + Sessions.Transcript(turns, Quits, Entry) == log + Sessions.Transcript(turns[i..], Quits, Entry)
        invariant saved == old(saved)
      {
        ghost var before := log;
        var done := Turn(turns[i]);
        if done {
          Sessions.Ended(turns, i, Quits, Entry);
          Sessions.StopsFrom(turns, i, Quits);
          return true;
        }
        Sessions.Appended(before, turns, i, Quits, Entry);
        Sessions.StopsExtend(turns, i, Quits);
        i := i + 1;
      }
      Sessions.TranscriptEnd(turns, Quits, Entry);
      Sessions.StopsFrom(turns, i, Quits);
      return false;
    }
  }

  /** A run logs one record for each line before the first exit command, in
      order: the line as typed, the answer of the model to it, the model as
      the only tool, and the event read off the answer. */
  lemma SessionRecords(turns: seq<Turn>)
    ensures var log := Sessions.Transcript(turns, Quits, Entry);
      |log| <= |turns| && (|log| < |turns| <==> Sessions.Stops(turns, Quits)) && (|log| < |turns| ==> Exits(turns[|log|].line))
    ensures var log := Sessions.Transcript(turns, Quits, Entry);
      forall i :: 0 <= i < |log| ==>
        (!Exits(turns[i].line) && log[i].user == turns[i].line && log[i].toolsUsed == Tools &&
         log[i].bot == Ask(turns[i].reply, ChatbotFailure) && log[i].event == Tag(log[i].bot))
  {
    Sessions.TranscriptShape(turns, Quits, Entry);
  }

  /** The exit command is matched in any letter case but without surrounding whitespace. */
  lemma ExitCommands()
    ensures Exits("exit") && Exits("Quit") && Exits("EXIT")
  {
  }

  /** Whitespace around the command keeps the loop going. */
  lemma PaddedCommands()
    ensures !Exits(" exit") && !Exits("exit ") && !Exits("exit\n")
  {
    assert Lower(" exit")[0] == ' ';
    assert Lower("exit ")[4] == ' ';
    assert Lower("exit\n")[4] == '\n';
  }

  /** A failed call to the model is logged as an error, unless the error
      text mentions the calculator tool. */
  lemma FailedTurn(t: Turn)
    requires t.reply.Failed? && !Quits(t)
    ensures Entry(t).event == if Contains(Lower(ChatbotFailure + t.reply.details), "calculator tool") then MathRefused else ErrorOccurred
    ensures StartsWith(Entry(t).bot, ErrorPrefix)
  {
    FailurePrefixes();
    FailureTagged(t.reply.details, ChatbotFailure);
    assert (ChatbotFailure + t.reply.details)[..|ErrorPrefix|] == ChatbotFailure[..|ErrorPrefix|];
  }

  /** Every line that ends this chatbot also ends the calculator chatbot of
      Level 2, which strips the line first; the converse fails. */
  lemma ExitsStripped(line: string)
    requires Exits(line)
    ensures Lower(Strip(line)) == Lower(line)
  {
    assert |line| == 4;
    assert !IsSpace(line[0]) by { assert LowerChar(line[0]) == Lower(line)[0]; }
    assert !IsSpace(line[3]) by { assert LowerChar(line[3]) == Lower(line)[3]; }
    StripPadded([], line, []);
    assert [] + line + [] == line;
  }
}
