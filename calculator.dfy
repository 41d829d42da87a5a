/** The calculator tool of Level-2/calculator_tool.py: a character whitelist
    guards an evaluator. Python's `eval` followed by `round(…, 4)` is not
    modelled; it is a parameter that either yields the printed value of the
    result or fails with the text of the exception it raised. */
module Calculator {
  import opened Text

  /** The characters an expression may contain. */
  const Allowed: string := "0123456789+-*/(). "

  const InvalidCharacters: string := "Expression contains invalid characters."

  /** What the evaluator does with an expression. */
  datatype Evaluation = Value(shown: string) | Raised(reason: string)

  /** What the tool does: return a value or raise a `ValueError` with a message. */
  datatype Outcome = Returned(shown: string) | ValueError(message: string)

  predicate Whitelisted(e: string) {
    forall k :: 0 <= k < |e| ==> e[k] in Allowed
  }

  /** The message of the error that wraps a failed evaluation. */
  function Invalid(e: string, reason: string): (m: string)
    ensures StartsWith(m, "Invalid expression: " + e)
    ensures m != InvalidCharacters
  {
    assert ("Invalid expression: " + e + ". Error: " + reason)[0] == 'I';
    "Invalid expression: " + e + ". Error: " + reason
  }

  /** `calculator(expression)`: rejected characters raise before anything is
      evaluated; an evaluation that fails is wrapped in a `ValueError`. */
  function Calculate(evaluate: string -> Evaluation, e: string): (r: Outcome)
    ensures !Whitelisted(e) <==> r == ValueError(InvalidCharacters)
    ensures Whitelisted(e) && evaluate(e).Value? ==> r == Returned(evaluate(e).shown)
    ensures Whitelisted(e) && evaluate(e).Raised? ==> r.ValueError? && StartsWith(r.message, "Invalid expression: " + e)
  {
    if !Whitelisted(e) then ValueError(InvalidCharacters)
    else match evaluate(e)
      case Value(shown) => Returned(shown)
      case Raised(reason) => ValueError(Invalid(e, reason))
  }

  /** A rejected expression is never evaluated: the outcome is the same
      whatever the evaluator would have done with it. */
  lemma RejectedNotEvaluated(f: string -> Evaluation, g: string -> Evaluation, e: string)
    requires !Whitelisted(e)
    ensures Calculate(f, e) == Calculate(g, e) == ValueError(InvalidCharacters)
  {
  }

  /** The whitelist holds exactly for the strings made of digits, the four
      operators, parentheses, the point and the plain space. */
  lemma WhitelistedChars(e: string)
    ensures Whitelisted(e) <==> forall k :: 0 <= k < |e| ==>
      IsDigit(e[k]) || e[k] in "+-*/(). "
  {
    assert forall c: char :: c in Allowed <==> IsDigit(c) || c in "+-*/(). " by {
      forall c: char
        ensures c in Allowed <==> IsDigit(c) || c in "+-*/(). "
      {
        assert Allowed == "0123456789" + "+-*/(). ";
      }
    }
  }

  /** The plain space is the only whitespace the whitelist lets through. */
  lemma OnlyPlainSpace(e: string, k: nat)
    requires Whitelisted(e) && k < |e| && IsSpace(e[k])
    ensures e[k] == ' '
  {
    assert e[k] in Allowed;
  }

  /** An expression with a tab or a newline is rejected. */
  lemma TabAndNewlineRejected(f: string -> Evaluation, e: string, k: nat)
    requires k < |e| && (e[k] == '\t' || e[k] == '\n')
    ensures Calculate(f, e) == ValueError(InvalidCharacters)
  {
    assert e[k] !in Allowed;
  }

  /** The empty expression passes the whitelist and is handed to the evaluator. */
  lemma EmptyEvaluated(f: string -> Evaluation)
    ensures Calculate(f, "") == match f("")
      case Value(shown) => Returned(shown)
      case Raised(reason) => ValueError(Invalid("", reason))
  {
  }
}
