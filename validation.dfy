/** `CodeEvaluator.validate_code` with the execution abstracted: what running
    the candidate program did is given as an `Outcome`, and this module maps
    it to the `(passed, message)` pair the evaluator returns. */
module Validation {

  /** The classes of exception the handlers distinguish. All three derive
      from Python's `Exception`; `TimeoutError` is what the alarm raises. */
  datatype ExceptionClass = AssertionError | TimeoutError | OtherError

  /** A raised exception: its class and `str(error)`. */
  datatype PyException = PyException(cls: ExceptionClass, text: string)

  /** What executing the program did: it ran to the end, or it raised. */
  datatype Outcome = Completed | Raised(error: PyException)

  /** The exception `timeout_handler` raises when the ten-second alarm fires. */
  const AlarmTimeout: PyException := PyException(TimeoutError, "Execution timed out!")

  /** The `except` clauses of `validate_code`. */
  datatype Handler = ExceptAssertionError | ExceptException | ExceptTimeoutError

  /** The clauses in the order they are written, and thus tried. */
  const Handlers: seq<Handler> := [ExceptAssertionError, ExceptException, ExceptTimeoutError]

  /** Python's `isinstance` test of an `except` clause. */
  predicate Catches(h: Handler, c: ExceptionClass)
  {
    match h
    case ExceptAssertionError => c == AssertionError
    case ExceptException => true
    case ExceptTimeoutError => c == TimeoutError
  }

  /** The index of the first clause that catches `c`, or `|hs|` when none does. */
  function FirstHandler(hs: seq<Handler>, c: ExceptionClass): (k: nat)
    ensures k <= |hs|
    ensures k < |hs| ==> Catches(hs[k], c)
    ensures forall j :: 0 <= j < k ==> !Catches(hs[j], c)
  {
    if hs == [] then 0
    else if Catches(hs[0], c) then 0
    else 1 + FirstHandler(hs[1..], c)
  }

  /** The message returned for a failed assertion: it quotes the test. */
  function LogicalError(test: string): string
  {
    "There is a logical error in the code. TEST: " + test + " FAILED"
  }

  /** The body of the clause at index `k` of `Handlers`. */
  function ClauseResult(k: nat, e: PyException, test: string): (int, string)
  {
    if k == 0 then (0, LogicalError(test))
    else if k == 1 then (0, "ERROR: " + e.text)
    else (0, "FAILED: " + e.text)
  }

  /** The `(passed, message)` pair for an outcome: `(1, "PASSED")` exactly when
      nothing was raised, the logical-error message naming the test for an
      `AssertionError`, and `"ERROR: "` with the exception's text for every
      other exception, the alarm's `TimeoutError` included. */
  function Feedback(outcome: Outcome, test: string): (r: (int, string))
    ensures r.0 == 1 <==> outcome.Completed?
    ensures r.0 == 0 || r.0 == 1
    ensures outcome.Completed? ==> r.1 == "PASSED"
    ensures outcome.Raised? && outcome.error.cls == AssertionError ==> r.1 == LogicalError(test)
    ensures outcome.Raised? && outcome.error.cls != AssertionError ==> r.1 == "ERROR: " + outcome.error.text
  {
    match outcome
    case Completed => (1, "PASSED")
    case Raised(e) => ClauseResult(FirstHandler(Handlers, e.cls), e, test)
  }

  /** `except Exception` comes before `except TimeoutError` and catches every
      class, so the last clause is never selected. */
  lemma TimeoutClauseUnreachable(c: ExceptionClass)
    ensures FirstHandler(Handlers, c) <= 1
    ensures c == TimeoutError ==> FirstHandler(Handlers, c) == 1
  {
    assert Catches(Handlers[1], c);
  }

  /** A timed-out run is reported as `"ERROR: Execution timed out!"`, never with
      the `"FAILED: "` prefix of the last clause. */
  lemma TimeoutFeedback(test: string)
    ensures Feedback(Raised(AlarmTimeout), test) == (0, "ERROR: Execution timed out!")
  {
    assert "ERROR: " + AlarmTimeout.text == "ERROR: Execution timed out!";
  }

  /** `validate_code(code, test, shots)`: the program run is `code`, a blank
      line and `test`, and `execute` stands for `exec` under the alarm. The
      round label `shots` only chooses where progress is printed. */
  function ValidateCode(code: string, test: string, shots: nat, execute: string -> Outcome): (r: (int, string))
    ensures r.0 == 1 <==> execute(code + "\n\n" + test) == Completed
    ensures r.0 == 0 ==> r.1 != "PASSED"
  {
    Feedback(execute(code + "\n\n" + test), test)
  }
}
