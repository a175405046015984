/**
 * Minitest's `assert` and `assert_equal`, as the test cases use them: every
 * assertion that runs adds one to the `assertions` counter, and the first one
 * whose test is false raises, which ends the test case.
 */
module Assertions {
  /** Which assertion of a test case failed (the index is the stream position). */
  datatype Check =
    | InvalidResponse
    | WrongLength
    | InvalidContent
    | WrongAggregateSize
    | TooManyResponses(index: nat)
    | WrongPayloadType(index: nat)
    | WrongBodyLength(index: nat)

  /** The checks of the stream loop, which carry the stream position. */
  predicate IsStreamCheck(c: Check)
  {
    c.TooManyResponses? || c.WrongPayloadType? || c.WrongBodyLength?
  }

  datatype Outcome = Pass | Fail(failed: Check)

  /** A test case so far: its outcome and how many assertions it has run. */
  datatype Run = Run(outcome: Outcome, assertions: nat)

  const Start := Run(Pass, 0)

  /** One more assertion; after a failure nothing runs any more. */
  function AssertStep(run: Run, test: bool, check: Check): Run
  {
    if run.outcome.Fail? then run
    else Run(if test then Pass else Fail(check), run.assertions + 1)
  }
}
