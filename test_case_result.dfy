/**
 The outcome of one test case (atf::test_case_result, libatf/test_case_result.hpp).

 A result is an immutable value: a status and a reason. Its constructor is
 private, so the only way to obtain one is through the static factories
 Passed, Skipped, SkippedAt, Failed and FailedAt. The predicate Valid states
 what those factories establish; the subset type ValidResult, which every
 factory returns, holds exactly the values that satisfy it, and the lemmas
 below show that these are exactly the factory outputs.
 */
module Outcome {

  /** The three ways a test case can end (status_passed, status_skipped, status_failed). */
  datatype Status = StatusPassed | StatusSkipped | StatusFailed

  /**
   How the line-number overloads fold a line number and a message into one
   reason string. The library's own format is not part of this model, so the
   overloads receive it as a parameter.
   */
  type LineFormat = (nat, string) -> string

  /** The values a client can hold: the results that the factories build. */
  type ValidResult = t: TestCaseResult | t.Valid() witness TestCaseResult(StatusPassed, "")

  /**
   The two private fields m_status and m_reason. The datatype constructor
   plays the part of the private two-argument constructor: clients receive
   ValidResult values from the factories only.
   */
  datatype TestCaseResult = TestCaseResult(status: Status, reason: string)
  {
    /** passed(): a passed result carries no reason. */
    static function Passed(): (t: ValidResult)
      ensures t.status == StatusPassed
      ensures t.reason == ""
    {
      TestCaseResult(StatusPassed, "")
    }

    /** skipped(reason): the reason is kept verbatim. */
    static function Skipped(reason: string): (t: ValidResult)
      ensures t.status == StatusSkipped
      ensures t.reason == reason
    {
      TestCaseResult(StatusSkipped, reason)
    }

    /** skipped(line, reason): the line is folded into the reason, not kept apart. */
    static function SkippedAt(format: LineFormat, line: nat, reason: string): (t: ValidResult)
      ensures t.status == Skipped(reason).status
      ensures t == Skipped(format(line, reason))
    {
      TestCaseResult(StatusSkipped, format(line, reason))
    }

    /** failed(reason): the reason is kept verbatim. */
    static function Failed(reason: string): (t: ValidResult)
      ensures t.status == StatusFailed
      ensures t.reason == reason
    {
      TestCaseResult(StatusFailed, reason)
    }

    /** failed(line, reason): the line is folded into the reason, not kept apart. */
    static function FailedAt(format: LineFormat, line: nat, reason: string): (t: ValidResult)
      ensures t.status == Failed(reason).status
      ensures t == Failed(format(line, reason))
    {
      TestCaseResult(StatusFailed, format(line, reason))
    }

    /** get_status(): tells which factory built a valid result. */
    function GetStatus(): (s: Status)
      ensures Valid() ==> (s == StatusPassed <==> this == Passed())
      ensures s == StatusSkipped <==> this == Skipped(reason)
      ensures s == StatusFailed <==> this == Failed(reason)
    {
      status
    }

    /** get_reason(): the reason the factory was given, empty for a passed result. */
    function GetReason(): (r: string)
      ensures Valid() && status == StatusPassed ==> r == ""
      ensures forall x :: this == Skipped(x) ==> r == x
      ensures forall x :: this == Failed(x) ==> r == x
    {
      reason
    }

    /** What every factory establishes: a passed result has an empty reason. */
    predicate Valid()
    {
      status == StatusPassed ==> reason == ""
    }
  }

  /**
   Because the constructor is private, every result a client holds came from
   a factory: each ValidResult is Passed(), or Skipped or Failed of its own
   reason.
   */
  lemma EveryResultIsBuiltByFactory(t: ValidResult)
    ensures t == TestCaseResult.Passed() ||
            t == TestCaseResult.Skipped(t.GetReason()) ||
            t == TestCaseResult.Failed(t.GetReason())
  {
    ValidMeansBuiltByFactory(t);
  }

  /** Every factory builds a valid result. */
  lemma FactoriesAreValid(format: LineFormat, line: nat, reason: string)
    ensures TestCaseResult.Passed().Valid()
    ensures TestCaseResult.Skipped(reason).Valid()
    ensures TestCaseResult.SkippedAt(format, line, reason).Valid()
    ensures TestCaseResult.Failed(reason).Valid()
    ensures TestCaseResult.FailedAt(format, line, reason).Valid()
  {
  }

  /**
   The invariant Valid singles out exactly the factory outputs: a pair of
   fields is valid exactly when one of the one-argument factories, fed its
   own reason, rebuilds it.
   */
  lemma ValidMeansBuiltByFactory(t: TestCaseResult)
    ensures t.Valid() <==>
      (t == TestCaseResult.Passed() ||
       t == TestCaseResult.Skipped(t.GetReason()) ||
       t == TestCaseResult.Failed(t.GetReason()))
  {
  }

  /**
   The status and the reason determine a result completely: there is no
   hidden line-number field behind the accessors.
   */
  lemma AccessorsDetermineResult(t: TestCaseResult, u: TestCaseResult)
    ensures t == u <==> (t.GetStatus() == u.GetStatus() && t.GetReason() == u.GetReason())
  {
  }

  /**
   Results built by different factories are different, and the
   reason-taking factories lose nothing of their argument.
   */
  lemma FactoriesAreDistinctAndInjective(r1: string, r2: string)
    ensures TestCaseResult.Passed() != TestCaseResult.Skipped(r1)
    ensures TestCaseResult.Passed() != TestCaseResult.Failed(r1)
    ensures TestCaseResult.Skipped(r1) != TestCaseResult.Failed(r2)
    ensures TestCaseResult.Skipped(r1) == TestCaseResult.Skipped(r2) <==> r1 == r2
    ensures TestCaseResult.Failed(r1) == TestCaseResult.Failed(r2) <==> r1 == r2
  {
  }

  /**
   The line-number overloads keep the status of their one-argument
   counterparts, and their reason depends on nothing but the line and the
   message: two calls with the same arguments give the same result.
   */
  lemma LineOverloadsKeepStatus(format: LineFormat, line: nat, reason: string, other: string)
    ensures TestCaseResult.SkippedAt(format, line, reason).GetStatus() == StatusSkipped
    ensures TestCaseResult.FailedAt(format, line, reason).GetStatus() == StatusFailed
    ensures TestCaseResult.SkippedAt(format, line, reason).GetReason() ==
            TestCaseResult.FailedAt(format, line, reason).GetReason()
    ensures TestCaseResult.SkippedAt(format, line, reason) != TestCaseResult.FailedAt(format, line, other)
  {
  }
}
