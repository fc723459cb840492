/**
 * The judging rule of `submitCode`: test cases are run in stored order, each
 * response is classified, and the first failing case decides the verdict and
 * ends the run. The remote executor is replaced by the responses it gives,
 * in call order; a call for which there is no response fails as a network
 * error would.
 */
module Judging {
  import opened Wrappers
  import opened JsString

  /** The values the `status` column takes. */
  datatype Status = Pending | Accepted | WrongAnswer | RuntimeError

  /** The text stored in the `status` column. */
  function StatusText(s: Status): string
  {
    match s
    case Pending => "Pending"
    case Accepted => "Accepted"
    case WrongAnswer => "Wrong Answer"
    case RuntimeError => "Runtime Error"
  }

  /**
   * The stored texts are pairwise distinct, so the text determines the status,
   * and `Pending` is the only one that is not a verdict.
   */
  lemma StatusTextDistinct(s: Status, t: Status)
    ensures StatusText(s) == StatusText(t) <==> s == t
    ensures s != Pending <==> StatusText(s) in {"Accepted", "Wrong Answer", "Runtime Error"}
  {
  }

  /** A stored test case. */
  datatype TestCase = TestCase(id: int, input: string, output: string)

  /**
   * One executor call: `Ok` is a response whose `run` carries `stdout` and an
   * exit `code` that may be null; `Fail` is a call that threw (network error,
   * error status, or a response without a `run`).
   */
  datatype Outcome = Ok(stdout: string, exitCode: Option<int>) | Fail

  /** The response to the `k`-th call. */
  function Response(responses: seq<Outcome>, k: nat): Outcome
  {
    if k < |responses| then responses[k] else Fail
  }

  /**
   * How one case fares: `None` when it passes, otherwise the verdict it gives.
   * A non-zero or null exit code is a runtime error before any output is
   * compared; otherwise the trimmed outputs must be equal.
   */
  function CaseFailure(o: Outcome, expected: string): Option<Status>
  {
    match o
    case Fail => Some(RuntimeError)
    case Ok(stdout, exitCode) =>
      if exitCode != Some(0) then Some(RuntimeError)
      else if Trim(stdout) != Trim(expected) then Some(WrongAnswer)
      else None
  }

  predicate Passes(tests: seq<TestCase>, responses: seq<Outcome>, k: nat)
    requires k < |tests|
  {
    CaseFailure(Response(responses, k), tests[k].output).None?
  }

  /** The verdict and the number of executor calls made. */
  datatype Run = Run(status: Status, calls: nat)

  /** The judge loop from case `i` on, the cases before `i` having passed. */
  function JudgeFrom(tests: seq<TestCase>, responses: seq<Outcome>, i: nat): (r: Run)
    requires i <= |tests|
    ensures i <= r.calls <= |tests|
    ensures r.status != Pending
    decreases |tests| - i
  {
    if i == |tests| then Run(Accepted, i)
    else
      var failure := CaseFailure(Response(responses, i), tests[i].output);
      if failure.Some? then Run(failure.value, i + 1) else JudgeFrom(tests, responses, i + 1)
  }

  function Judge(tests: seq<TestCase>, responses: seq<Outcome>): Run
  {
    JudgeFrom(tests, responses, 0)
  }

  /**
   * The text a run leaves in the `status` column and sends back is one of the
   * three verdict texts, never "Pending".
   */
  lemma JudgeStatusText(tests: seq<TestCase>, responses: seq<Outcome>)
    ensures StatusText(Judge(tests, responses).status) in {"Accepted", "Wrong Answer", "Runtime Error"}
    ensures StatusText(Judge(tests, responses).status) != "Pending"
  {
  }

  /** A run from `i` that ends accepted ran every remaining case, and each of them passed. */
  lemma {:induction false} JudgeFromAccepted(tests: seq<TestCase>, responses: seq<Outcome>, i: nat)
    requires i <= |tests|
    requires JudgeFrom(tests, responses, i).status == Accepted
    ensures JudgeFrom(tests, responses, i).calls == |tests|
    ensures forall k :: i <= k < |tests| ==> Passes(tests, responses, k)
    decreases |tests| - i
  {
    if i < |tests| {
      var failure := CaseFailure(Response(responses, i), tests[i].output);
      if failure.None? {
        JudgeFromAccepted(tests, responses, i + 1);
      }
    }
  }

  /** The run from `i` reaches the first failing case `f` when everything between passes. */
  lemma {:induction false} JudgeFromReaches(tests: seq<TestCase>, responses: seq<Outcome>, i: nat, f: nat)
    requires i <= f <= |tests|
    requires forall k :: i <= k < f ==> Passes(tests, responses, k)
    ensures JudgeFrom(tests, responses, i) == JudgeFrom(tests, responses, f)
    decreases f - i
  {
    if i < f {
      assert Passes(tests, responses, i);
      JudgeFromReaches(tests, responses, i + 1, f);
    }
  }

  /**
   * Accepted exactly when every case passes, that is every call returns exit
   * code 0 and stdout equal to the expected output once both are trimmed; then
   * every case has been run. An empty list of test cases is accepted.
   */
  lemma AcceptedIffAllPass(tests: seq<TestCase>, responses: seq<Outcome>)
    ensures Judge(tests, responses).status == Accepted <==>
            forall k :: 0 <= k < |tests| ==> Passes(tests, responses, k)
    ensures Judge(tests, responses).status == Accepted ==> Judge(tests, responses).calls == |tests|
    ensures tests == [] ==> Judge(tests, responses) == Run(Accepted, 0)
  {
    if forall k :: 0 <= k < |tests| ==> Passes(tests, responses, k) {
      JudgeFromReaches(tests, responses, 0, |tests|);
    }
    if Judge(tests, responses).status == Accepted {
      JudgeFromAccepted(tests, responses, 0);
    }
  }

  /**
   * The first failing case `f` decides: the verdict is the one that case gives
   * and the executor has been called for cases `0..f` only.
   */
  lemma FirstFailureDecides(tests: seq<TestCase>, responses: seq<Outcome>, f: nat)
    requires f < |tests|
    requires forall k :: 0 <= k < f ==> Passes(tests, responses, k)
    requires !Passes(tests, responses, f)
    ensures Some(Judge(tests, responses).status) == CaseFailure(Response(responses, f), tests[f].output)
    ensures Judge(tests, responses).calls == f + 1
  {
    JudgeFromReaches(tests, responses, 0, f);
  }

  /**
   * A first failing case whose exit code is not 0 (null included) is a runtime
   * error, whatever it printed: its stdout is never compared.
   */
  lemma ExitCodeIsRuntimeError(tests: seq<TestCase>, responses: seq<Outcome>, f: nat, otherStdout: string)
    requires f < |tests| && f < |responses|
    requires forall k :: 0 <= k < f ==> Passes(tests, responses, k)
    requires responses[f].Ok? && responses[f].exitCode != Some(0)
    ensures Judge(tests, responses) == Run(RuntimeError, f + 1)
    ensures Judge(tests, responses[f := Ok(otherStdout, responses[f].exitCode)]) == Run(RuntimeError, f + 1)
  {
    var changed := responses[f := Ok(otherStdout, responses[f].exitCode)];
    FirstFailureDecides(tests, responses, f);
    forall k | 0 <= k < f ensures Passes(tests, changed, k) {
      assert Response(changed, k) == Response(responses, k);
      assert Passes(tests, responses, k);
    }
    FirstFailureDecides(tests, changed, f);
  }

  /** A first failing case with exit code 0 failed on its output: wrong answer. */
  lemma MismatchIsWrongAnswer(tests: seq<TestCase>, responses: seq<Outcome>, f: nat)
    requires f < |tests| && f < |responses|
    requires forall k :: 0 <= k < f ==> Passes(tests, responses, k)
    requires responses[f].Ok? && responses[f].exitCode == Some(0)
    requires Trim(responses[f].stdout) != Trim(tests[f].output)
    ensures Judge(tests, responses) == Run(WrongAnswer, f + 1)
  {
    FirstFailureDecides(tests, responses, f);
  }

  /** An executor call that fails ends the run with a runtime error. */
  lemma ExecutorFailureIsRuntimeError(tests: seq<TestCase>, responses: seq<Outcome>, f: nat)
    requires f < |tests|
    requires forall k :: 0 <= k < f ==> Passes(tests, responses, k)
    requires Response(responses, f).Fail?
    ensures Judge(tests, responses) == Run(RuntimeError, f + 1)
  {
    FirstFailureDecides(tests, responses, f);
  }

  /**
   * Short-circuit: responses past the calls actually made are never consulted,
   * so any two executors that agree on those calls give the same run.
   */
  lemma {:induction false} LaterResponsesIgnored(tests: seq<TestCase>, responses: seq<Outcome>, other: seq<Outcome>, i: nat)
    requires i <= |tests|
    requires forall k :: i <= k < JudgeFrom(tests, responses, i).calls ==> Response(other, k) == Response(responses, k)
    ensures JudgeFrom(tests, other, i) == JudgeFrom(tests, responses, i)
    decreases |tests| - i
  {
    if i < |tests| {
      assert Response(other, i) == Response(responses, i);
      if CaseFailure(Response(responses, i), tests[i].output).None? {
        LaterResponsesIgnored(tests, responses, other, i + 1);
      }
    }
  }

  /** White space around the program's output does not change the verdict. */
  lemma PaddedOutputSameVerdict(tests: seq<TestCase>, responses: seq<Outcome>, f: nat, w1: string, w2: string)
    requires f < |responses| && responses[f].Ok?
    requires AllWhiteSpace(w1) && AllWhiteSpace(w2)
    ensures var padded := responses[f := Ok(w1 + responses[f].stdout + w2, responses[f].exitCode)];
      Judge(tests, padded) == Judge(tests, responses)
  {
    var padded := responses[f := Ok(w1 + responses[f].stdout + w2, responses[f].exitCode)];
    TrimIgnoresPadding(w1, responses[f].stdout, w2);
    assert forall k: nat, e: string :: CaseFailure(Response(padded, k), e) == CaseFailure(Response(responses, k), e);
    JudgeSameCaseFailures(tests, responses, padded, 0);
  }

  lemma {:induction false} JudgeSameCaseFailures(tests: seq<TestCase>, a: seq<Outcome>, b: seq<Outcome>, i: nat)
    requires i <= |tests|
    requires forall k: nat, e: string :: CaseFailure(Response(a, k), e) == CaseFailure(Response(b, k), e)
    ensures JudgeFrom(tests, b, i) == JudgeFrom(tests, a, i)
    decreases |tests| - i
  {
    if i < |tests| {
      JudgeSameCaseFailures(tests, a, b, i + 1);
    }
  }
}
