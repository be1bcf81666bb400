/** `query_planner` and `_build_session_args` of `termiclaw/planner.py`: which
    `claude -p` attempts are made, with which session arguments. */
module Planner {
  import opened Prelude
  import opened RunState

  /** The session-related argv of one attempt. */
  datatype SessionArgs =
    | NoSession
    | CreateSession(id: string)   // --session-id
    | ResumeSession(id: string)   // --resume
    | ForkSession(parent: string) // --resume parent --fork-session

  /** Attempts that ask the CLI for a new session. */
  predicate Opens(args: SessionArgs) {
    args.CreateSession? || args.ForkSession?
  }

  /** Standard output of a successful attempt: the usage envelope, and the
      parsed body unless validation rejected it. */
  datatype Output = Output(parsed: Option<ParseResult>, usage: PlannerUsage)

  /** How the operating system answers one attempt. */
  datatype Attempt =
    | Expired
    | Exited(code: int)
    | Printed(output: Output)

  function BuildSessionArgs(
    sessionId: string, firstCall: bool, resumeParent: Option<string>, fork: bool): SessionArgs
  {
    if resumeParent.Some? && resumeParent.value != "" then
      (if fork then ForkSession(resumeParent.value) else ResumeSession(resumeParent.value))
    else if sessionId != "" && firstCall then CreateSession(sessionId)
    else if sessionId != "" then ResumeSession(sessionId)
    else NoSession
  }

  /** The answer to attempt i; an oracle that has run dry times out. */
  function AnswerAt(oracle: seq<Attempt>, i: nat): Attempt {
    if i < |oracle| then oracle[i] else Expired
  }

  /** Attempts made: up to and including the first that prints, never more than `retries`. */
  function AttemptCount(oracle: seq<Attempt>, retries: nat): (n: nat)
    ensures n <= retries
    ensures forall i | 0 <= i < n - 1 :: !AnswerAt(oracle, i).Printed?
    ensures n < retries ==> n > 0 && AnswerAt(oracle, n - 1).Printed?
  {
    if retries == 0 then 0
    else
      var before := AttemptCount(oracle, retries - 1);
      if before > 0 && AnswerAt(oracle, before - 1).Printed? then before else before + 1
  }

  function AttemptArgs(
    oracle: seq<Attempt>, retries: nat,
    sessionId: string, firstCall: bool, resumeParent: Option<string>, fork: bool): seq<SessionArgs>
  {
    ArgsOfFirst(AttemptCount(oracle, retries), sessionId, firstCall, resumeParent, fork)
  }

  /** The arguments of attempts 0 to n - 1: only attempt 0 may open a session. */
  function ArgsOfFirst(
    n: nat, sessionId: string, firstCall: bool, resumeParent: Option<string>, fork: bool): (args: seq<SessionArgs>)
    ensures |args| == n
  {
    if n == 0 then []
    else
      var last := BuildSessionArgs(sessionId, firstCall && n == 1, resumeParent, fork && n == 1);
      ArgsOfFirst(n - 1, sessionId, firstCall, resumeParent, fork) + [last]
  }

  function ErrorOf(attempt: Attempt): PlannerError {
    match attempt
    case Exited(code) => ExitStatus(code)
    case _ => TimedOut
  }

  function Outcome(oracle: seq<Attempt>, retries: nat): Result<Output, PlannerError> {
    var n := AttemptCount(oracle, retries);
    if n == 0 then Err(NoAttempts)
    else
      match AnswerAt(oracle, n - 1)
      case Printed(output) => Ok(output)
      case failed => Err(ErrorOf(failed))
  }

  /** The retry loop. */
  method Query(
    oracle: seq<Attempt>, retries: nat,
    sessionId: string, firstCall: bool, resumeParent: Option<string>, fork: bool)
    returns (result: Result<Output, PlannerError>, attempts: seq<SessionArgs>)
    ensures attempts == AttemptArgs(oracle, retries, sessionId, firstCall, resumeParent, fork)
    ensures result == Outcome(oracle, retries)
  {
    var lastError := NoAttempts;
    attempts := [];
    for attempt := 0 to retries
      invariant attempt == AttemptCount(oracle, attempt)
      invariant attempt > 0 ==> !AnswerAt(oracle, attempt - 1).Printed?
      invariant attempts == ArgsOfFirst(attempt, sessionId, firstCall, resumeParent, fork)
      invariant lastError == if attempt == 0 then NoAttempts else ErrorOf(AnswerAt(oracle, attempt - 1))
    {
      var args := BuildSessionArgs(sessionId, firstCall && attempt == 0, resumeParent, fork && attempt == 0);
      attempts := attempts + [args];
      match AnswerAt(oracle, attempt) {
        case Expired => lastError := TimedOut;
        case Exited(code) => lastError := ExitStatus(code);
        case Printed(output) =>
          CountSettles(oracle, attempt + 1, retries);
          return Ok(output), attempts;
      }
    }
    return Err(lastError), attempts;
  }

  /** Once an attempt has printed, a larger retry budget changes nothing. */
  lemma {:induction false} CountSettles(oracle: seq<Attempt>, n: nat, retries: nat)
    requires n <= retries && n > 0 && AttemptCount(oracle, n) == n && AnswerAt(oracle, n - 1).Printed?
    ensures AttemptCount(oracle, retries) == n
  {
    if n < retries {
      CountSettles(oracle, n, retries - 1);
    }
  }

  /** At most the first attempt of a query opens a session, and it does so
      only for a first call or a fork. */
  lemma {:induction false} OnlyFirstAttemptOpens(
    oracle: seq<Attempt>, retries: nat,
    sessionId: string, firstCall: bool, resumeParent: Option<string>, fork: bool, i: nat)
    requires i < |AttemptArgs(oracle, retries, sessionId, firstCall, resumeParent, fork)|
    ensures Opens(AttemptArgs(oracle, retries, sessionId, firstCall, resumeParent, fork)[i])
            <==> && i == 0
                 && (if resumeParent.Some? && resumeParent.value != "" then fork else firstCall && sessionId != "")
  {
    ArgAt(AttemptCount(oracle, retries), sessionId, firstCall, resumeParent, fork, i);
  }

  lemma {:induction false} ArgAt(
    n: nat, sessionId: string, firstCall: bool, resumeParent: Option<string>, fork: bool, i: nat)
    requires i < n
    ensures ArgsOfFirst(n, sessionId, firstCall, resumeParent, fork)[i]
         == BuildSessionArgs(sessionId, firstCall && i == 0, resumeParent, fork && i == 0)
  {
    if i < n - 1 {
      ArgAt(n - 1, sessionId, firstCall, resumeParent, fork, i);
    }
  }

  /** Attempt k is the first that prints, within the budget. */
  predicate FirstPrint(attempts: seq<Attempt>, retries: nat, k: nat) {
    && k < retries && k < |attempts| && attempts[k].Printed?
    && forall j | 0 <= j < k :: !attempts[j].Printed?
  }

  /** What a query comes to, read off its attempts: the first output printed
      within the budget, after which no attempt is made; and if there is none,
      the error of the last attempt, when the budget is used up. */
  lemma OutcomeExact(attempts: seq<Attempt>, retries: nat)
    ensures forall k: nat | FirstPrint(attempts, retries, k) ::
              Outcome(attempts, retries) == Ok(attempts[k].output) && AttemptCount(attempts, retries) == k + 1
    ensures (forall k: nat :: !FirstPrint(attempts, retries, k)) ==>
              Outcome(attempts, retries)
              == Err(if retries == 0 then NoAttempts
                     else if retries <= |attempts| && attempts[retries - 1].Exited?
                     then ExitStatus(attempts[retries - 1].code)
                     else TimedOut)
              && AttemptCount(attempts, retries) == retries
  {
    var n := AttemptCount(attempts, retries);
    hide AttemptCount;
    if n > 0 && AnswerAt(attempts, n - 1).Printed? {
      assert forall j | 0 <= j < n - 1 :: attempts[j] == AnswerAt(attempts, j);
      assert FirstPrint(attempts, retries, n - 1);
    }
    forall k: nat | FirstPrint(attempts, retries, k) ensures k + 1 == n {
      assert AnswerAt(attempts, k).Printed?;
    }
  }
}
