/** The imperative shell `termiclaw/shell.py`: what applying one command does
    to the outside world, and which single event it reports. */
module Shell {
  import opened Prelude
  import opened RunState
  import opened Planner
  import opened SummarizeWorker
  import Container
  import Decide

  /** One row of the steps table. */
  datatype Row = Row(stepIndex: nat, step: StepRecord, usage: PlannerUsage)

  /** Everything the ports have recorded so far. `escaped` is set when a port
      call raises an exception nothing catches. */
  datatype Journal = Journal(
    trajectory: seq<StepRecord>,
    rows: seq<Row>,
    attempts: seq<SessionArgs>, // every `claude -p` attempt of the run, in order
    slot: Slot,
    submitted: nat,
    delivered: nat,
    escaped: bool)

  const EMPTY_JOURNAL := Journal([], [], [], Idle, 0, 0, false)

  datatype KeysAnswer = Sent(blockedOk: bool) | Broken

  /** All the outside world may answer during one step of the loop. The step
      reads what its command needs. `background` counts the summarizer's own
      planner attempts that happen before each attempt of the main thread. */
  datatype Reply = Reply(
    effects: Decide.Effects,
    sessionAlive: bool,
    finished: Option<JobOutcome>,
    capture: Container.Capture,
    keys: KeysAnswer,
    attempts: seq<Attempt>,
    refreshCalls: nat,
    refreshOk: bool,
    background: seq<nat>)

  /** Attempts of the summarizer and of artifact refreshes never open a session. */
  function ResumingArgs(sessionId: string): SessionArgs {
    BuildSessionArgs(sessionId, false, None, false)
  }

  function CountAt(counts: seq<nat>, i: nat): nat {
    if i < |counts| then counts[i] else 0
  }

  /** The main thread's attempts with the summarizer's interleaved. */
  function Interleave(main: seq<SessionArgs>, noise: SessionArgs, counts: seq<nat>): seq<SessionArgs> {
    if main == [] then Repeat(noise, CountAt(counts, 0))
    else Interleave(DropLast(main), noise, counts) + [Last(main)] + Repeat(noise, CountAt(counts, |main|))
  }

  /** How many of the summarizer's attempts come before attempt i of the main thread. */
  function NoiseBefore(counts: seq<nat>, i: nat): nat {
    CountAt(counts, i) + if i == 0 then 0 else NoiseBefore(counts, i - 1)
  }

  /** Where attempt i of the main thread comes. */
  function PlaceOf(counts: seq<nat>, i: nat): nat {
    i + NoiseBefore(counts, i)
  }

  lemma {:induction false} InterleaveLength(main: seq<SessionArgs>, noise: SessionArgs, counts: seq<nat>)
    ensures |Interleave(main, noise, counts)| == PlaceOf(counts, |main|)
  {
    if main != [] {
      InterleaveLength(DropLast(main), noise, counts);
    }
  }

  /** One more attempt of the main thread. */
  lemma InterleaveSnoc(main: seq<SessionArgs>, noise: SessionArgs, counts: seq<nat>, p: nat)
    requires main != [] && p < |Interleave(main, noise, counts)|
    ensures var early := Interleave(DropLast(main), noise, counts);
            Interleave(main, noise, counts)[p]
            == if p < |early| then early[p] else if p == |early| then Last(main) else noise
  {
  }

  /** The main thread's attempts in order, so many of the summarizer's before each
      and after the last, and nothing else. */
  lemma {:induction false} InterleaveExact(main: seq<SessionArgs>, noise: SessionArgs, counts: seq<nat>, p: nat)
    requires p < |Interleave(main, noise, counts)|
    ensures forall i | 0 <= i < |main| && p == PlaceOf(counts, i) :: Interleave(main, noise, counts)[p] == main[i]
    ensures (forall i | 0 <= i < |main| :: p != PlaceOf(counts, i)) ==> Interleave(main, noise, counts)[p] == noise
  {
    if main != [] {
      hide Interleave, PlaceOf;
      var front, n := DropLast(main), |main| - 1;
      var early := Interleave(front, noise, counts);
      InterleaveSnoc(main, noise, counts, p);
      InterleaveLength(front, noise, counts);
      PlacesRise(counts, n);
      if p < |early| {
        InterleaveExact(front, noise, counts, p);
        assert p != PlaceOf(counts, n);
      } else {
        assert forall i | 0 <= i < n :: PlaceOf(counts, i) < |early|;
      }
    }
  }

  lemma {:induction false} PlacesRise(counts: seq<nat>, n: nat)
    ensures forall i | 0 <= i < n :: PlaceOf(counts, i) < PlaceOf(counts, n)
  {
    if n > 0 {
      PlacesRise(counts, n - 1);
    }
  }

  /** The journal after the attempts `main`, with a busy worker interleaving its own. */
  function Attempted(j: Journal, main: seq<SessionArgs>, sessionId: string, counts: seq<nat>): Journal {
    j.(attempts := j.attempts +
         if j.slot.Idle? then main else Interleave(main, ResumingArgs(sessionId), counts))
  }

  datatype Applied = Applied(journal: Journal, event: Event)

  function Apply(cmd: Command, j: Journal, state: State, config: Config, reply: Reply): Applied {
    var sid := state.claudeSessionId;
    var quiet := Attempted(j, [], sid, reply.background);
    match cmd
    case Observe =>
      var seen := Container.IncrementalOutput(state.previousBuffer, reply.capture);
      Applied(quiet, ObservationCaptured(seen.text, seen.nextBuffer))
    case SendKeys(_, _) => Applied(quiet, KeysEvent(reply.keys, false))
    case ForceInterrupt(_) => Applied(quiet, KeysEvent(reply.keys, true))
    case QueryPlanner(_, first, parent, fork) =>
      var main := AttemptArgs(reply.attempts, config.plannerRetries, sid, first, parent, fork);
      Applied(Attempted(j, main, sid, reply.background), AnswerEvent(Outcome(reply.attempts, config.plannerRetries)))
    case SubmitSummarization(job) =>
      Applied(if quiet.slot.Idle? then quiet.(slot := InFlight(job), submitted := quiet.submitted + 1)
              else quiet.(escaped := true),
              LoopTick(false, true))
    case RefreshArtifacts(trigger) =>
      Applied(Attempted(j, Repeat(ResumingArgs(sid), reply.refreshCalls), sid, reply.background),
              if reply.refreshOk then ArtifactsRefreshed(trigger) else ArtifactsRefreshFailed)
    case LogStep(step, usage) =>
      Applied(quiet.(trajectory := quiet.trajectory + [step],
                     rows := quiet.rows + [Row(state.currentStep, step, usage)]),
              StepLogged(step))
  }

  function KeysEvent(answer: KeysAnswer, interrupt: bool): Event {
    match answer
    case Broken => SendKeysFailed
    case Sent(ok) => CommandAcked(interrupt || ok)
  }

  function AnswerEvent(outcome: Result<Output, PlannerError>): Event {
    match outcome
    case Err(error) => PlannerFailed(error)
    case Ok(output) =>
      if output.parsed.Some? then PlannerResponded(output.parsed.value, output.usage) else PlannerFailed(Unparsable)
  }

  /** The first event of a turn: a finished job's outcome, or a loop tick. */
  function PollEvent(slot: Slot, reply: Reply): Event {
    if slot.InFlight? && reply.finished.Some? then
      match reply.finished.value
      case Completed(summary, qa) => SummarizationDone(summary, qa)
      case Raised => SummarizationFailed
    else LoopTick(slot.Idle? && reply.sessionAlive, reply.sessionAlive)
  }

  function Polled(j: Journal, state: State, reply: Reply): Journal {
    var quiet := Attempted(j, [], state.claudeSessionId, reply.background);
    if j.slot.InFlight? && reply.finished.Some? then quiet.(slot := Idle, delivered := j.delivered + 1) else quiet
  }
}
