/** What the events of a run say of the world: every event is read off the reply
    its call was given. */
module RunReplies {
  import opened Prelude
  import opened RunState
  import opened Decide
  import opened Shell
  import opened Machine
  import DecideHistory
  import Planner
  import RunJournal
  import SummarizeWorker

  /** Summarizations submitted and not yet delivered. */
  function Jobs(history: seq<Entry>): int {
    if history == [] then 0
    else
      Jobs(DropLast(history))
      + (if Last(history).cause.Command? && Last(history).cause.cmd.SubmitSummarization? then 1 else 0)
      - (if Last(history).event.SummarizationDone? || Last(history).event.SummarizationFailed? then 1 else 0)
  }

  /** A query's event: the first output printed within the budget, if its body
      validates; and if nothing is printed, the error of the last attempt. */
  ghost predicate QueryReplied(event: Event, attempts: seq<Planner.Attempt>, retries: nat) {
    && (forall k: nat | Planner.FirstPrint(attempts, retries, k) ::
          var output := attempts[k].output;
          event == if output.parsed.Some? then PlannerResponded(output.parsed.value, output.usage)
                   else PlannerFailed(Unparsable))
    && ((forall k: nat :: !Planner.FirstPrint(attempts, retries, k)) ==>
          event == PlannerFailed(
                     if retries == 0 then NoAttempts
                     else if retries <= |attempts| && attempts[retries - 1].Exited?
                     then ExitStatus(attempts[retries - 1].code)
                     else TimedOut))
  }

  /** The event of an entry, read off the reply; `running` says whether a
      summarization was under way. What an observation shows is told by the
      captures before it as well. */
  ghost predicate Replied(entry: Entry, reply: Reply, running: bool, config: Config) {
    && entry.effects == reply.effects
    && match entry.cause
       case Opening =>
         if running && reply.finished.Some? then
           match reply.finished.value
           case Completed(summary, answers) => entry.event == SummarizationDone(summary, answers)
           case Raised => entry.event == SummarizationFailed
         else entry.event == LoopTick(!running && reply.sessionAlive, reply.sessionAlive)
       case Command(Observe) =>
         entry.event.ObservationCaptured? && entry.event.nextBuffer == reply.capture.history
       case Command(SendKeys(_, _)) =>
         (forall ok :: entry.event == CommandAcked(ok) <==> reply.keys == Sent(ok))
         && (entry.event == SendKeysFailed <==> reply.keys == Broken)
       case Command(ForceInterrupt(_)) =>
         entry.event == if reply.keys == Broken then SendKeysFailed else CommandAcked(true)
       case Command(QueryPlanner(_, _, _, _)) => QueryReplied(entry.event, reply.attempts, config.plannerRetries)
       case Command(SubmitSummarization(_)) => entry.event == LoopTick(false, true)
       case Command(RefreshArtifacts(trigger)) =>
         entry.event == if reply.refreshOk then ArtifactsRefreshed(trigger) else ArtifactsRefreshFailed
       case Command(LogStep(step, _)) => entry.event == StepLogged(step)
  }

  /** One command, whatever the state. */
  lemma CommandReplied(cmd: RunState.Command, j: Journal, s: State, config: Config, reply: Reply, running: bool)
    ensures Replied(Entry(Cause.Command(cmd), s, Apply(cmd, j, s, config, reply).event, reply.effects),
                    reply, running, config)
  {
    hide Planner.AttemptArgs, Interleave;
    Planner.OutcomeExact(reply.attempts, config.plannerRetries);
    hide Planner.Outcome, Planner.FirstPrint;
  }

  lemma OpeningReplied(slot: SummarizeWorker.Slot, s: State, config: Config, reply: Reply)
    ensures Replied(Entry(Opening, s, PollEvent(slot, reply), reply.effects), reply, slot.InFlight?, config)
  {
  }

  ghost predicate AllReplied(m: Machine, config: Config, world: World) {
    && m.clock == |m.history|
    && Jobs(m.history) == (if m.journal.slot.InFlight? then 1 else 0)
    && forall i | 0 <= i < |m.history| :: Replied(m.history[i], world(i), Jobs(m.history[..i]) == 1, config)
  }

  lemma RepliedGrows(m: Machine, after: Machine, entry: Entry, config: Config, world: World)
    requires AllReplied(m, config, world)
    requires after.history == m.history + [entry] && after.clock == m.clock + 1
    requires Replied(entry, world(m.clock), m.journal.slot.InFlight?, config)
    requires Jobs(after.history) == if after.journal.slot.InFlight? then 1 else 0
    ensures AllReplied(after, config, world)
  {
    hide Replied, Jobs;
    forall i | 0 <= i < |after.history|
      ensures Replied(after.history[i], world(i), Jobs(after.history[..i]) == 1, config)
    {
      if i < |m.history| {
        assert after.history[..i] == m.history[..i];
      } else {
        assert after.history[..i] == m.history;
      }
    }
  }

  lemma JobsGrow(history: seq<Entry>, entry: Entry)
    ensures Jobs(history + [entry])
         == Jobs(history)
            + (if entry.cause.Command? && entry.cause.cmd.SubmitSummarization? then 1 else 0)
            - (if entry.event.SummarizationDone? || entry.event.SummarizationFailed? then 1 else 0)
  {
    SnocParts(history, entry);
  }

  lemma StepReplied(m: Machine, config: Config, world: World)
    requires AllReplied(m, config, world) && RunJournal.Orderly(m, config)
    ensures AllReplied(Step(m, config, world), config, world)
  {
    hide Decide.Decide, Apply, Polled, Step, Iterate, Replied, Jobs;
    var reply := world(m.clock);
    var after := Step(m, config, world);
    if !m.finished && m.pending != [] {
      var cmd := m.pending[0];
      var event := Apply(cmd, m.journal, m.state, config, reply).event;
      var entry := Entry(Cause.Command(cmd), m.state, event, reply.effects);
      IterationIsStep(m, config, world);
      IterationShape(m, config, reply);
      CommandReplied(cmd, m.journal, m.state, config, reply, m.journal.slot.InFlight?);
      RunJournal.EventOf(cmd, m.journal, m.state, config, reply);
      RunJournal.RecordOf(cmd, m.journal, m.state, config, reply);
      JobsGrow(m.history, entry);
      RepliedGrows(m, after, entry, config, world);
    } else if !m.finished && m.state.status.Active? && m.turns < m.state.maxTurns {
      var entry := Entry(Opening, m.state, PollEvent(m.journal.slot, reply), reply.effects);
      OpeningShape(m, config, world);
      OpeningReplied(m.journal.slot, m.state, config, reply);
      JobsGrow(m.history, entry);
      OpeningJobs(m, config, reply);
      RepliedGrows(m, after, entry, config, world);
    } else {
      ClosingShape(m, config, world);
    }
  }

  lemma OpeningJobs(m: Machine, config: Config, reply: Reply)
    ensures var event := PollEvent(m.journal.slot, reply);
            var after := Polled(m.journal, m.state, reply);
            (if after.slot.InFlight? then 1 else 0)
            == (if m.journal.slot.InFlight? then 1 else 0)
               - (if event.SummarizationDone? || event.SummarizationFailed? then 1 else 0)
  {
    hide Interleave;
  }

  /** At every moment of every run, every event so far is the one its reply calls
      for: keystrokes are acked as they were answered, a delivered checkpoint
      carries its summary and its answers, a tick the session's state, a query
      the first output printed or the error of its last attempt. */
  lemma {:induction false} EventsExact(start: State, config: Config, world: World, n: nat)
    requires DecideHistory.Fresh(start)
    ensures AllReplied(At(Start(start), config, world, n), config, world)
  {
    hide Step, Replied;
    if n > 0 {
      EventsExact(start, config, world, n - 1);
      RunJournal.AlwaysOrderly(start, config, world, n - 1);
      StepReplied(At(Start(start), config, world, n - 1), config, world);
    }
  }
}
