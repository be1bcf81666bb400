/** What a run leaves behind: the trajectory and its rows, the worker's slot,
    and the planner sessions it opened. */
module RunJournal {
  import opened Prelude
  import opened RunState
  import opened Decide
  import opened DecideHistory
  import opened Planner
  import opened Shell
  import opened Machine
  import SummarizeWorker

  /** Which commands a decide call can emit, and when. */
  lemma CommandShape(s: State, event: Event, config: Config, effects: Effects)
    ensures var t := Decide.Decide(s, event, config, effects);
            forall i | 0 <= i < |t.commands| ::
              var c := t.commands[i];
              && !c.ForceInterrupt?
              && (c.SubmitSummarization? ==>
                    i == 0 && event.LoopTick? && event.summarizeReady && t.state == s
                    && ShouldSummarize(s, config) && ArtifactRefreshTrigger(s, config) == "")
              && (c.QueryPlanner? ==>
                    if event.ObservationCaptured? && s.isFirstCall then true
                    else !c.firstCall && c.resumeParent == None && !c.forkSession)
  {
  }

  lemma EventOf(cmd: RunState.Command, j: Journal, s: State, config: Config, reply: Reply)
    ensures var event := Apply(cmd, j, s, config, reply).event;
            && (cmd.Observe? <==> event.ObservationCaptured?)
            && (cmd.QueryPlanner? <==> event.PlannerResponded? || event.PlannerFailed?)
            && (cmd.LogStep? <==> event.StepLogged?)
            && !event.SummarizationDone?
            && !event.SummarizationFailed?
            && (cmd.SubmitSummarization? <==> event.LoopTick?)
            && (cmd.SubmitSummarization? ==> event == LoopTick(false, true))
            && (cmd.LogStep? ==> event.step == cmd.step)
            && (cmd.RefreshArtifacts? <==> event.ArtifactsRefreshed? || event.ArtifactsRefreshFailed?)
  {
    hide AttemptArgs, AttemptCount;
  }

  /** What applying a command records, session attempts aside. */
  lemma RecordOf(cmd: RunState.Command, j: Journal, s: State, config: Config, reply: Reply)
    ensures var after := Apply(cmd, j, s, config, reply).journal;
            && after.trajectory == (if cmd.LogStep? then j.trajectory + [cmd.step] else j.trajectory)
            && after.rows == (if cmd.LogStep? then j.rows + [Row(s.currentStep, cmd.step, cmd.usage)] else j.rows)
            && after.delivered == j.delivered
            && after.submitted == j.submitted + (if cmd.SubmitSummarization? && j.slot.Idle? then 1 else 0)
            && after.escaped == (j.escaped || (cmd.SubmitSummarization? && j.slot.InFlight?))
            && after.slot
               == (if cmd.SubmitSummarization? && j.slot.Idle? then SummarizeWorker.InFlight(cmd.job) else j.slot)
  {
    hide Interleave, AttemptArgs, Outcome;
  }

  // Steps and rows, and the worker ------------------------------------------

  predicate StepsRecorded(m: Machine) {
    var j := m.journal;
    && |j.rows| == |j.trajectory| == m.state.currentStep
    && forall i | 0 <= i < |j.rows| :: j.rows[i].stepIndex == i && j.rows[i].step == j.trajectory[i]
  }

  /** A submission is only ever queued first, and only while it can be accepted. */
  predicate SubmitsReady(m: Machine, config: Config) {
    forall i | 0 <= i < |m.pending| && m.pending[i].SubmitSummarization? ::
      && i == 0
      && m.journal.slot.Idle?
      && ArtifactRefreshTrigger(m.state, config) == ""
  }

  predicate OneJobInFlight(m: Machine) {
    && !m.journal.escaped
    && m.journal.submitted - m.journal.delivered == (if m.journal.slot.Idle? then 0 else 1)
  }

  predicate Orderly(m: Machine, config: Config) {
    StepsRecorded(m) && SubmitsReady(m, config) && OneJobInFlight(m)
  }

  lemma IterationOrderly(m: Machine, config: Config, reply: Reply)
    requires Orderly(m, config) && m.pending != []
    ensures Orderly(Iterate(m, config, reply), config)
  {
    var event := Apply(m.pending[0], m.journal, m.state, config, reply).event;
    CommandShape(m.state, event, config, reply.effects);
    CountersAfter(m.state, event, config, reply.effects);
    FlagsAfter(m.state, event, config, reply.effects);
    EventOf(m.pending[0], m.journal, m.state, config, reply);
    RecordOf(m.pending[0], m.journal, m.state, config, reply);
    hide Decide.Decide, Apply;
  }

  lemma StepOrderly(m: Machine, config: Config, world: World)
    requires Orderly(m, config)
    ensures Orderly(Step(m, config, world), config)
  {
    var reply := world(m.clock);
    if m.pending != [] && !m.finished {
      IterationOrderly(m, config, reply);
      hide Iterate;
    } else {
      var event := PollEvent(m.journal.slot, reply);
      CommandShape(m.state, event, config, reply.effects);
      CountersAfter(m.state, event, config, reply.effects);
      FlagsAfter(m.state, event, config, reply.effects);
      hide Decide.Decide, Interleave;
    }
  }

  lemma {:induction false} AlwaysOrderly(start: State, config: Config, world: World, n: nat)
    requires Fresh(start)
    ensures Orderly(At(Start(start), config, world, n), config)
  {
    hide Step;
    if n > 0 {
      AlwaysOrderly(start, config, world, n - 1);
      StepOrderly(At(Start(start), config, world, n - 1), config, world);
    }
  }

  /** Step indices have no gap or repeat: at every moment of every run the rows
      written are numbered 0, 1, 2, ... in trajectory order, and the step
      counter is the trajectory's length, terminal steps included. */
  lemma StepIndicesExact(start: State, config: Config, world: World, n: nat)
    requires Fresh(start)
    ensures var m := At(Start(start), config, world, n);
            && m.state.currentStep == |m.journal.trajectory| == |m.journal.rows|
            && forall i | 0 <= i < |m.journal.rows| ::
                 m.journal.rows[i].stepIndex == i && m.journal.rows[i].step == m.journal.trajectory[i]
  {
    hide At;
    AlwaysOrderly(start, config, world, n);
  }

  /** One summarization job at a time: whenever the background job finishes,
      submissions minus delivered outcomes is 0 or 1, and no submission is
      ever refused. */
  lemma SubmitNeverRaises(start: State, config: Config, world: World, n: nat)
    requires Fresh(start)
    ensures var j := At(Start(start), config, world, n).journal;
            && !j.escaped
            && 0 <= j.submitted - j.delivered <= 1
            && (j.submitted - j.delivered == 1 <==> j.slot.InFlight?)
  {
    hide At;
    AlwaysOrderly(start, config, world, n);
  }

  /** No forced interrupt is queued, and none was applied. */
  predicate Uninterrupted(m: Machine) {
    && (forall i | 0 <= i < |m.pending| :: !m.pending[i].ForceInterrupt?)
    && (forall i | 0 <= i < |m.history| && m.history[i].cause.Command? :: !m.history[i].cause.cmd.ForceInterrupt?)
  }

  lemma StepUninterrupted(m: Machine, config: Config, world: World)
    requires Uninterrupted(m)
    ensures Uninterrupted(Step(m, config, world))
  {
    hide Decide.Decide, Apply, PollEvent, Polled, Step, Iterate;
    var reply := world(m.clock);
    if m.pending != [] && !m.finished {
      IterationIsStep(m, config, world);
      IterationShape(m, config, reply);
      CommandShape(m.state, Apply(m.pending[0], m.journal, m.state, config, reply).event, config, reply.effects);
    } else if !m.finished && m.state.status.Active? && m.turns < m.state.maxTurns {
      OpeningShape(m, config, world);
      CommandShape(m.state, PollEvent(m.journal.slot, reply), config, reply.effects);
    } else {
      ClosingShape(m, config, world);
    }
  }

  /** No run ever sends a forced interrupt, whatever it observes. */
  lemma {:induction false} NeverInterrupts(start: State, config: Config, world: World, n: nat)
    ensures Uninterrupted(At(Start(start), config, world, n))
  {
    hide Step;
    if n > 0 {
      NeverInterrupts(start, config, world, n - 1);
      StepUninterrupted(At(Start(start), config, world, n - 1), config, world);
    }
  }

  // Planner sessions ---------------------------------------------------------

  predicate NoneOpens(attempts: seq<SessionArgs>) {
    forall i | 0 <= i < |attempts| :: !Opens(attempts[i])
  }

  /** Only the very first attempt may open a session. */
  predicate OnlyFirstOpens(attempts: seq<SessionArgs>) {
    forall i | 1 <= i < |attempts| :: !Opens(attempts[i])
  }

  predicate Resumes(c: RunState.Command) {
    c.QueryPlanner? ==> !c.firstCall && c.resumeParent == None && !c.forkSession
  }

  /** Until the first planner outcome there is one chain, and it is alone. */
  predicate Untouched(m: Machine) {
    && m.journal.attempts == []
    && m.journal.slot.Idle?
    && m.state.totalPromptTokens == 0
    && m.state.currentStep == 0
    && (m.pending == [] || (|m.pending| == 1 && (m.pending[0].Observe? || m.pending[0].QueryPlanner?)))
  }

  predicate Sessions(m: Machine) {
    && OnlyFirstOpens(m.journal.attempts)
    && (if m.state.isFirstCall then Untouched(m)
        else forall i | 0 <= i < |m.pending| :: Resumes(m.pending[i]))
  }

  lemma {:induction false} InterleaveNoneOpens(main: seq<SessionArgs>, sid: string, counts: seq<nat>)
    requires NoneOpens(main)
    ensures NoneOpens(Interleave(main, ResumingArgs(sid), counts))
  {
    if main != [] {
      InterleaveNoneOpens(DropLast(main), sid, counts);
    }
  }

  /** What one command adds to the list of attempts. */
  lemma AttemptsAfter(cmd: RunState.Command, j: Journal, s: State, config: Config, reply: Reply)
    ensures var after := Apply(cmd, j, s, config, reply).journal;
            && j.attempts <= after.attempts
            && (!cmd.QueryPlanner? || Resumes(cmd) ==> NoneOpens(after.attempts[|j.attempts|..]))
            && (j.attempts == [] && j.slot.Idle? ==>
                  OnlyFirstOpens(after.attempts)
                  && (!cmd.QueryPlanner? && !cmd.RefreshArtifacts? ==> after.attempts == []))
            && (!cmd.SubmitSummarization? ==> after.slot == j.slot)
  {
    var sid := s.claudeSessionId;
    var main :=
      match cmd
      case QueryPlanner(_, first, parent, fork) =>
        AttemptArgs(reply.attempts, config.plannerRetries, sid, first, parent, fork)
      case RefreshArtifacts(_) => Repeat(ResumingArgs(sid), reply.refreshCalls)
      case _ => [];
    if cmd.QueryPlanner? {
      forall i | 0 <= i < |main|
        ensures Opens(main[i]) ==> i == 0 && !Resumes(cmd)
      {
        OnlyFirstAttemptOpens(reply.attempts, config.plannerRetries, sid, cmd.firstCall, cmd.resumeParent,
                              cmd.forkSession, i);
      }
    }
    if NoneOpens(main) {
      InterleaveNoneOpens(main, sid, reply.background);
    }
    hide AttemptArgs, Outcome;
    var after := Apply(cmd, j, s, config, reply).journal;
    assert after.attempts
        == j.attempts + if j.slot.Idle? then main else Interleave(main, ResumingArgs(sid), reply.background);
  }

  lemma IterationSessions(m: Machine, config: Config, reply: Reply)
    requires Sessions(m) && m.pending != []
    ensures Sessions(Iterate(m, config, reply))
  {
    var cmd := m.pending[0];
    var event := Apply(cmd, m.journal, m.state, config, reply).event;
    AttemptsAfter(cmd, m.journal, m.state, config, reply);
    CommandShape(m.state, event, config, reply.effects);
    CountersAfter(m.state, event, config, reply.effects);
    FlagsAfter(m.state, event, config, reply.effects);
    EventOf(cmd, m.journal, m.state, config, reply);
    var commands := Decide.Decide(m.state, event, config, reply.effects).commands;
    assert cmd.Observe? ==> |commands| == 1 && commands[0].QueryPlanner?;
    hide Decide.Decide, Apply;
  }

  lemma StepSessions(m: Machine, config: Config, world: World)
    requires config.summarizationTokenThreshold > 0
    requires Sessions(m)
    ensures Sessions(Step(m, config, world))
  {
    var reply := world(m.clock);
    if m.pending != [] && !m.finished {
      IterationSessions(m, config, reply);
      hide Iterate;
    } else if !m.finished && m.state.status.Active? && m.turns < m.state.maxTurns {
      var event := PollEvent(m.journal.slot, reply);
      CommandShape(m.state, event, config, reply.effects);
      CountersAfter(m.state, event, config, reply.effects);
      FlagsAfter(m.state, event, config, reply.effects);
      InterleaveNoneOpens([], m.state.claudeSessionId, reply.background);
      hide Interleave;
    }
  }

  /** With a positive summarization threshold, in every run at most one CLI
      attempt asks for a new session (create or fork), counting the main
      queries and their retries, artifact refreshes and the summarizer's own
      calls however they interleave; and it is the very first attempt. */
  lemma {:induction false} OneSessionOpened(start: State, config: Config, world: World, n: nat)
    requires Fresh(start) && config.summarizationTokenThreshold > 0
    ensures OnlyFirstOpens(At(Start(start), config, world, n).journal.attempts)
    ensures Sessions(At(Start(start), config, world, n))
  {
    hide Step;
    if n > 0 {
      OneSessionOpened(start, config, world, n - 1);
      StepSessions(At(Start(start), config, world, n - 1), config, world);
    }
  }
}
