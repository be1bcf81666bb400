/** Whether the sessions a run resumes exist: exactly when every resumed id was
    opened before, is the parent's, or was reported by the CLI. */
module RunKnownSessions {
  import opened Prelude
  import opened RunState
  import opened Decide
  import opened DecideHistory
  import opened Planner
  import opened Shell
  import opened Machine
  import opened RunJournal
  import opened RunSessionIds
  import RunFinality
  import RunSessions
  import RunStarvation
  import RunUsage
  import Container
  import SummarizeWorker

  /** The entry's query printed an output that reports the id. */
  predicate ReportsId(entry: Entry, reply: Reply, config: Config, id: string) {
    && entry.cause.Command? && entry.cause.cmd.QueryPlanner?
    && var outcome := Outcome(reply.attempts, config.plannerRetries);
       outcome.Ok? && outcome.value.usage.claudeSessionId == id
  }

  predicate Reported(id: string, history: seq<Entry>, world: World, config: Config) {
    exists i | 0 <= i < |history| :: ReportsId(history[i], world(i), config, id)
  }

  /** The id names a session that exists: the parent's, one that an earlier
      attempt created, or one that an earlier output reported. */
  predicate Known(
    id: string, start: State, earlier: seq<SessionArgs>, history: seq<Entry>, world: World, config: Config)
  {
    Parent(start) == Some(id) || CreateSession(id) in earlier || Reported(id, history, world, config)
  }

  /** Every attempt added between two moments resumes a known session, if any. */
  predicate AddsKnown(before: Machine, after: Machine, start: State, world: World, config: Config) {
    forall i | |before.journal.attempts| <= i < |after.journal.attempts| && after.journal.attempts[i].ResumeSession? ::
      Known(after.journal.attempts[i].id, start, after.journal.attempts[..i], before.history, world, config)
  }

  ghost predicate KnownAt(start: State, config: Config, world: World, n: nat) {
    AddsKnown(At(Start(start), config, world, n), At(Start(start), config, world, n + 1), start, world, config)
  }

  // The id a state names ---------------------------------------------------------

  /** The state's id is the start's or a reported one, and queries know no
      parent but the start's. */
  predicate Named(m: Machine, start: State, world: World, config: Config) {
    && m.clock == |m.history|
    && (m.state.claudeSessionId == start.claudeSessionId
        || Reported(m.state.claudeSessionId, m.history, world, config))
    && (m.state.fork == None || m.state.fork == start.fork)
    && forall i | 0 <= i < |m.pending| && m.pending[i].QueryPlanner? :: OwnParent(m.pending[i], start)
  }

  predicate OwnParent(cmd: RunState.Command, start: State)
    requires cmd.QueryPlanner?
  {
    cmd.resumeParent.Some? ==> start.fork.Some? && cmd.resumeParent.value == start.fork.value.resumeParentSession
  }

  lemma ReportedGrows(id: string, history: seq<Entry>, entry: Entry, world: World, config: Config)
    ensures Reported(id, history + [entry], world, config)
            <==> Reported(id, history, world, config) || ReportsId(entry, world(|history|), config, id)
  {
    hide ReportsId;
    var longer := history + [entry];
    if Reported(id, history, world, config) {
      var i :| 0 <= i < |history| && ReportsId(history[i], world(i), config, id);
      assert ReportsId(longer[i], world(i), config, id);
    }
    if ReportsId(entry, world(|history|), config, id) {
      assert ReportsId(longer[|history|], world(|history|), config, id);
    }
    if Reported(id, longer, world, config) {
      var i :| 0 <= i < |longer| && ReportsId(longer[i], world(i), config, id);
      if i < |history| {
        assert ReportsId(history[i], world(i), config, id);
      }
    }
  }

  lemma ParentsAfter(s: State, event: Event, config: Config, effects: Effects, start: State)
    requires s.fork == None || s.fork == start.fork
    ensures var t := Decide.Decide(s, event, config, effects);
            && (t.state.fork == None || t.state.fork == start.fork)
            && forall i | 0 <= i < |t.commands| && t.commands[i].QueryPlanner? :: OwnParent(t.commands[i], start)
  {
    hide AgentStep, SystemStep, ErrorStep, ArtifactRefreshTrigger, StoredBuffer, BuildJob, TailSlice;
  }

  lemma AnswerReports(cmd: RunState.Command, j: Journal, s: State, config: Config, reply: Reply)
    ensures var event := Apply(cmd, j, s, config, reply).event;
            event.PlannerResponded? ==>
              ReportsId(Entry(Cause.Command(cmd), s, event, reply.effects), reply, config, event.usage.claudeSessionId)
  {
    hide AttemptArgs, Outcome, Interleave;
    EventOf(cmd, j, s, config, reply);
  }

  lemma IterationNamed(m: Machine, start: State, config: Config, world: World)
    requires Named(m, start, world, config) && m.pending != []
    ensures Named(Iterate(m, config, world(m.clock)), start, world, config)
  {
    hide Apply, Decide.Decide, Iterate, Reported, ReportsId, OwnParent;
    var cmd, reply := m.pending[0], world(m.clock);
    var event := Apply(cmd, m.journal, m.state, config, reply).event;
    var entry := Entry(Cause.Command(cmd), m.state, event, reply.effects);
    IterationShape(m, config, reply);
    IdentityAfter(m.state, event, config, reply.effects);
    ParentsAfter(m.state, event, config, reply.effects, start);
    AnswerReports(cmd, m.journal, m.state, config, reply);
    ReportedGrows(Iterate(m, config, reply).state.claudeSessionId, m.history, entry, world, config);
  }

  lemma OpeningNamed(m: Machine, start: State, config: Config, world: World)
    requires Named(m, start, world, config)
    requires m.pending == [] && !m.finished && m.state.status.Active? && m.turns < m.state.maxTurns
    ensures Named(Step(m, config, world), start, world, config)
  {
    hide Step, Decide.Decide, PollEvent, Reported, ReportsId, OwnParent, Polled;
    var reply := world(m.clock);
    var event := PollEvent(m.journal.slot, reply);
    OpeningShape(m, config, world);
    TurnEvents(m.journal.slot, reply);
    IdentityAfter(m.state, event, config, reply.effects);
    ParentsAfter(m.state, event, config, reply.effects, start);
    ReportedGrows(m.state.claudeSessionId, m.history, Entry(Opening, m.state, event, reply.effects), world, config);
  }

  lemma StepNamed(m: Machine, start: State, config: Config, world: World)
    requires Named(m, start, world, config)
    ensures Named(Step(m, config, world), start, world, config)
  {
    hide Reported, OwnParent, Step, Decide.Decide, Apply, Iterate;
    if !m.finished && m.pending != [] {
      IterationIsStep(m, config, world);
      IterationNamed(m, start, config, world);
    } else if !m.finished && m.state.status.Active? && m.turns < m.state.maxTurns {
      OpeningNamed(m, start, config, world);
    } else {
      ClosingShape(m, config, world);
    }
  }

  lemma {:induction false} AlwaysNamed(start: State, config: Config, world: World, n: nat)
    requires Fresh(start)
    ensures Named(At(Start(start), config, world, n), start, world, config)
  {
    hide Step, Reported;
    if n > 0 {
      hide Named;
      AlwaysNamed(start, config, world, n - 1);
      StepNamed(At(Start(start), config, world, n - 1), start, config, world);
    }
  }

  // What a step adds ---------------------------------------------------------------

  /** Every session resumed is the current one, or the parent the query names. */
  predicate ResumesOnly(attempts: seq<SessionArgs>, sessionId: string, parent: Option<string>) {
    forall i | 0 <= i < |attempts| && attempts[i].ResumeSession? ::
      attempts[i].id == sessionId || (parent == Some(attempts[i].id) && attempts[i].id != "")
  }

  lemma {:induction false} InterleaveResumesOnly(
    main: seq<SessionArgs>, sessionId: string, parent: Option<string>, counts: seq<nat>)
    requires ResumesOnly(main, sessionId, parent)
    ensures ResumesOnly(Interleave(main, ResumingArgs(sessionId), counts), sessionId, parent)
  {
    if main != [] {
      InterleaveResumesOnly(DropLast(main), sessionId, parent, counts);
    }
  }

  function ParentOf(cmd: RunState.Command): Option<string> {
    if cmd.QueryPlanner? then cmd.resumeParent else None
  }

  /** The main thread's own attempts for a command. */
  function MainAttempts(cmd: RunState.Command, sessionId: string, config: Config, reply: Reply): seq<SessionArgs> {
    match cmd
    case QueryPlanner(_, first, parent, fork) =>
      AttemptArgs(reply.attempts, config.plannerRetries, sessionId, first, parent, fork)
    case RefreshArtifacts(_) => Repeat(ResumingArgs(sessionId), reply.refreshCalls)
    case _ => []
  }

  lemma MainResumesOnly(cmd: RunState.Command, sessionId: string, config: Config, reply: Reply)
    ensures ResumesOnly(MainAttempts(cmd, sessionId, config, reply), sessionId, ParentOf(cmd))
    ensures cmd.QueryPlanner? ==>
              |MainAttempts(cmd, sessionId, config, reply)| == AttemptCount(reply.attempts, config.plannerRetries)
  {
    hide AttemptCount;
    if cmd.QueryPlanner? {
      var count := AttemptCount(reply.attempts, config.plannerRetries);
      forall i | 0 <= i < count
        ensures MainAttempts(cmd, sessionId, config, reply)[i]
             == BuildSessionArgs(sessionId, cmd.firstCall && i == 0, cmd.resumeParent, cmd.forkSession && i == 0)
      {
        ArgAt(count, sessionId, cmd.firstCall, cmd.resumeParent, cmd.forkSession, i);
      }
    }
  }

  lemma AddsOnly(cmd: RunState.Command, j: Journal, s: State, config: Config, reply: Reply)
    returns (more: seq<SessionArgs>)
    ensures Apply(cmd, j, s, config, reply).journal.attempts == j.attempts + more
    ensures ResumesOnly(more, s.claudeSessionId, ParentOf(cmd))
    ensures j.slot.Idle? ==> more == MainAttempts(cmd, s.claudeSessionId, config, reply)
  {
    hide AttemptArgs, AttemptCount, Outcome, ResumesOnly, ParentOf;
    var main := MainAttempts(cmd, s.claudeSessionId, config, reply);
    MainResumesOnly(cmd, s.claudeSessionId, config, reply);
    InterleaveResumesOnly(main, s.claudeSessionId, ParentOf(cmd), reply.background);
    more := if j.slot.Idle? then main else Interleave(main, ResumingArgs(s.claudeSessionId), reply.background);
  }

  /** A step of the machine adds attempts that resume only its session or its parent's. */
  lemma StepAdds(m: Machine, start: State, config: Config, world: World)
    requires Named(m, start, world, config)
    ensures var after := Step(m, config, world).journal.attempts;
            && m.journal.attempts <= after
            && forall i | |m.journal.attempts| <= i < |after| && after[i].ResumeSession? ::
                 after[i].id == m.state.claudeSessionId || Parent(start) == Some(after[i].id)
  {
    hide Step, Apply, Decide.Decide, Reported;
    var reply := world(m.clock);
    if !m.finished && m.pending != [] {
      var cmd := m.pending[0];
      IterationIsStep(m, config, world);
      IterationShape(m, config, reply);
      var more := AddsOnly(cmd, m.journal, m.state, config, reply);
      assert cmd.QueryPlanner? ==> OwnParent(cmd, start);
    } else if !m.finished && m.state.status.Active? && m.turns < m.state.maxTurns {
      hide PollEvent;
      OpeningShape(m, config, world);
      InterleaveResumesOnly([], m.state.claudeSessionId, None, reply.background);
    } else {
      ClosingShape(m, config, world);
    }
  }

  // Where every session is known -----------------------------------------------------

  /** If the id the state names is known, so is everything a step resumes. */
  lemma KnownIfNamed(start: State, config: Config, world: World, n: nat)
    requires Fresh(start)
    requires var m := At(Start(start), config, world, n);
             Known(m.state.claudeSessionId, start, m.journal.attempts, m.history, world, config)
    ensures KnownAt(start, config, world, n)
  {
    hide At, Step, Reported;
    AlwaysNamed(start, config, world, n);
    AtNext(Start(start), config, world, n);
    var m := At(Start(start), config, world, n);
    StepAdds(m, start, config, world);
    var after := Step(m, config, world).journal.attempts;
    forall i | |m.journal.attempts| <= i < |after| && after[i].ResumeSession?
      ensures Known(after[i].id, start, after[..i], m.history, world, config)
    {
      assert m.journal.attempts <= after[..i];
    }
  }

  /** The parent's session under the run's own id. */
  lemma KnownToParent(start: State, config: Config, world: World, n: nat)
    requires Fresh(start) && Parent(start) == Some(start.claudeSessionId)
    ensures KnownAt(start, config, world, n)
  {
    hide At, Reported, KnownAt;
    AlwaysNamed(start, config, world, n);
    KnownIfNamed(start, config, world, n);
  }

  /** An unforked run with a budget creates its session first. */
  lemma KnownOnceCreated(start: State, config: Config, world: World, n: nat)
    requires Fresh(start) && start.claudeSessionId != "" && config.summarizationTokenThreshold > 0
    requires Parent(start).None? && config.plannerRetries > 0
    ensures KnownAt(start, config, world, n)
  {
    hide At, Step, Reported, Decide.Decide;
    AlwaysNamed(start, config, world, n);
    AttemptsExact(start, config, world, n);
    var m := At(Start(start), config, world, n);
    if m.state.isFirstCall {
      FirstStepKnown(start, config, world, n);
    } else {
      var k: nat :| FirstCount(k, config) && Follows(m.journal.attempts, start, k, m.state.claudeSessionId);
      assert m.journal.attempts[0] == CreateSession(start.claudeSessionId);
      hide KnownAt;
      KnownIfNamed(start, config, world, n);
    }
  }

  /** While no planner outcome is known a step either adds nothing or is the
      first query, whose retries resume what its first attempt created. */
  lemma FirstStepKnown(start: State, config: Config, world: World, n: nat)
    requires Fresh(start) && start.claudeSessionId != "" && config.summarizationTokenThreshold > 0
    requires Parent(start).None? && config.plannerRetries > 0
    requires At(Start(start), config, world, n).state.isFirstCall
    ensures KnownAt(start, config, world, n)
  {
    hide At, Step, Reported, Decide.Decide, Apply, Follows;
    AlwaysIdentified(start, config, world, n);
    OneSessionOpened(start, config, world, n);
    AtNext(Start(start), config, world, n);
    var m := At(Start(start), config, world, n);
    var reply := world(m.clock);
    if !m.finished && m.pending != [] {
      var cmd := m.pending[0];
      IterationIsStep(m, config, world);
      IterationShape(m, config, reply);
      if cmd.QueryPlanner? {
        FirstQuery(cmd, m.journal, m.state, start, config, reply);
        FirstQueryKnown(m, Step(m, config, world), start, config, world);
      } else {
        var more := OthersResume(cmd, m.journal, m.state, config, reply);
      }
    } else if !m.finished && m.state.status.Active? && m.turns < m.state.maxTurns {
      hide PollEvent;
      OpeningShape(m, config, world);
    } else {
      ClosingShape(m, config, world);
    }
  }

  lemma FirstQueryKnown(m: Machine, after: Machine, start: State, config: Config, world: World)
    requires m.journal.attempts == [] && Parent(start).None?
    requires Follows(after.journal.attempts, start, |after.journal.attempts|, "")
    ensures AddsKnown(m, after, start, world, config)
  {
    hide Reported;
    var attempts := after.journal.attempts;
    forall i | 0 <= i < |attempts| && attempts[i].ResumeSession?
      ensures Known(attempts[i].id, start, attempts[..i], m.history, world, config)
    {
      assert attempts[..i][0] == CreateSession(start.claudeSessionId);
    }
  }

  /** Without a budget every query fails, three failures end the run, and a
      refresh may come first: at step one or two, if the turns allow. */
  predicate RefreshComes(start: State, config: Config) {
    || (start.maxTurns >= 2 && (config.stateDumpIntervalTurns == 1 || config.stateDumpTokenThreshold <= 0))
    || (start.maxTurns >= 3 && config.stateDumpIntervalTurns == 2)
  }

  /** A run without a budget, while nothing has refreshed. */
  predicate Mute(m: Machine, start: State) {
    var s := m.state;
    && m.journal.slot.Idle? && m.journal.attempts == [] && s.totalPromptTokens == 0 && s.maxTurns == start.maxTurns
    && (m.pending == []
        || (|m.pending| == 1 && (m.pending[0].LogStep? || m.pending[0].Observe? || m.pending[0].QueryPlanner?)))
    && (m.pending != [] && !m.pending[0].LogStep? ==> s.status.Active?)
    && s.currentStep + (if m.pending != [] && m.pending[0].LogStep? then 1 else 0) == s.consecutivePlannerFailures
    && (s.status.Active? ==>
          && s.consecutivePlannerFailures < MAX_CONSECUTIVE_PLANNER_FAILURES
          && m.turns == s.consecutivePlannerFailures
                        + if m.pending != [] && !m.pending[0].LogStep? then 1 else 0)
  }

  lemma MuteFollows(cmd: RunState.Command, j: Journal, s: State, config: Config, reply: Reply)
    requires cmd.LogStep? || cmd.Observe? || cmd.QueryPlanner?
    requires j.slot.Idle? && j.attempts == [] && config.plannerRetries == 0
    ensures var applied := Apply(cmd, j, s, config, reply);
            var t := Decide.Decide(s, applied.event, config, reply.effects);
            && applied.journal.attempts == []
            && (if cmd.LogStep? then t.commands == [] && t.state.status == s.status
                else if cmd.Observe? then
                  |t.commands| == 1 && t.commands[0].QueryPlanner? && t.state.status == s.status
                else
                  && applied.event.PlannerFailed? && |t.commands| == 1 && t.commands[0].LogStep?
                  && t.state.status == (if s.consecutivePlannerFailures + 1 >= MAX_CONSECUTIVE_PLANNER_FAILURES
                                        then Failed else s.status))
  {
    hide StoredBuffer, TailSlice, Interleave;
    if cmd.QueryPlanner? {
      RunFinality.NoAttemptsNoAnswer(cmd, j, s, config, reply);
      hide Outcome;
    }
  }

  lemma MuteIteration(m: Machine, start: State, config: Config, world: World)
    requires Mute(m, start) && m.pending != [] && !m.finished && config.plannerRetries == 0
    ensures Mute(Step(m, config, world), start)
    ensures var cmd, after := m.pending[0], Step(m, config, world);
            && !after.finished && after.turns == m.turns
            && (if cmd.LogStep? then after.pending == [] && after.state.status == m.state.status
                else if cmd.Observe? then |after.pending| == 1 && after.pending[0].QueryPlanner?
                else |after.pending| == 1 && after.pending[0].LogStep?)
            && (cmd.QueryPlanner? && m.state.consecutivePlannerFailures + 1 < MAX_CONSECUTIVE_PLANNER_FAILURES ==>
                  after.state.status.Active?)
            && after.state.consecutivePlannerFailures
               == m.state.consecutivePlannerFailures + (if cmd.QueryPlanner? then 1 else 0)
  {
    hide Step, Apply, Decide.Decide;
    var cmd, reply := m.pending[0], world(m.clock);
    var event := Apply(cmd, m.journal, m.state, config, reply).event;
    IterationIsStep(m, config, world);
    IterationShape(m, config, reply);
    EventOf(cmd, m.journal, m.state, config, reply);
    RecordOf(cmd, m.journal, m.state, config, reply);
    MuteFollows(cmd, m.journal, m.state, config, reply);
    CountersAfter(m.state, event, config, reply.effects);
    FlagsAfter(m.state, event, config, reply.effects);
  }

  lemma MuteTick(s: State, config: Config, ready: bool, alive: bool, effects: Effects)
    requires ArtifactRefreshTrigger(s, config) == "" && s.totalPromptTokens < config.summarizationTokenThreshold
    ensures Decide.Decide(s, LoopTick(ready, alive), config, effects)
         == if alive then Transition(s, [Observe]) else Transition(s.(status := Failed), [])
  {
  }

  lemma NoRefreshYet(s: State, turns: nat, start: State, config: Config)
    requires !RefreshComes(start, config) && s.currentStep == turns < 3 && turns < start.maxTurns
    requires s.totalPromptTokens == 0
    ensures ArtifactRefreshTrigger(s, config) == ""
  {
  }

  lemma MuteOpening(m: Machine, start: State, config: Config, world: World)
    requires Mute(m, start) && config.summarizationTokenThreshold > 0 && !RefreshComes(start, config)
    requires m.pending == [] && !m.finished && m.state.status.Active? && m.turns < m.state.maxTurns
    ensures Mute(Step(m, config, world), start)
  {
    hide Step, Decide.Decide, RefreshComes, Interleave;
    var reply := world(m.clock);
    NoRefreshYet(m.state, m.turns, start, config);
    MuteTick(m.state, config, reply.sessionAlive, reply.sessionAlive, reply.effects);
    OpeningShape(m, config, world);
  }

  lemma MuteStep(m: Machine, start: State, config: Config, world: World)
    requires Mute(m, start) && config.plannerRetries == 0 && config.summarizationTokenThreshold > 0
    requires !RefreshComes(start, config)
    ensures Mute(Step(m, config, world), start)
  {
    hide Step, RefreshComes, Decide.Decide, Apply;
    if !m.finished && m.pending != [] {
      hide Mute;
      MuteIteration(m, start, config, world);
    } else if !m.finished && m.state.status.Active? && m.turns < m.state.maxTurns {
      hide Mute;
      MuteOpening(m, start, config, world);
    } else {
      ClosingShape(m, config, world);
    }
  }

  lemma {:induction false} AlwaysMute(start: State, config: Config, world: World, n: nat)
    requires Fresh(start) && config.plannerRetries == 0 && config.summarizationTokenThreshold > 0
    requires !RefreshComes(start, config)
    ensures Mute(At(Start(start), config, world, n), start)
  {
    hide Step, RefreshComes;
    if n > 0 {
      hide Mute;
      AlwaysMute(start, config, world, n - 1);
      MuteStep(At(Start(start), config, world, n - 1), start, config, world);
    }
  }

  lemma MuteIsKnown(start: State, config: Config, world: World, n: nat)
    requires Fresh(start) && config.plannerRetries == 0 && config.summarizationTokenThreshold > 0
    requires !RefreshComes(start, config)
    ensures KnownAt(start, config, world, n)
  {
    hide At;
    AlwaysMute(start, config, world, n);
    AlwaysMute(start, config, world, n + 1);
  }

  // Where one is not -----------------------------------------------------------------

  /** Nothing ever reported the id, nothing created it, and it is not the
      parent's: a step that resumes it resumes an unknown session. */
  lemma UnknownResumed(start: State, config: Config, world: World, n: nat, i: nat)
    requires var m, after := At(Start(start), config, world, n), At(Start(start), config, world, n + 1);
             && |m.journal.attempts| <= i < |after.journal.attempts|
             && after.journal.attempts[i] == ResumeSession(start.claudeSessionId)
             && CreateSession(start.claudeSessionId) !in after.journal.attempts
             && !Reported(start.claudeSessionId, m.history, world, config)
    requires Parent(start) != Some(start.claudeSessionId)
    ensures !KnownAt(start, config, world, n)
  {
    hide At, Reported;
  }

  /** The summarizer makes one attempt before each attempt of the main thread,
      and before it observes. */
  function NoisyWorld(): World {
    _ => Reply(Effects("", ""), true, None, Container.Capture("", ""), Sent(true), [], 0, true, [1])
  }

  lemma NoisySubmission(one: Machine, config: Config) returns (two: Machine)
    requires |one.pending| == 2 && one.pending[0].SubmitSummarization? && one.pending[1] == Observe
    requires !one.finished && one.state.status.Active? && one.journal == EMPTY_JOURNAL
    requires |one.history| == 1 && one.history[0].cause.Opening?
    ensures two == Step(one, config, NoisyWorld())
    ensures two.pending != [] && two.pending[0] == Observe && !two.finished
    ensures two.journal.attempts == [] && two.journal.slot.InFlight?
    ensures two.state.claudeSessionId == one.state.claudeSessionId
    ensures forall id :: !Reported(id, two.history, NoisyWorld(), config)
  {
    hide Step, Decide.Decide;
    var w := NoisyWorld();
    two := Step(one, config, w);
    IterationIsStep(one, config, w);
    IterationShape(one, config, w(one.clock));
    IdentityAfter(one.state, LoopTick(false, true), config, w(one.clock).effects);
  }

  lemma NoisyObservation(two: Machine, config: Config)
    requires two.pending != [] && two.pending[0] == Observe && !two.finished
    requires two.journal.attempts == [] && two.journal.slot.InFlight? && two.state.claudeSessionId != ""
    ensures Step(two, config, NoisyWorld()).journal.attempts == [ResumeSession(two.state.claudeSessionId)]
  {
    hide Step, Decide.Decide;
    var w := NoisyWorld();
    IterationIsStep(two, config, w);
    IterationShape(two, config, w(two.clock));
    assert Repeat(ResumeSession(two.state.claudeSessionId), 1) == [ResumeSession(two.state.claudeSessionId)];
  }

  lemma NoisyMoments(start: State, config: Config)
    ensures var w, s := NoisyWorld(), Start(start);
            && At(s, config, w, 2) == Step(Step(s, config, w), config, w)
            && At(s, config, w, 3) == Step(Step(Step(s, config, w), config, w), config, w)
  {
    hide Step;
    assert At(Start(start), config, NoisyWorld(), 1) == Step(Start(start), config, NoisyWorld());
  }

  /** With a threshold of zero or less the summarizer resumes the run's session
      before any attempt has created it. */
  lemma SummarizerTooEarly(start: State, config: Config)
    requires Fresh(start) && start.claudeSessionId != "" && start.maxTurns > 0
    requires config.summarizationTokenThreshold <= 0 && Parent(start) != Some(start.claudeSessionId)
    ensures !KnownAt(start, config, NoisyWorld(), 2)
  {
    var w := NoisyWorld();
    var one := Step(Start(start), config, w);
    assert |one.pending| == 2 && one.pending[0].SubmitSummarization? && one.pending[1] == Observe;
    var two := NoisySubmission(one, config);
    NoisyObservation(two, config);
    NoisyMoments(start, config);
    hide Step;
    UnknownResumed(start, config, w, 2, 0);
  }

  // A fork whose own session never exists ---------------------------------------------

  /** Every query prints a claim of completion without a session id. */
  function AnonymousWorld(): World {
    RunUsage.OutputWorld(RunUsage.Claim(ZERO_USAGE))
  }

  lemma NoNames(id: string, history: seq<Entry>, config: Config)
    requires id != ""
    ensures !Reported(id, history, AnonymousWorld(), config)
  {
    forall i | 0 <= i < |history| ensures !ReportsId(history[i], AnonymousWorld()(i), config, id) {
      if config.plannerRetries > 0 {
        RunUsage.FirstOutput(RunUsage.Claim(ZERO_USAGE), config.plannerRetries);
      }
      hide Outcome;
    }
  }

  lemma {:induction false} InterleaveKeeps(main: seq<SessionArgs>, noise: SessionArgs, counts: seq<nat>)
    ensures |Interleave(main, noise, counts)| >= |main|
  {
    if main != [] {
      InterleaveKeeps(DropLast(main), noise, counts);
    }
  }

  /** A query with a budget makes an attempt. */
  lemma QueryAdds(cmd: RunState.Command, j: Journal, s: State, config: Config, reply: Reply)
    requires cmd.QueryPlanner? && config.plannerRetries > 0
    ensures |Apply(cmd, j, s, config, reply).journal.attempts| > |j.attempts|
  {
    hide Outcome;
    var main := AttemptArgs(reply.attempts, config.plannerRetries, s.claudeSessionId, cmd.firstCall,
                            cmd.resumeParent, cmd.forkSession);
    InterleaveKeeps(main, ResumingArgs(s.claudeSessionId), reply.background);
  }

  /** A forked run never creates its own session. */
  lemma ForksNeverCreate(start: State, config: Config, world: World, n: nat)
    requires Fresh(start) && start.claudeSessionId != "" && config.summarizationTokenThreshold > 0
    requires Parent(start).Some? || config.plannerRetries == 0
    ensures forall id :: CreateSession(id) !in At(Start(start), config, world, n).journal.attempts
  {
    hide At;
    AttemptsExact(start, config, world, n);
  }

  lemma ClaimAnswered(two: Machine, config: Config, printed: RunUsage.Tally, lost: RunUsage.Tally)
    requires |two.pending| == 1 && two.pending[0].QueryPlanner? && config.plannerRetries > 0
    requires two.state.status.Active? && !two.state.pendingCompletion
    requires RunUsage.Accounts(two, config, RunUsage.Claim(ZERO_USAGE), printed, lost)
    ensures var m := Step(two, config, AnonymousWorld());
            |m.pending| == 1 && m.pending[0].QueryPlanner? && !m.finished && !m.state.isFirstCall
  {
    hide Step, RunUsage.OutputWorld, RunUsage.Printed, RunUsage.TallyOf, RunUsage.Plus, Decide.Decide, Apply;
    var w := AnonymousWorld();
    RunUsage.ClaimQuery(two, config, ZERO_USAGE, printed, lost);
    IterationIsStep(two, config, w);
    IterationShape(two, config, w(two.clock));
    var event := Apply(two.pending[0], two.journal, two.state, config, w(two.clock)).event;
    EventOf(two.pending[0], two.journal, two.state, config, w(two.clock));
    FlagsAfter(two.state, event, config, w(two.clock).effects);
  }

  /** At the third step of the anonymous run the first claim has been made. */
  lemma ClaimMade(start: State, config: Config)
    requires Fresh(start) && start.maxTurns > 0 && config.summarizationTokenThreshold > 0
    requires config.plannerRetries > 0
    ensures var m := At(Start(start), config, AnonymousWorld(), 3);
            |m.pending| == 1 && m.pending[0].QueryPlanner? && !m.finished && !m.state.isFirstCall
  {
    hide Step, At, RunUsage.OutputWorld, RunUsage.Claim, RunUsage.Accounts;
    var output, m := RunUsage.Claim(ZERO_USAGE), Start(start);
    var w := AnonymousWorld();
    AtZero(m, config, w);
    RunUsage.OutputOpening(start, config, output);
    AtNext(m, config, w, 0);
    RunUsage.OutputObservation(At(m, config, w, 1), config, output);
    AtNext(m, config, w, 1);
    ClaimAnswered(At(m, config, w, 2), config, RunUsage.ZERO_TALLY, RunUsage.ZERO_TALLY);
    AtNext(m, config, w, 2);
  }

  /** A forked run whose first answer names no session goes on to resume a
      session that nothing ever opened, in its first drive. */
  lemma ForkResumesNothing(start: State, config: Config)
    requires Fresh(start) && start.claudeSessionId != "" && start.maxTurns > 0
    requires config.summarizationTokenThreshold > 0 && config.plannerRetries > 0
    requires Parent(start).Some? && Parent(start) != Some(start.claudeSessionId)
    ensures !KnownAt(start, config, AnonymousWorld(), 3)
  {
    hide At, Step, Apply, Decide.Decide, AnonymousWorld, Reported;
    var w, s := AnonymousWorld(), Start(start);
    var m := At(s, config, w, 3);
    ClaimMade(start, config);
    AlwaysNamed(start, config, w, 3);
    AlwaysIdentified(start, config, w, 3);
    OneSessionOpened(start, config, w, 3);
    NoNames(m.state.claudeSessionId, m.history, config);
    var cmd, reply := m.pending[0], w(m.clock);
    IterationIsStep(m, config, w);
    IterationShape(m, config, reply);
    AtNext(s, config, w, 3);
    var more := OthersResume(cmd, m.journal, m.state, config, reply);
    QueryAdds(cmd, m.journal, m.state, config, reply);
    ForksNeverCreate(start, config, w, 4);
    assert At(s, config, w, 4).journal.attempts[|m.journal.attempts|] == more[0];
    UnknownResumed(start, config, w, 3, |m.journal.attempts|);
  }

  // A run without a budget that refreshes ------------------------------------------

  lemma NothingReported(id: string, history: seq<Entry>, world: World, config: Config)
    requires config.plannerRetries == 0
    ensures !Reported(id, history, world, config)
  {
  }

  /** A refresh with nothing created resumes an unknown session. */
  lemma RefreshResumesNothing(start: State, config: Config, n: nat)
    requires Fresh(start) && start.claudeSessionId != "" && config.summarizationTokenThreshold > 0
    requires config.plannerRetries == 0 && Parent(start) != Some(start.claudeSessionId)
    requires var m := At(Start(start), config, RunStarvation.WorkingWorld(None), n);
             m.pending != [] && m.pending[0].RefreshArtifacts? && !m.finished && m.journal.slot.Idle?
    ensures !KnownAt(start, config, RunStarvation.WorkingWorld(None), n)
  {
    hide At, Step, Apply, Decide.Decide, Reported;
    var w, s := RunStarvation.WorkingWorld(None), Start(start);
    var m := At(s, config, w, n);
    AlwaysNamed(start, config, w, n);
    NothingReported(m.state.claudeSessionId, m.history, w, config);
    NothingReported(start.claudeSessionId, m.history, w, config);
    IterationIsStep(m, config, w);
    IterationShape(m, config, w(m.clock));
    AtNext(s, config, w, n);
    var more := AddsOnly(m.pending[0], m.journal, m.state, config, w(m.clock));
    ForksNeverCreate(start, config, w, n + 1);
    assert more == Repeat(ResumingArgs(start.claudeSessionId), 1);
    assert At(s, config, w, n + 1).journal.attempts[|m.journal.attempts|] == more[0];
    UnknownResumed(start, config, w, n, |m.journal.attempts|);
  }

  /** A turn of a run without a budget: observe, fail, log. */
  lemma MuteTurn(m: Machine, start: State, config: Config) returns (after: Machine)
    requires Mute(m, start) && RunStarvation.Ready(m, 1)
    requires config.plannerRetries == 0 && config.summarizationTokenThreshold > 0
    requires ArtifactRefreshTrigger(m.state, config) == "" && m.turns < 2
    ensures after == At(m, config, RunStarvation.WorkingWorld(None), 4)
    ensures Mute(after, start) && after.pending == [] && !after.finished && after.state.status.Active?
    ensures after.turns == m.turns + 1
  {
    hide Step, Decide.Decide, Apply, At, ArtifactRefreshTrigger;
    var w := RunStarvation.WorkingWorld(None);
    RunStarvation.TickOpens(m, config, None);
    TickObserves(m.state, config);
    MuteOpened(m, Step(m, config, w), start, config);
    var one := Step(m, config, w);
    MuteIteration(one, start, config, w);
    var two := Step(one, config, w);
    MuteIteration(two, start, config, w);
    var three := Step(two, config, w);
    MuteIteration(three, start, config, w);
    after := Step(three, config, w);
    AtZero(m, config, w);
    AtNext(m, config, w, 0);
    AtNext(m, config, w, 1);
    AtNext(m, config, w, 2);
    AtNext(m, config, w, 3);
  }

  lemma TickObserves(s: State, config: Config)
    requires ArtifactRefreshTrigger(s, config) == "" && s.totalPromptTokens < config.summarizationTokenThreshold
    ensures OnLoopTick(s, config, true, true).commands == [Observe]
  {
  }

  lemma MuteOpened(m: Machine, after: Machine, start: State, config: Config)
    requires Mute(m, start) && RunStarvation.Ready(m, 1)
    requires after == Step(m, config, RunStarvation.WorkingWorld(None)) && after.pending == [Observe]
    requires after.state == m.state && after.turns == m.turns + 1 && after.journal.slot == m.journal.slot
    ensures Mute(after, start)
  {
    hide Step, Decide.Decide, Interleave;
    OpeningShape(m, config, RunStarvation.WorkingWorld(None));
  }

  /** Such a run refreshes, at its second or third turn. */
  lemma RefreshArrives(start: State, config: Config) returns (n: nat)
    requires Fresh(start) && config.plannerRetries == 0 && config.summarizationTokenThreshold > 0
    requires RefreshComes(start, config)
    ensures var m := At(Start(start), config, RunStarvation.WorkingWorld(None), n);
            m.pending != [] && m.pending[0].RefreshArtifacts? && !m.finished && m.journal.slot.Idle?
  {
    hide Step, Decide.Decide, Apply, At;
    var w, s := RunStarvation.WorkingWorld(None), Start(start);
    AtZero(s, config, w);
    var first := MuteTurn(s, start, config);
    if config.stateDumpIntervalTurns == 1 || config.stateDumpTokenThreshold <= 0 {
      RunStarvation.TickOpens(first, config, None);
      n := 5;
      AtNext(s, config, w, 4);
    } else {
      var second := MuteTurn(first, start, config);
      AtCompose(s, config, w, 4, 4);
      RunStarvation.TickOpens(second, config, None);
      n := 9;
      AtNext(s, config, w, 8);
    }
  }

  // Exactly when ---------------------------------------------------------------------

  /** What the configuration must grant for every resumed session to exist. */
  predicate SessionsExist(start: State, config: Config) {
    || start.maxTurns == 0
    || Parent(start) == Some(start.claudeSessionId)
    || (&& config.summarizationTokenThreshold > 0
        && if config.plannerRetries > 0 then Parent(start).None? else !RefreshComes(start, config))
  }

  /** In every world every attempt of a run resumes a session that exists if and
      only if: it has no turns; or its parent's session is its own; or, with a
      positive summarization threshold, it is not forked and has a retry budget,
      or has none and fails before any refresh. */
  lemma KnownIff(start: State, config: Config)
    requires Fresh(start) && start.claudeSessionId != ""
    ensures (forall world: World, n: nat :: KnownAt(start, config, world, n)) <==> SessionsExist(start, config)
  {
    hide KnownAt;
    if SessionsExist(start, config) {
      forall world: World, n: nat ensures KnownAt(start, config, world, n) {
        if Parent(start) == Some(start.claudeSessionId) {
          KnownToParent(start, config, world, n);
        } else if start.maxTurns == 0 {
          NoTurnsNoAttempts(start, config, world, n);
        } else if config.plannerRetries > 0 {
          KnownOnceCreated(start, config, world, n);
        } else {
          MuteIsKnown(start, config, world, n);
        }
      }
    } else if config.summarizationTokenThreshold <= 0 {
      SummarizerTooEarly(start, config);
    } else if config.plannerRetries > 0 {
      ForkResumesNothing(start, config);
    } else {
      var n := RefreshArrives(start, config);
      RefreshResumesNothing(start, config, n);
    }
  }

  lemma NoTurnsNoAttempts(start: State, config: Config, world: World, n: nat)
    requires Fresh(start) && start.maxTurns == 0
    ensures KnownAt(start, config, world, n)
  {
    RunSessions.NoTurnsEnds(start, config, world, n);
    RunSessions.NoTurnsEnds(start, config, world, n + 1);
    hide At, Reported;
  }
}
