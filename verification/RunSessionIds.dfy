/** Which CLI session each attempt of a run continues. */
module RunSessionIds {
  import opened Prelude
  import opened RunState
  import opened Decide
  import opened DecideHistory
  import opened Planner
  import opened Shell
  import opened Machine
  import opened RunJournal
  import RunSessions
  import SummarizeWorker

  /** The parent session a run forks; the empty id forks nothing. */
  function Parent(start: State): Option<string> {
    if start.fork.Some? && start.fork.value.resumeParentSession != "" then Some(start.fork.value.resumeParentSession)
    else None
  }

  /** The run's very first attempt. */
  function FirstArgs(start: State): SessionArgs {
    if Parent(start).Some? then ForkSession(Parent(start).value) else CreateSession(start.claudeSessionId)
  }

  /** A retry of the first query: a forked run resumes its parent, not itself. */
  function RetryArgs(start: State): SessionArgs {
    ResumeSession(if Parent(start).Some? then Parent(start).value else start.claudeSessionId)
  }

  /** The first k attempts are the first query's; all others resume `sessionId`. */
  predicate Follows(attempts: seq<SessionArgs>, start: State, k: nat, sessionId: string) {
    && k <= |attempts|
    && forall i | 0 <= i < |attempts| ::
         attempts[i]
         == if i >= k then ResumeSession(sessionId) else if i == 0 then FirstArgs(start) else RetryArgs(start)
  }

  /** Until the first planner outcome the state still is what the first query
      will be made from. */
  predicate Waiting(m: Machine, start: State) {
    && m.journal.attempts == []
    && m.state.fork == start.fork && m.state.claudeSessionId == start.claudeSessionId
    && forall i | 0 <= i < |m.pending| && m.pending[i].QueryPlanner? ::
         var parent := if start.fork.Some? then Some(start.fork.value.resumeParentSession) else None;
         m.pending[i].firstCall && m.pending[i].resumeParent == parent && m.pending[i].forkSession == parent.Some?
  }

  /** The first query makes so many attempts: none only without a budget. */
  predicate FirstCount(k: nat, config: Config) {
    k <= config.plannerRetries && (config.plannerRetries > 0 ==> k > 0)
  }

  ghost predicate Identified(m: Machine, start: State, config: Config) {
    && m.state.claudeSessionId != ""
    && if m.state.isFirstCall then Waiting(m, start)
       else exists k: nat :: FirstCount(k, config) && Follows(m.journal.attempts, start, k, m.state.claudeSessionId)
  }

  predicate AllAre(attempts: seq<SessionArgs>, args: SessionArgs) {
    forall i | 0 <= i < |attempts| :: attempts[i] == args
  }

  lemma {:induction false} InterleaveAllAre(main: seq<SessionArgs>, noise: SessionArgs, counts: seq<nat>)
    requires AllAre(main, noise)
    ensures AllAre(Interleave(main, noise, counts), noise)
  {
    if main != [] {
      InterleaveAllAre(DropLast(main), noise, counts);
    }
  }

  lemma FollowsOn(
    attempts: seq<SessionArgs>, more: seq<SessionArgs>, start: State, k: nat, sessionId: string)
    requires Follows(attempts, start, k, sessionId) && AllAre(more, ResumeSession(sessionId))
    ensures Follows(attempts + more, start, k, sessionId)
  {
  }

  /** Whatever is not a first query only adds attempts that resume the current session. */
  lemma OthersResume(cmd: RunState.Command, j: Journal, s: State, config: Config, reply: Reply)
    returns (more: seq<SessionArgs>)
    requires (!cmd.QueryPlanner? || Resumes(cmd)) && s.claudeSessionId != ""
    ensures Apply(cmd, j, s, config, reply).journal.attempts == j.attempts + more
    ensures AllAre(more, ResumeSession(s.claudeSessionId))
    ensures !cmd.QueryPlanner? && !cmd.RefreshArtifacts? && j.slot.Idle? ==> more == []
  {
    var sid := s.claudeSessionId;
    var main :=
      match cmd
      case QueryPlanner(_, first, parent, fork) =>
        AttemptArgs(reply.attempts, config.plannerRetries, sid, first, parent, fork)
      case RefreshArtifacts(_) => Repeat(ResumingArgs(sid), reply.refreshCalls)
      case _ => [];
    forall i | 0 <= i < |main| ensures main[i] == ResumeSession(sid) {
      if cmd.QueryPlanner? {
        ArgAt(AttemptCount(reply.attempts, config.plannerRetries), sid, false, None, false, i);
      }
    }
    InterleaveAllAre(main, ResumeSession(sid), reply.background);
    more := if j.slot.Idle? then main else Interleave(main, ResumingArgs(sid), reply.background);
    hide AttemptArgs, Outcome;
  }

  /** The first query's attempts. */
  lemma FirstQuery(cmd: RunState.Command, j: Journal, s: State, start: State, config: Config, reply: Reply)
    requires cmd.QueryPlanner? && cmd.firstCall && j.slot.Idle? && j.attempts == []
    requires start.claudeSessionId != "" && s.claudeSessionId == start.claudeSessionId
    requires cmd.resumeParent == (if start.fork.Some? then Some(start.fork.value.resumeParentSession) else None)
    requires cmd.forkSession == cmd.resumeParent.Some?
    ensures var attempts := Apply(cmd, j, s, config, reply).journal.attempts;
            FirstCount(|attempts|, config)
            && forall sessionId :: Follows(attempts, start, |attempts|, sessionId)
  {
    var k := AttemptCount(reply.attempts, config.plannerRetries);
    var main := AttemptArgs(reply.attempts, config.plannerRetries, s.claudeSessionId, true, cmd.resumeParent,
                            cmd.forkSession);
    forall i | 0 <= i < |main| ensures main[i] == if i == 0 then FirstArgs(start) else RetryArgs(start) {
      ArgAt(k, s.claudeSessionId, true, cmd.resumeParent, cmd.forkSession, i);
    }
    hide AttemptArgs, AttemptCount, Outcome;
    assert Apply(cmd, j, s, config, reply).journal.attempts == main;
  }

  /** How one decide call moves what the next query is made from. */
  lemma IdentityAfter(s: State, event: Event, config: Config, effects: Effects)
    ensures var t := Decide.Decide(s, event, config, effects);
            && t.state.claudeSessionId
               == (if event.PlannerResponded? && s.isFirstCall && event.usage.claudeSessionId != ""
                   then event.usage.claudeSessionId else s.claudeSessionId)
            && (!event.PlannerResponded? ==> t.state.fork == s.fork)
            && (!event.PlannerResponded? && !event.PlannerFailed? && s.isFirstCall ==>
                  forall i | 0 <= i < |t.commands| && t.commands[i].QueryPlanner? ::
                    var parent := if s.fork.Some? then Some(s.fork.value.resumeParentSession) else None;
                    && t.commands[i].firstCall && t.commands[i].resumeParent == parent
                    && t.commands[i].forkSession == parent.Some?)
  {
    hide AgentStep, SystemStep, ErrorStep, ArtifactRefreshTrigger, StoredBuffer, BuildJob, TailSlice;
  }

  lemma IterationIdentified(m: Machine, start: State, config: Config, reply: Reply)
    requires Identified(m, start, config) && Sessions(m) && m.pending != [] && start.claudeSessionId != ""
    ensures Identified(Iterate(m, config, reply), start, config)
  {
    hide Apply, Decide.Decide, Iterate, FirstArgs, RetryArgs, OnlyFirstOpens;
    var cmd := m.pending[0];
    var event := Apply(cmd, m.journal, m.state, config, reply).event;
    IdentityAfter(m.state, event, config, reply.effects);
    FlagsAfter(m.state, event, config, reply.effects);
    EventOf(cmd, m.journal, m.state, config, reply);
    IterationShape(m, config, reply);
    var after := Iterate(m, config, reply);
    if m.state.isFirstCall && cmd.QueryPlanner? {
      FirstQuery(cmd, m.journal, m.state, start, config, reply);
      assert Follows(after.journal.attempts, start, |after.journal.attempts|, after.state.claudeSessionId);
    } else {
      var more := OthersResume(cmd, m.journal, m.state, config, reply);
      if !m.state.isFirstCall {
        var k: nat :| FirstCount(k, config) && Follows(m.journal.attempts, start, k, m.state.claudeSessionId);
        FollowsOn(m.journal.attempts, more, start, k, m.state.claudeSessionId);
      }
    }
  }

  lemma OpeningIdentified(m: Machine, start: State, config: Config, world: World)
    requires Identified(m, start, config) && Sessions(m)
    requires m.pending == [] && !m.finished && m.state.status.Active? && m.turns < m.state.maxTurns
    ensures Identified(Step(m, config, world), start, config)
  {
    hide Step, Decide.Decide, PollEvent, FirstArgs, RetryArgs, OnlyFirstOpens, Interleave;
    var reply := world(m.clock);
    var event := PollEvent(m.journal.slot, reply);
    OpeningShape(m, config, world);
    TurnEvents(m.journal.slot, reply);
    IdentityAfter(m.state, event, config, reply.effects);
    FlagsAfter(m.state, event, config, reply.effects);
    var noise := ResumeSession(m.state.claudeSessionId);
    InterleaveAllAre([], noise, reply.background);
    if !m.state.isFirstCall {
      var k: nat :| FirstCount(k, config) && Follows(m.journal.attempts, start, k, m.state.claudeSessionId);
      FollowsOn(m.journal.attempts, if m.journal.slot.Idle? then [] else Interleave([], noise, reply.background),
                start, k, m.state.claudeSessionId);
    }
  }

  lemma TurnEvents(slot: SummarizeWorker.Slot, reply: Reply)
    ensures !PollEvent(slot, reply).PlannerResponded? && !PollEvent(slot, reply).PlannerFailed?
  {
  }

  lemma StepIdentified(m: Machine, start: State, config: Config, world: World)
    requires Identified(m, start, config) && Sessions(m) && start.claudeSessionId != ""
    ensures Identified(Step(m, config, world), start, config)
  {
    hide Iterate, Open, Sessions, Follows;
    if m.finished {
    } else if m.pending != [] {
      IterationIdentified(m, start, config, world(m.clock));
    } else if m.state.status.Active? && m.turns < m.state.maxTurns {
      OpeningIdentified(m, start, config, world);
    }
  }

  lemma {:induction false} AlwaysIdentified(start: State, config: Config, world: World, n: nat)
    requires Fresh(start) && start.claudeSessionId != "" && config.summarizationTokenThreshold > 0
    ensures Identified(At(Start(start), config, world, n), start, config)
  {
    hide Step, Sessions, Follows;
    if n > 0 {
      AlwaysIdentified(start, config, world, n - 1);
      OneSessionOpened(start, config, world, n - 1);
      StepIdentified(At(Start(start), config, world, n - 1), start, config, world);
    }
  }

  /** Which session every attempt of every run is for: the first query's first
      attempt creates the run's session or forks the parent's, its retries
      resume the run's session or (in a fork) the parent's, and every other
      attempt (later queries, refreshes, the summarizer's) resumes the session
      the state names now. */
  lemma AttemptsExact(start: State, config: Config, world: World, n: nat)
    requires Fresh(start) && start.claudeSessionId != "" && config.summarizationTokenThreshold > 0
    ensures var m := At(Start(start), config, world, n);
            if m.state.isFirstCall then m.journal.attempts == []
            else exists k: nat :: FirstCount(k, config)
                                  && Follows(m.journal.attempts, start, k, m.state.claudeSessionId)
  {
    hide At;
    AlwaysIdentified(start, config, world, n);
  }

  /** Every attempt after the first names the session id the run started with or
      the one it has now (whether or not anything opened it). */
  predicate NamesItself(attempts: seq<SessionArgs>, start: State, sessionId: string) {
    forall i | 1 <= i < |attempts| ::
      attempts[i] == ResumeSession(start.claudeSessionId) || attempts[i] == ResumeSession(sessionId)
  }

  /** A run only ever names itself, in every world, exactly if it is not forked,
      or its first query is never retried (or the parent's session is its own). */
  lemma NamesItselfIff(start: State, config: Config)
    requires Fresh(start) && start.claudeSessionId != "" && config.summarizationTokenThreshold > 0
    requires start.maxTurns > 0
    ensures (forall world: World, n: nat ::
               var m := At(Start(start), config, world, n);
               NamesItself(m.journal.attempts, start, m.state.claudeSessionId))
            <==> || Parent(start).None? || Parent(start).value == start.claudeSessionId
                 || config.plannerRetries <= 1
  {
    hide At;
    if Parent(start).None? || Parent(start).value == start.claudeSessionId || config.plannerRetries <= 1 {
      forall world: World, n: nat
        ensures var m := At(Start(start), config, world, n);
                NamesItself(m.journal.attempts, start, m.state.claudeSessionId)
      {
        AttemptsExact(start, config, world, n);
      }
    } else {
      var m := ForkRetried(start, config);
    }
  }

  /** A forked run whose first attempt times out resumes its parent. */
  lemma ForkRetried(start: State, config: Config) returns (m: Machine)
    requires Fresh(start) && start.claudeSessionId != "" && config.summarizationTokenThreshold > 0
    requires start.maxTurns > 0 && config.plannerRetries > 1
    requires Parent(start).Some? && Parent(start).value != start.claudeSessionId
    ensures m == At(Start(start), config, RunSessions.SilentWorld(), 3)
    ensures |m.journal.attempts| > 1 && m.journal.attempts[1] == ResumeSession(Parent(start).value)
    ensures !NamesItself(m.journal.attempts, start, m.state.claudeSessionId)
  {
    var w := RunSessions.SilentWorld();
    var one := Step(Start(start), config, w);
    assert one.pending == [Observe] && one.state == start && one.journal == EMPTY_JOURNAL;
    var two := Step(one, config, w);
    assert |two.pending| == 1 && two.pending[0].QueryPlanner? && two.pending[0].firstCall
        && two.pending[0].forkSession && two.pending[0].resumeParent == Parent(start);
    m := Step(two, config, w);
    ThreeSteps(start, config, w);
    hide Step, Decide.Decide;
    SilentAttempts(two, start, config, m);
  }

  lemma ThreeSteps(start: State, config: Config, w: World)
    ensures At(Start(start), config, w, 3) == Step(Step(Step(Start(start), config, w), config, w), config, w)
  {
    hide Step;
    assert At(Start(start), config, w, 1) == Step(Start(start), config, w);
    assert At(Start(start), config, w, 2) == Step(Step(Start(start), config, w), config, w);
  }

  lemma SilentAttempts(two: Machine, start: State, config: Config, three: Machine)
    requires |two.pending| == 1 && two.pending[0].QueryPlanner? && two.pending[0].firstCall
    requires two.pending[0].forkSession && two.pending[0].resumeParent == Parent(start) && Parent(start).Some?
    requires !two.finished && two.journal == EMPTY_JOURNAL && two.state.claudeSessionId == start.claudeSessionId
    requires three == Step(two, config, RunSessions.SilentWorld())
    requires config.plannerRetries > 1
    ensures |three.journal.attempts| == config.plannerRetries
    ensures three.journal.attempts[1] == ResumeSession(Parent(start).value)
    ensures three.state.claudeSessionId == start.claudeSessionId
  {
    hide Step, Decide.Decide;
    var w, cmd := RunSessions.SilentWorld(), two.pending[0];
    IterationIsStep(two, config, w);
    IterationShape(two, config, w(two.clock));
    RunSessions.NoPrintMeansAllAttempts(config.plannerRetries);
    ArgAt(config.plannerRetries, start.claudeSessionId, true, cmd.resumeParent, true, 1);
    var event := Apply(cmd, two.journal, two.state, config, w(two.clock)).event;
    FlagsAfter(two.state, event, config, w(two.clock).effects);
  }
}
