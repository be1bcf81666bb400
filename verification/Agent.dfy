/** The imperative loops of `termiclaw/agent.py` and the dispatch of
    `termiclaw/shell.py`, proved to walk the transition system of `Machine`. */
module Agent {
  import opened Prelude
  import opened RunState
  import opened Decide
  import opened Shell
  import opened Machine
  import opened RunTermination
  import Container
  import DecideHistory
  import Planner
  import RunJournal
  import SummarizeWorker

  /** The one-cell handle the summarizer's closure reads the session id from. */
  class StateHolder {
    var state: State

    constructor (state: State)
      ensures this.state == state
    {
      this.state := state;
    }
  }

  /** The ports bundle: append-only records, the worker, and a world that
      answers call number `clock`. */
  class Ports {
    const world: World
    const holder: StateHolder
    const worker: SummarizeWorker.SummarizationWorker
    var trajectory: seq<StepRecord>
    var rows: seq<Row>
    var attempts: seq<Planner.SessionArgs>
    var escaped: bool
    var clock: nat

    ghost predicate Valid()
      reads this, worker
    {
      worker.Valid()
    }

    ghost function Contents(): Journal
      reads this, worker
    {
      Journal(trajectory, rows, attempts, worker.future, worker.submitted, worker.delivered, escaped)
    }

    constructor (world: World, holder: StateHolder)
      ensures Valid() && fresh(worker) && this.world == world && this.holder == holder
      ensures Contents() == EMPTY_JOURNAL && clock == 0
    {
      this.world, this.holder := world, holder;
      this.worker := new SummarizeWorker.SummarizationWorker();
      trajectory, rows, attempts, escaped, clock := [], [], [], false, 0;
    }

    /** The main thread makes `main` attempts; a busy summarizer's own slip in between. */
    method MakeAttempts(main: seq<Planner.SessionArgs>)
      requires Valid()
      modifies this`attempts
      ensures Valid()
      ensures Contents() == Attempted(old(Contents()), main, holder.state.claudeSessionId, world(clock).background)
    {
      var noise := ResumingArgs(holder.state.claudeSessionId);
      attempts := attempts + if worker.IsIdle() then main else Interleave(main, noise, world(clock).background);
    }

    /** `apply`: perform one command's effect and report one event. */
    method Perform(cmd: RunState.Command, state: State, config: Config) returns (event: Event)
      requires Valid() && holder.state == state
      modifies this`attempts, this`trajectory, this`rows, this`escaped, worker
      ensures Valid()
      ensures var applied := Apply(cmd, old(Contents()), state, config, world(clock));
              event == applied.event && Contents() == applied.journal
    {
      var reply := world(clock);
      match cmd {
        case Observe =>
          MakeAttempts([]);
          var seen := Container.IncrementalOutput(state.previousBuffer, reply.capture);
          event := ObservationCaptured(seen.text, seen.nextBuffer);
        case SendKeys(_, _) =>
          MakeAttempts([]);
          event := KeysEvent(reply.keys, false);
        case ForceInterrupt(_) =>
          MakeAttempts([]);
          event := KeysEvent(reply.keys, true);
        case QueryPlanner(_, first, parent, fork) =>
          var outcome, main :=
            Planner.Query(reply.attempts, config.plannerRetries, state.claudeSessionId, first, parent, fork);
          MakeAttempts(main);
          event := AnswerEvent(outcome);
        case SubmitSummarization(job) =>
          MakeAttempts([]);
          var accepted := worker.Submit(job);
          escaped := escaped || !accepted;
          event := LoopTick(false, true);
        case RefreshArtifacts(trigger) =>
          MakeAttempts(Repeat(ResumingArgs(state.claudeSessionId), reply.refreshCalls));
          event := if reply.refreshOk then ArtifactsRefreshed(trigger) else ArtifactsRefreshFailed;
        case LogStep(step, usage) =>
          MakeAttempts([]);
          trajectory := trajectory + [step];
          rows := rows + [Row(state.currentStep, step, usage)];
          event := StepLogged(step);
      }
    }

    /** Poll the worker and the session at the top of a turn. */
    method TurnEvent(state: State) returns (event: Event)
      requires Valid() && holder.state == state
      modifies this`attempts, worker
      ensures Valid()
      ensures event == PollEvent(old(worker.future), world(clock))
      ensures Contents() == Polled(old(Contents()), state, world(clock))
    {
      var reply := world(clock);
      MakeAttempts([]);
      var polled := worker.Poll(reply.finished);
      match polled {
        case Some(Completed(summary, qa)) => event := SummarizationDone(summary, qa);
        case Some(Raised) => event := SummarizationFailed;
        case None =>
          var idle := worker.IsIdle();
          event := LoopTick(idle && reply.sessionAlive, reply.sessionAlive);
      }
    }

    /** A fresh id and timestamp; one pair per decide call. */
    method DrawEffects() returns (effects: Effects)
      modifies this`clock
      ensures effects == world(old(clock)).effects && clock == old(clock) + 1
    {
      effects := world(clock).effects;
      clock := clock + 1;
    }
  }

  /** The part of a machine the running code holds. */
  ghost predicate Mirrors(m: Machine, state: State, pending: seq<RunState.Command>, ports: Ports)
    reads ports, ports.worker, ports.holder
  {
    && ports.Valid()
    && m.state == state == ports.holder.state
    && m.pending == pending
    && m.journal == ports.Contents()
    && m.clock == ports.clock
    && !m.finished
  }

  /** m is n iterations into the drive that `seeded` opened. */
  ghost predicate OnDrive(seeded: Machine, m: Machine, config: Config, world: World, n: nat) {
    && m == At(seeded, config, world, n) && Driving(seeded, config, world, n)
    && m.turns == seeded.turns && m.state.maxTurns == seeded.state.maxTurns
  }

  ghost function Left(m: Machine, keys: nat): int {
    DriveCost(m) + 5 * (keys - KeysSent(m.history))
  }

  /** `_drive`: from the machine `seeded` just after the opening decide call,
      the loop follows the machine step by step until the queue is empty. It
      ends because the responses within it hold at most `keys` keystroke commands. */
  method Drive(state: State, initial: Event, config: Config, ports: Ports, ghost seeded: Machine, ghost keys: nat)
    returns (result: State, ghost n: nat, ghost end: Machine)
    requires ports.Valid() && !seeded.finished
    requires var t := Decide.Decide(state, initial, config, ports.world(ports.clock).effects);
             seeded.state == t.state && seeded.pending == t.commands
    requires seeded.journal == ports.Contents() && seeded.clock == ports.clock + 1
    requires DriveKeysBounded(seeded, config, ports.world, keys)
    modifies ports, ports.worker, ports.holder
    ensures OnDrive(seeded, end, config, ports.world, n)
    ensures Mirrors(end, result, [], ports)
  {
    hide Decide.Decide, Apply, OnDrive, DriveKeysBounded, Left;
    var effects := ports.DrawEffects();
    var transition := Decide.Decide(state, initial, config, effects);
    result := transition.state;
    ports.holder.state := result;
    var pending := transition.commands;
    n, end := 0, seeded;
    DriveBegins(seeded, config, ports.world);
    while pending != []
      invariant OnDrive(seeded, end, config, ports.world, n) && Mirrors(end, result, pending, ports)
      decreases Left(end, keys)
    {
      var wasActive := result.status == Active;
      var cmd := pending[0];
      pending := pending[1..];
      var event := ports.Perform(cmd, result, config);
      effects := ports.DrawEffects();
      var sub := Decide.Decide(result, event, config, effects);
      end := DriveStep(seeded, end, config, ports.world, n, keys);
      result := sub.state;
      ports.holder.state := result;
      if wasActive {
        pending := pending + sub.commands;
      }
      n := n + 1;
    }
  }

  lemma DriveBegins(seeded: Machine, config: Config, world: World)
    ensures OnDrive(seeded, seeded, config, world, 0)
  {
    hide Step, DriveCost;
  }

  /** One iteration of a drive, as the loop sees it. */
  lemma DriveStep(seeded: Machine, m: Machine, config: Config, world: World, n: nat, keys: nat)
    returns (next: Machine)
    requires OnDrive(seeded, m, config, world, n) && m.pending != [] && !m.finished
    requires DriveKeysBounded(seeded, config, world, keys)
    ensures OnDrive(seeded, next, config, world, n + 1) && !next.finished
    ensures 0 <= Left(next, keys) < Left(m, keys)
    ensures var applied := Apply(m.pending[0], m.journal, m.state, config, world(m.clock));
            var t := Decide.Decide(m.state, applied.event, config, world(m.clock).effects);
            && next.state == t.state
            && next.pending == (if m.state.status.Active? then m.pending[1..] + t.commands else m.pending[1..])
            && next.journal == applied.journal
            && next.clock == m.clock + 1
  {
    hide Decide.Decide, Apply, Step, Iterate, KeysSent, DriveCost, At;
    next := Iterate(m, config, world(m.clock));
    IterationShape(m, config, world(m.clock));
    IterationIsStep(m, config, world);
    AtNext(seeded, config, world, n);
    IterationDescends(m, config, world(m.clock));
    assert Driving(seeded, config, world, n + 1);
  }

  /** A bound on a run's keystroke commands is a bound on each of its drives. */
  lemma LaterKeys(start: Machine, config: Config, world: World, n: nat, keys: nat)
    requires KeysBounded(start, config, world, keys)
    ensures DriveKeysBounded(At(start, config, world, n), config, world, keys)
  {
    hide At, KeysSent;
    forall k: nat ensures KeysSent(At(At(start, config, world, n), config, world, k).history) <= keys {
      AtCompose(start, config, world, n, k);
      assert KeysSent(At(start, config, world, n + k).history) <= keys;
    }
  }

  /** What the theorems about runs say of the machine that has just finished. */
  lemma RunEnds(start: State, config: Config, world: World, n: nat, keys: nat)
    requires !At(Start(start), config, world, n).finished && KeysBounded(Start(start), config, world, keys)
    ensures n < 2 + TURN_COST * start.maxTurns + 5 * keys
    ensures DecideHistory.Fresh(start) ==>
              var m := At(Start(start), config, world, n + 1);
              !m.journal.escaped && m.state.currentStep == |m.journal.trajectory| == |m.journal.rows|
  {
    hide At, KeysSent;
    PotentialBound(start, config, world, n);
    assert KeysSent(At(Start(start), config, world, n).history) <= keys;
    if DecideHistory.Fresh(start) {
      RunJournal.StepIndicesExact(start, config, world, n + 1);
      RunJournal.SubmitNeverRaises(start, config, world, n + 1);
    }
  }

  /** `_run_turns`: the whole loop. The result is the final state of a finished
      run of the machine, so every theorem about runs is a theorem about what
      this method returns and what it leaves in the ports. */
  method RunTurns(start: State, config: Config, ports: Ports, ghost keys: nat)
    returns (result: State, ghost n: nat)
    requires start.status.Active?
    requires ports.Valid() && ports.Contents() == EMPTY_JOURNAL && ports.clock == 0
    requires KeysBounded(Start(start), config, ports.world, keys)
    modifies ports, ports.worker, ports.holder
    ensures var m := At(Start(start), config, ports.world, n);
            m.finished && m.state == result && m.journal == ports.Contents()
    ensures result.status != Active
    ensures n <= 2 + TURN_COST * start.maxTurns + 5 * keys
    ensures DecideHistory.Fresh(start) ==>
              !ports.escaped && result.currentStep == |ports.trajectory| == |ports.rows|
  {
    hide Decide.Decide, Apply, Step, Iterate, KeysSent, DriveCost, PollEvent, Polled, At, KeysBounded;
    result := start;
    n := 0;
    ghost var m := Start(start);
    AtZero(m, config, ports.world);
    ports.holder.state := result;
    for turn := 0 to start.maxTurns
      invariant m == At(Start(start), config, ports.world, n)
      invariant Mirrors(m, result, [], ports)
      invariant m.turns == turn && m.state.maxTurns == start.maxTurns
      invariant result.status == Active
    {
      ports.holder.state := result;
      var event := ports.TurnEvent(result);
      OpeningShape(m, config, ports.world);
      StepDescends(m, config, ports.world);
      ghost var seeded := Step(m, config, ports.world);
      AtNext(Start(start), config, ports.world, n);
      LaterKeys(Start(start), config, ports.world, n + 1, keys);
      ghost var used;
      result, used, m := Drive(result, event, config, ports, seeded, keys);
      AtCompose(Start(start), config, ports.world, n + 1, used);
      n := n + 1 + used;
      if result.status != Active {
        ClosingShape(m, config, ports.world);
        AtNext(Start(start), config, ports.world, n);
        RunEnds(start, config, ports.world, n, keys);
        n := n + 1;
        return;
      }
    }
    ClosingShape(m, config, ports.world);
    AtNext(Start(start), config, ports.world, n);
    RunEnds(start, config, ports.world, n, keys);
    n := n + 1;
    result := result.(status := Failed);
  }
}
