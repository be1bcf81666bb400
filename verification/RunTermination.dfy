/** How long a run can last: every step of the loop is paid for by the turn
    budget or by a keystroke command the planner sent. */
module RunTermination {
  import opened Prelude
  import opened RunState
  import opened Decide
  import opened Shell
  import opened Machine
  import DecideHistory
  import SummarizeWorker

  /** SendKeys > Observe > QueryPlanner > RefreshArtifacts > LogStep. */
  function Weight(cmd: RunState.Command): int {
    match cmd
    case LogStep(_, _) => 1
    case RefreshArtifacts(_) => 2
    case QueryPlanner(_, _, _, _) => 3
    case Observe => 4
    case _ => 5
  }

  function Bit(state: State): int {
    if state.pendingCompletion then 0 else 1
  }

  function KeysIn(event: Event): nat {
    if event.PlannerResponded? then |event.parsed.commands| else 0
  }

  /** Keystroke commands in all planner responses so far. */
  function KeysSent(history: seq<Entry>): nat {
    if history == [] then 0 else KeysSent(DropLast(history)) + KeysIn(Last(history).event)
  }

  /** What the rest of a drive can still cost. */
  function DriveCost(m: Machine): int {
    Total(Weight, m.pending) + Bit(m.state)
  }

  const TURN_COST := 10

  function Potential(m: Machine): int {
    if m.finished then 0 else 1 + DriveCost(m) + TURN_COST * (m.state.maxTurns - m.turns)
  }

  lemma ResponseWeight(s: State, event: Event, config: Config, effects: Effects)
    requires event.PlannerResponded?
    ensures var t := Decide.Decide(s, event, config, effects);
            Total(Weight, t.commands) + Bit(t.state) + 1 <= 3 + Bit(s) + 5 * KeysIn(event)
  {
    var t := Decide.Decide(s, event, config, effects);
    if event.parsed.taskComplete {
      TotalShort(Weight, t.commands);
    } else {
      var keys := KeyCommands(event.parsed.commands, config);
      TotalConstant(Weight, keys, 5);
      var logs := t.commands[|keys|..];
      TotalShort(Weight, logs);
      TotalConcat(Weight, keys, logs);
    }
  }

  lemma FollowUpWeight(cmd: RunState.Command, j: Journal, s: State, config: Config, reply: Reply)
    ensures var event := Apply(cmd, j, s, config, reply).event;
            var t := Decide.Decide(s, event, config, reply.effects);
            && Total(Weight, t.commands) + Bit(t.state) + 1 <= Weight(cmd) + Bit(s) + 5 * KeysIn(event)
            && Total(Weight, t.commands) >= 0
  {
    var event := Apply(cmd, j, s, config, reply).event;
    var t := Decide.Decide(s, event, config, reply.effects);
    if event.PlannerResponded? {
      ResponseWeight(s, event, config, reply.effects);
      TotalNonNegative(t.commands);
    } else {
      TotalShort(Weight, t.commands);
    }
  }

  lemma {:induction false} TotalNonNegative(commands: seq<RunState.Command>)
    ensures Total(Weight, commands) >= |commands|
  {
    if commands != [] {
      TotalNonNegative(commands[1..]);
    }
  }

  lemma OpeningWeight(slot: SummarizeWorker.Slot, s: State, config: Config, reply: Reply)
    ensures var event := PollEvent(slot, reply);
            var t := Decide.Decide(s, event, config, reply.effects);
            Total(Weight, t.commands) <= 9 && Bit(t.state) == Bit(s) && KeysIn(event) == 0
  {
    var event := PollEvent(slot, reply);
    var t := Decide.Decide(s, event, config, reply.effects);
    TotalShort(Weight, t.commands);
    assert |t.commands| <= 2;
  }

  /** An iteration of the queue lowers the cost of the drive by at least one,
      except for the five units each keystroke command of a response adds. */
  lemma IterationDescends(m: Machine, config: Config, reply: Reply)
    requires m.pending != []
    ensures var after := Iterate(m, config, reply);
            && DriveCost(after) + 1 <= DriveCost(m) + 5 * (KeysSent(after.history) - KeysSent(m.history))
            && 0 <= DriveCost(after)
            && after.turns == m.turns && after.state.maxTurns == m.state.maxTurns && after.finished == m.finished
  {
    var cmd := m.pending[0];
    var event := Apply(cmd, m.journal, m.state, config, reply).event;
    var t := Decide.Decide(m.state, event, config, reply.effects);
    FollowUpWeight(cmd, m.journal, m.state, config, reply);
    DecideHistory.CountersAfter(m.state, event, config, reply.effects);
    DecideHistory.FlagsAfter(m.state, event, config, reply.effects);
    hide Decide.Decide, Apply;
    var after := Iterate(m, config, reply);
    TotalConcat(Weight, m.pending[1..], t.commands);
    TotalNonNegative(m.pending[1..]);
    TotalNonNegative(after.pending);
    assert DropLast(after.history) == m.history;
  }

  lemma StepDescends(m: Machine, config: Config, world: World)
    requires !m.finished && m.turns <= m.state.maxTurns
    ensures var after := Step(m, config, world);
            && Potential(after) + 1 <= Potential(m) + 5 * (KeysSent(after.history) - KeysSent(m.history))
            && (after.finished || 1 <= Potential(after))
            && after.turns <= after.state.maxTurns == m.state.maxTurns
  {
    var reply := world(m.clock);
    if m.pending != [] {
      IterationDescends(m, config, reply);
      hide Iterate;
    } else if m.state.status.Active? && m.turns < m.state.maxTurns {
      var event := PollEvent(m.journal.slot, reply);
      OpeningWeight(m.journal.slot, m.state, config, reply);
      DecideHistory.CountersAfter(m.state, event, config, reply.effects);
      DecideHistory.FlagsAfter(m.state, event, config, reply.effects);
      hide Decide.Decide, PollEvent;
      var after := Step(m, config, world);
      TotalNonNegative(after.pending);
      assert DropLast(after.history) == m.history;
    }
  }

  lemma {:induction false} PotentialBound(start: State, config: Config, world: World, n: nat)
    ensures var m := At(Start(start), config, world, n);
            && m.turns <= m.state.maxTurns == start.maxTurns
            && (m.finished || 1 <= Potential(m))
            && (m.finished || n + Potential(m) <= 2 + TURN_COST * start.maxTurns + 5 * KeysSent(m.history))
  {
    hide Step;
    if n > 0 {
      PotentialBound(start, config, world, n - 1);
      var before := At(Start(start), config, world, n - 1);
      if before.finished {
        FinishedStays(before, config, world, 1);
        AtCompose(Start(start), config, world, n - 1, 1);
      } else {
        StepDescends(before, config, world);
      }
    }
  }

  /** Termination: in every world, if the planner's responses hold at most
      `keys` keystroke commands in total, the run is over after a number of
      steps linear in the turn budget and in `keys`, in a terminal state, and
      it opened at most `max_turns` turns. */
  lemma RunTerminates(start: State, config: Config, world: World, keys: nat)
    requires start.status.Active?
    requires forall n :: KeysSent(At(Start(start), config, world, n).history) <= keys
    ensures var m := At(Start(start), config, world, TURN_COST * start.maxTurns + 2 + 5 * keys);
            && m.finished
            && !m.state.status.Active?
            && m.turns <= start.maxTurns
  {
    hide Step;
    var n := TURN_COST * start.maxTurns + 2 + 5 * keys;
    PotentialBound(start, config, world, n);
    FinishedIsTerminal(start, config, world, n);
  }

  lemma {:induction false} FinishedIsTerminal(start: State, config: Config, world: World, n: nat)
    ensures var m := At(Start(start), config, world, n);
            m.finished ==> !m.state.status.Active? && m.pending == []
  {
    hide Step;
    if n > 0 {
      FinishedIsTerminal(start, config, world, n - 1);
      StepFinishesTerminal(At(Start(start), config, world, n - 1), config, world);
    }
  }

  lemma StepFinishesTerminal(m: Machine, config: Config, world: World)
    requires m.finished ==> !m.state.status.Active? && m.pending == []
    ensures var after := Step(m, config, world);
            after.finished ==> !after.state.status.Active? && after.pending == []
  {
    hide Decide.Decide, Apply, PollEvent, Polled;
  }

  // Exactly when a run, or a drive, ends ---------------------------------------

  /** The planner's responses never hold more than `keys` keystroke commands in total. */
  ghost predicate KeysBounded(m: Machine, config: Config, world: World, keys: nat) {
    forall k: nat :: KeysSent(At(m, config, world, k).history) <= keys
  }

  lemma KeysGrow(m: Machine, config: Config, world: World)
    ensures KeysSent(m.history) <= KeysSent(Step(m, config, world).history)
  {
    hide Decide.Decide, Apply, PollEvent, Polled;
    var after := Step(m, config, world);
    if after.history != m.history {
      assert DropLast(after.history) == m.history;
    }
  }

  lemma {:induction false} KeysMonotone(m: Machine, config: Config, world: World, k: nat, n: nat)
    requires k <= n
    ensures KeysSent(At(m, config, world, k).history) <= KeysSent(At(m, config, world, n).history)
  {
    hide Step, KeysSent;
    if k < n {
      KeysMonotone(m, config, world, k, n - 1);
      KeysGrow(At(m, config, world, n - 1), config, world);
    }
  }

  /** A run returns exactly when the planner's keystroke commands are bounded:
      `max_turns` alone does not end it, and nothing else keeps it going. */
  lemma RunEndsIff(start: State, config: Config, world: World)
    ensures (exists n: nat :: At(Start(start), config, world, n).finished)
            <==> (exists keys: nat :: KeysBounded(Start(start), config, world, keys))
  {
    hide At, KeysSent;
    var m := Start(start);
    if n: nat :| At(m, config, world, n).finished {
      var end := At(m, config, world, n);
      forall k: nat ensures KeysSent(At(m, config, world, k).history) <= KeysSent(end.history) {
        if k <= n {
          KeysMonotone(m, config, world, k, n);
        } else {
          FinishedStays(end, config, world, k - n);
          AtCompose(m, config, world, n, k - n);
        }
      }
      assert KeysBounded(m, config, world, KeysSent(end.history));
    }
    if keys: nat :| KeysBounded(m, config, world, keys) {
      var n := 2 + TURN_COST * start.maxTurns + 5 * keys;
      PotentialBound(start, config, world, n);
      assert KeysSent(At(m, config, world, n).history) <= keys;
      assert At(m, config, world, n).finished;
    }
  }

  /** The first k steps are iterations of the queue. */
  ghost predicate Driving(m: Machine, config: Config, world: World, k: nat) {
    forall j: nat | j < k :: At(m, config, world, j).pending != []
  }

  /** The responses within this drive hold at most `keys` keystroke commands in total. */
  ghost predicate DriveKeysBounded(m: Machine, config: Config, world: World, keys: nat) {
    forall k: nat | Driving(m, config, world, k) :: KeysSent(At(m, config, world, k).history) <= keys
  }

  lemma {:induction false} DriveDescends(m: Machine, config: Config, world: World, k: nat)
    requires !m.finished && Driving(m, config, world, k)
    ensures var now := At(m, config, world, k);
            && k + DriveCost(now) <= DriveCost(m) + 5 * (KeysSent(now.history) - KeysSent(m.history))
            && (k > 0 ==> 0 <= DriveCost(now))
            && !now.finished && now.turns == m.turns && now.state.maxTurns == m.state.maxTurns
  {
    hide Step, Iterate, KeysSent, DriveCost;
    if k > 0 {
      DriveDescends(m, config, world, k - 1);
      var before := At(m, config, world, k - 1);
      assert before.pending != [];
      IterationIsStep(before, config, world);
      IterationDescends(before, config, world(before.clock));
      AtNext(m, config, world, k - 1);
    }
  }

  /** A drive ends exactly when the keystroke commands within it are bounded. */
  lemma DriveEndsIff(m: Machine, config: Config, world: World)
    requires !m.finished
    ensures (exists n: nat :: At(m, config, world, n).pending == [])
            <==> (exists keys: nat :: DriveKeysBounded(m, config, world, keys))
  {
    hide At, KeysSent, DriveCost;
    if n: nat :| At(m, config, world, n).pending == [] {
      var most := KeysSent(At(m, config, world, n).history);
      forall k: nat | Driving(m, config, world, k) ensures KeysSent(At(m, config, world, k).history) <= most {
        KeysMonotone(m, config, world, k, n);
      }
      assert DriveKeysBounded(m, config, world, most);
    }
    if keys: nat :| DriveKeysBounded(m, config, world, keys) {
      DriveIsOver(m, config, world, keys);
    }
  }

  lemma DriveIsOver(m: Machine, config: Config, world: World, keys: nat)
    requires !m.finished && DriveKeysBounded(m, config, world, keys)
    ensures exists n: nat :: At(m, config, world, n).pending == []
  {
    hide At, KeysSent, DriveCost;
    if forall n: nat :: At(m, config, world, n).pending != [] {
      var bound := DriveCost(m) + 5 * (keys - KeysSent(m.history));
      var k: nat := if bound < 0 then 1 else bound + 1;
      assert Driving(m, config, world, k);
      DriveDescends(m, config, world, k);
    }
  }
}
