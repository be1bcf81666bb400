/** Chains of work in the queue. Every Observe, QueryPlanner, SendKeys and
    SubmitSummarization command stands for one live chain; a response with k
    commands forks one chain into k. */
module RunChains {
  import opened Prelude
  import opened RunState
  import opened Decide
  import opened Shell
  import opened Machine
  import DecideHistory
  import RunJournal
  import RunQueue

  function Chain(cmd: RunState.Command): int {
    match cmd
    case LogStep(_, _) => 0
    case RefreshArtifacts(_) => 0
    case _ => 1
  }

  /** What one decide call does to the number of live chains of an active run:
      a turn opening seeds its commands, a response that does not claim
      completion turns one chain into one per command, a failure ends one. */
  function Gain(entry: Entry, config: Config): int {
    if entry.cause.Opening? then Total(Chain, RunQueue.Contribution(entry, config))
    else
      match entry.event
      case PlannerResponded(parsed, _) => if parsed.taskComplete then 0 else |parsed.commands| - 1
      case PlannerFailed(_) => -1
      case _ => 0
  }

  function Gains(history: seq<Entry>, config: Config): int {
    if history == [] then 0 else Gains(DropLast(history), config) + Gain(Last(history), config)
  }

  predicate Conserved(m: Machine, config: Config) {
    m.state.status.Active? ==> Total(Chain, m.pending) == Gains(m.history, config)
  }

  lemma FollowUpChains(cmd: RunState.Command, j: Journal, s: State, config: Config, reply: Reply)
    requires cmd.SubmitSummarization? ==> ArtifactRefreshTrigger(s, config) == ""
    ensures var event := Apply(cmd, j, s, config, reply).event;
            var t := Decide.Decide(s, event, config, reply.effects);
            t.state.status.Active? ==>
              Total(Chain, t.commands) == Chain(cmd) + Gain(Entry(Cause.Command(cmd), s, event, reply.effects), config)
  {
    var event := Apply(cmd, j, s, config, reply).event;
    var t := Decide.Decide(s, event, config, reply.effects);
    RunJournal.EventOf(cmd, j, s, config, reply);
    if event.PlannerResponded? && !event.parsed.taskComplete {
      var keys := KeyCommands(event.parsed.commands, config);
      TotalConstant(Chain, keys, 1);
      var logs := t.commands[|keys|..];
      TotalShort(Chain, logs);
      TotalConcat(Chain, keys, logs);
    } else {
      TotalShort(Chain, t.commands);
      assert |t.commands| <= 1;
    }
  }

  lemma StepConserves(m: Machine, config: Config, world: World)
    requires RunJournal.Orderly(m, config) && Conserved(m, config)
    ensures Conserved(Step(m, config, world), config)
  {
    var after := Step(m, config, world);
    var reply := world(m.clock);
    if after.history != m.history {
      assert DropLast(after.history) == m.history;
      if m.pending != [] {
        var cmd := m.pending[0];
        var event := Apply(cmd, m.journal, m.state, config, reply).event;
        var t := Decide.Decide(m.state, event, config, reply.effects);
        FollowUpChains(cmd, m.journal, m.state, config, reply);
        DecideHistory.CountersAfter(m.state, event, config, reply.effects);
        DecideHistory.FlagsAfter(m.state, event, config, reply.effects);
        hide Decide.Decide, Apply;
        TotalConcat(Chain, m.pending[1..], t.commands);
      } else {
        hide Decide.Decide, PollEvent;
      }
    }
  }

  /** Chain conservation: while a run is active, the live chains in its queue
      are the ones its turns seeded, plus (commands - 1) for every response that
      did not claim completion, minus the planner failures. */
  lemma {:induction false} ChainsConserved(start: State, config: Config, world: World, n: nat)
    requires DecideHistory.Fresh(start)
    ensures Conserved(At(Start(start), config, world, n), config)
  {
    hide Step;
    if n > 0 {
      ChainsConserved(start, config, world, n - 1);
      RunJournal.AlwaysOrderly(start, config, world, n - 1);
      StepConserves(At(Start(start), config, world, n - 1), config, world);
    }
  }
}
