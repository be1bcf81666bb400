/** The command queue over a whole run: nothing emitted while the run is active
    is lost, repeated or reordered, and what a terminal run still does. */
module RunQueue {
  import opened Prelude
  import opened RunState
  import opened Machine
  import Decide
  import DecideHistory
  import Shell

  /** The commands taken from the queue, in order. */
  function Taken(history: seq<Entry>): seq<RunState.Command> {
    if history == [] then []
    else if Last(history).cause.Opening? then Taken(DropLast(history))
    else Taken(DropLast(history)) + [Last(history).cause.cmd]
  }

  /** The commands a decide call contributes: those of a turn opening, and
      those of a re-decide that began active. */
  function Contribution(entry: Entry, config: Config): seq<RunState.Command> {
    if entry.cause.Opening? || entry.before.status.Active?
    then Decide.Decide(entry.before, entry.event, config, entry.effects).commands
    else []
  }

  function Emitted(history: seq<Entry>, config: Config): seq<RunState.Command> {
    if history == [] then [] else Emitted(DropLast(history), config) + Contribution(Last(history), config)
  }

  lemma StepKeepsQueue(m: Machine, config: Config, world: World)
    requires Taken(m.history) + m.pending == Emitted(m.history, config)
    ensures var after := Step(m, config, world);
            Taken(after.history) + after.pending == Emitted(after.history, config)
  {
    hide Decide.Decide, Shell.Apply, Shell.PollEvent, Shell.Polled, Step, Iterate;
    var reply := world(m.clock);
    var after := Step(m, config, world);
    if m.pending != [] && !m.finished {
      IterationIsStep(m, config, world);
      IterationShape(m, config, reply);
      assert DropLast(after.history) == m.history;
      assert after.pending == m.pending[1..] + Contribution(Last(after.history), config);
      assert m.pending == [m.pending[0]] + m.pending[1..];
    } else if !m.finished && m.state.status.Active? && m.turns < m.state.maxTurns {
      OpeningShape(m, config, world);
      assert DropLast(after.history) == m.history;
    } else {
      ClosingShape(m, config, world);
    }
  }

  /** Queue exactness: at every moment the commands applied so far followed by
      the pending ones are exactly the emitted ones, in order and once each. */
  lemma {:induction false} QueueExact(start: State, config: Config, world: World, n: nat)
    ensures var m := At(Start(start), config, world, n);
            Taken(m.history) + m.pending == Emitted(m.history, config)
  {
    hide Step;
    if n > 0 {
      QueueExact(start, config, world, n - 1);
      StepKeepsQueue(At(Start(start), config, world, n - 1), config, world);
    }
  }

  lemma StepStaysTerminal(m: Machine, config: Config, world: World)
    ensures var after := Step(m, config, world);
            && (!m.state.status.Active? ==> !after.state.status.Active?)
            && (!m.state.status.Active? && m.pending != [] && !m.finished ==>
                  after.pending == m.pending[1..] && !after.finished)
            && (!m.state.status.Active? && m.pending == [] ==> after.pending == [] && after.finished)
  {
    if m.pending != [] && !m.finished {
      var reply := world(m.clock);
      var event := Shell.Apply(m.pending[0], m.journal, m.state, config, reply).event;
      DecideHistory.CountersAfter(m.state, event, config, reply.effects);
      DecideHistory.FlagsAfter(m.state, event, config, reply.effects);
      hide Decide.Decide, Shell.Apply;
    }
  }

  /** "Not active" is absorbing. */
  lemma {:induction false} TerminalStays(m: Machine, config: Config, world: World, n: nat)
    requires !m.state.status.Active?
    ensures !At(m, config, world, n).state.status.Active?
  {
    hide Step;
    if n > 0 {
      TerminalStays(m, config, world, n - 1);
      StepStaysTerminal(At(m, config, world, n - 1), config, world);
    }
  }

  /** From a terminal status the loop applies exactly the commands already
      queued, one per step and in order, and then returns. */
  lemma {:induction false} TerminalDrains(m: Machine, config: Config, world: World, n: nat)
    requires !m.state.status.Active? && !m.finished
    requires n <= |m.pending|
    ensures At(m, config, world, n).pending == m.pending[n..]
    ensures !At(m, config, world, n).finished
    ensures At(m, config, world, |m.pending| + 1).finished
  {
    hide Step;
    DrainPrefix(m, config, world, n);
    DrainPrefix(m, config, world, |m.pending|);
    TerminalStays(m, config, world, |m.pending|);
    StepStaysTerminal(At(m, config, world, |m.pending|), config, world);
  }

  lemma {:induction false} DrainPrefix(m: Machine, config: Config, world: World, n: nat)
    requires !m.state.status.Active? && !m.finished
    requires n <= |m.pending|
    ensures At(m, config, world, n).pending == m.pending[n..]
    ensures !At(m, config, world, n).finished
  {
    hide Step;
    if n > 0 {
      DrainPrefix(m, config, world, n - 1);
      TerminalStays(m, config, world, n - 1);
      StepStaysTerminal(At(m, config, world, n - 1), config, world);
    }
  }
}
