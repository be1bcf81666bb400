/** `_drive` and `_run_turns` of `termiclaw/agent.py` as one transition system.
    A machine is the loop between two port calls; `Step` is one turn opening or
    one iteration of the queue. The world is an infinite stream of replies, so
    a statement about every world and every n is a statement about every run. */
module Machine {
  import opened RunState
  import opened Decide
  import opened Shell

  type World = nat -> Reply

  /** What made a decide call happen: the opening of a turn, or a command of the queue. */
  datatype Cause = Opening | Command(cmd: RunState.Command)

  /** One decide call, kept as history. */
  datatype Entry = Entry(cause: Cause, before: State, event: Event, effects: Effects)

  datatype Machine = Machine(
    state: State,
    pending: seq<RunState.Command>,
    turns: nat,
    finished: bool,
    journal: Journal,
    history: seq<Entry>,
    clock: nat)

  function Start(state: State): Machine {
    Machine(state, [], 0, false, EMPTY_JOURNAL, [], 0)
  }

  /** A turn begins: its event is decided and its commands fill the queue. */
  function Open(m: Machine, config: Config, reply: Reply): Machine {
    var event := PollEvent(m.journal.slot, reply);
    var t := Decide.Decide(m.state, event, config, reply.effects);
    m.(state := t.state, pending := t.commands, turns := m.turns + 1,
       journal := Polled(m.journal, m.state, reply),
       history := m.history + [Entry(Opening, m.state, event, reply.effects)],
       clock := m.clock + 1)
  }

  /** One iteration of `while pending`. */
  function Iterate(m: Machine, config: Config, reply: Reply): Machine
    requires m.pending != []
  {
    var cmd := m.pending[0];
    var applied := Apply(cmd, m.journal, m.state, config, reply);
    var t := Decide.Decide(m.state, applied.event, config, reply.effects);
    m.(state := t.state,
       pending := if m.state.status.Active? then m.pending[1..] + t.commands else m.pending[1..],
       journal := applied.journal,
       history := m.history + [Entry(Command(cmd), m.state, applied.event, reply.effects)],
       clock := m.clock + 1)
  }

  function Step(m: Machine, config: Config, world: World): Machine {
    if m.finished then m
    else if m.pending != [] then Iterate(m, config, world(m.clock))
    else if !m.state.status.Active? then m.(finished := true)
    else if m.turns >= m.state.maxTurns then m.(state := m.state.(status := Failed), finished := true)
    else Open(m, config, world(m.clock))
  }

  /** The machine after n steps. */
  function At(m: Machine, config: Config, world: World, n: nat): Machine {
    if n == 0 then m else Step(At(m, config, world, n - 1), config, world)
  }

  lemma {:induction false} AtCompose(m: Machine, config: Config, world: World, a: nat, b: nat)
    ensures At(At(m, config, world, a), config, world, b) == At(m, config, world, a + b)
  {
    hide Step;
    if b > 0 {
      AtCompose(m, config, world, a, b - 1);
    }
  }

  /** A finished machine stays as it is. */
  lemma {:induction false} FinishedStays(m: Machine, config: Config, world: World, n: nat)
    requires m.finished
    ensures At(m, config, world, n) == m
  {
    if n > 0 {
      FinishedStays(m, config, world, n - 1);
    }
  }

  lemma AtZero(m: Machine, config: Config, world: World)
    ensures At(m, config, world, 0) == m
  {
  }

  lemma AtNext(m: Machine, config: Config, world: World, n: nat)
    ensures At(m, config, world, n + 1) == Step(At(m, config, world, n), config, world)
  {
    hide Step;
  }

  lemma IterationIsStep(m: Machine, config: Config, world: World)
    requires m.pending != [] && !m.finished
    ensures Step(m, config, world) == Iterate(m, config, world(m.clock))
  {
    hide Iterate;
  }

  /** `Iterate`, field by field. */
  lemma IterationShape(m: Machine, config: Config, reply: Reply)
    requires m.pending != []
    ensures var next := Iterate(m, config, reply);
            var applied := Apply(m.pending[0], m.journal, m.state, config, reply);
            var t := Decide.Decide(m.state, applied.event, config, reply.effects);
            && next.state == t.state
            && next.pending == (if m.state.status.Active? then m.pending[1..] + t.commands else m.pending[1..])
            && next.journal == applied.journal
            && next.history == m.history + [Entry(Command(m.pending[0]), m.state, applied.event, reply.effects)]
            && next.clock == m.clock + 1
            && next.turns == m.turns
            && next.finished == m.finished
  {
    hide Decide.Decide, Apply;
  }

  /** The opening of a turn, field by field. */
  lemma OpeningShape(m: Machine, config: Config, world: World)
    requires m.pending == [] && !m.finished && m.state.status.Active? && m.turns < m.state.maxTurns
    ensures var next := Step(m, config, world);
            var reply := world(m.clock);
            var event := PollEvent(m.journal.slot, reply);
            var t := Decide.Decide(m.state, event, config, reply.effects);
            && next.state == t.state
            && next.pending == t.commands
            && next.journal == Polled(m.journal, m.state, reply)
            && next.history == m.history + [Entry(Opening, m.state, event, reply.effects)]
            && next.clock == m.clock + 1
            && next.turns == m.turns + 1
            && !next.finished
  {
    hide Decide.Decide, PollEvent, Polled;
  }

  /** The end of a run. */
  lemma ClosingShape(m: Machine, config: Config, world: World)
    requires m.finished || (m.pending == [] && (m.state.status.Active? ==> m.turns >= m.state.maxTurns))
    ensures var next := Step(m, config, world);
            && next.finished
            && next.journal == m.journal && next.pending == m.pending && next.history == m.history
            && next.turns == m.turns && next.clock == m.clock
            && next.state == (if !m.finished && m.state.status.Active? then m.state.(status := Failed) else m.state)
  {
    hide Iterate, Open;
  }
}
