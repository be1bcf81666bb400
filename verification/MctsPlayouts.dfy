/** Concurrent playouts over the shared tree. A step is one section executed
    under the lock (or a playout that gives up), by any playout, in any order. */
module MctsPlayouts {
  import opened Prelude
  import opened MctsShape
  import opened MctsTree

  /** Where a playout in flight stands: simulating from the leaf it selected, or
      recorded and not yet backpropagated. */
  datatype Phase = Simulating(parent: NodeId) | Scored(leaf: NodeId, reward: real)

  datatype System = System(
    tree: Tree,
    inFlight: map<nat, Phase>,
    started: nat,
    aborted: nat,
    completed: seq<Playout>)

  datatype Limits = Limits(playouts: nat, parallelism: nat)

  datatype Action =
    | Select(leaf: NodeId)
    | Record(who: nat, runId: string, variant: string, reward: real)
    | Backprop(who: nat)
    | Abort(who: nat)

  const INITIAL := System(EMPTY_TREE, map[], 0, 0, [])

  /** When an action can happen. A selection descends to some childless node,
      whatever the scores are; run ids are fresh. */
  predicate Enabled(s: System, a: Action, limits: Limits) {
    match a
    case Select(leaf) =>
      s.started < limits.playouts && |s.inFlight| < limits.parallelism
      && leaf in s.tree.nodes && s.tree.nodes[leaf].children == []
    case Record(who, runId, _, _) =>
      who in s.inFlight && s.inFlight[who].Simulating? && NodeId(runId, 0) !in s.tree.nodes
      && s.inFlight[who].parent in s.tree.nodes
    case Backprop(who) => who in s.inFlight && s.inFlight[who].Scored?
    case Abort(who) => who in s.inFlight && s.inFlight[who].Simulating?
  }

  function Next(s: System, a: Action, limits: Limits): System
    requires Enabled(s, a, limits)
  {
    match a
    case Select(leaf) => s.(inFlight := s.inFlight[s.started := Simulating(leaf)], started := s.started + 1)
    case Record(who, runId, variant, reward) =>
      var id := NodeId(runId, 0);
      s.(tree := Recorded(s.tree, id, s.inFlight[who].parent, variant),
         inFlight := s.inFlight[who := Scored(id, reward)])
    case Backprop(who) =>
      var p := Playout(s.inFlight[who].leaf, s.inFlight[who].reward);
      s.(tree := Credited(s.tree, p), inFlight := s.inFlight - {who}, completed := s.completed + [p])
    case Abort(who) => s.(inFlight := s.inFlight - {who}, aborted := s.aborted + 1)
  }

  /** The system after a schedule; an action that cannot happen is skipped. */
  function After(schedule: seq<Action>, limits: Limits): System {
    if schedule == [] then INITIAL
    else
      var s := After(DropLast(schedule), limits);
      if Enabled(s, Last(schedule), limits) then Next(s, Last(schedule), limits) else s
  }

  /** The playouts simulating from v. */
  function WaitingOn(inFlight: map<nat, Phase>, v: NodeId): set<nat> {
    set who | who in inFlight && inFlight[who] == Simulating(v)
  }

  /** Each node but the root was added by exactly one playout, completed or scored. */
  ghost predicate Owned(s: System) {
    && ROOT in s.tree.nodes
    && (forall p | p in s.completed :: p.leaf in s.tree.nodes && p.leaf != ROOT && Own(p.leaf, s.completed) == 1)
    && (forall who | who in s.inFlight && s.inFlight[who].Scored? ::
          var leaf := s.inFlight[who].leaf;
          leaf in s.tree.nodes && leaf != ROOT && Own(leaf, s.completed) == 0)
    && (forall a, b | a in s.inFlight && b in s.inFlight && a != b
                      && s.inFlight[a].Scored? && s.inFlight[b].Scored? :: s.inFlight[a].leaf != s.inFlight[b].leaf)
    && (forall id | id in s.tree.nodes && id != ROOT ::
          Own(id, s.completed) == 1 || exists who :: who in s.inFlight && IsScored(s.inFlight[who], id))
  }

  predicate IsScored(phase: Phase, id: NodeId) {
    phase.Scored? && phase.leaf == id
  }

  ghost predicate Crowds(s: System, limits: Limits) {
    && |s.inFlight| <= limits.parallelism
    && (forall who | who in s.inFlight ::
          who < s.started && (s.inFlight[who].Simulating? ==> s.inFlight[who].parent in s.tree.nodes))
    && (forall v | v in s.tree.nodes :: |s.tree.nodes[v].children| + |WaitingOn(s.inFlight, v)| <= limits.parallelism)
    && s.started == |s.inFlight| + s.aborted + |s.completed|
    && s.started <= limits.playouts
  }

  // Ownership ------------------------------------------------------------------

  lemma {:induction false} OwnMember(v: NodeId, done: seq<Playout>)
    ensures Own(v, done) > 0 <==> exists p :: p in done && p.leaf == v
  {
    if done != [] {
      OwnMember(v, DropLast(done));
      assert done == DropLast(done) + [Last(done)];
      if exists p :: p in done && p.leaf == v {
        var p :| p in done && p.leaf == v;
        assert p in DropLast(done) || p == Last(done);
      }
    }
  }

  lemma OwnSnoc(v: NodeId, done: seq<Playout>, p: Playout)
    ensures Own(v, done + [p]) == Own(v, done) + (if p.leaf == v then 1 else 0)
  {
    SnocParts(done, p);
  }

  lemma SelectKeepsOwned(s: System, a: Action, limits: Limits)
    requires Owned(s) && a.Select? && Enabled(s, a, limits) && s.started !in s.inFlight
    ensures Owned(Next(s, a, limits))
  {
    var after := Next(s, a, limits);
    forall id | id in after.tree.nodes && id != ROOT && Own(id, after.completed) != 1
      ensures exists who :: who in after.inFlight && IsScored(after.inFlight[who], id)
    {
      var who :| who in s.inFlight && IsScored(s.inFlight[who], id);
      assert who in after.inFlight && IsScored(after.inFlight[who], id);
    }
  }

  lemma RecordKeepsOwned(s: System, a: Action, limits: Limits)
    requires Owned(s) && a.Record? && Enabled(s, a, limits)
    ensures Owned(Next(s, a, limits))
  {
    var after := Next(s, a, limits);
    var id := NodeId(a.runId, 0);
    OwnMember(id, s.completed);
    forall v | v in after.tree.nodes && v != ROOT && Own(v, after.completed) != 1
      ensures exists who :: who in after.inFlight && IsScored(after.inFlight[who], v)
    {
      if v == id {
        assert IsScored(after.inFlight[a.who], id);
      } else {
        var who :| who in s.inFlight && IsScored(s.inFlight[who], v);
        assert who in after.inFlight && IsScored(after.inFlight[who], v);
      }
    }
  }

  lemma BackpropKeepsOwned(s: System, a: Action, limits: Limits)
    requires Owned(s) && a.Backprop? && Enabled(s, a, limits)
    ensures Owned(Next(s, a, limits))
  {
    var after := Next(s, a, limits);
    var p := Playout(s.inFlight[a.who].leaf, s.inFlight[a.who].reward);
    forall v ensures Own(v, after.completed) == Own(v, s.completed) + (if p.leaf == v then 1 else 0) {
      OwnSnoc(v, s.completed, p);
    }
    forall q | q in after.completed
      ensures q.leaf in after.tree.nodes && q.leaf != ROOT && Own(q.leaf, after.completed) == 1
    {
      assert q in s.completed || q == p;
    }
    forall v | v in after.tree.nodes && v != ROOT && Own(v, after.completed) != 1
      ensures exists who :: who in after.inFlight && IsScored(after.inFlight[who], v)
    {
      var who :| who in s.inFlight && IsScored(s.inFlight[who], v);
      assert who in after.inFlight && IsScored(after.inFlight[who], v);
    }
  }

  lemma AbortKeepsOwned(s: System, a: Action, limits: Limits)
    requires Owned(s) && a.Abort? && Enabled(s, a, limits)
    ensures Owned(Next(s, a, limits))
  {
    var after := Next(s, a, limits);
    forall v | v in after.tree.nodes && v != ROOT && Own(v, after.completed) != 1
      ensures exists who :: who in after.inFlight && IsScored(after.inFlight[who], v)
    {
      var who :| who in s.inFlight && IsScored(s.inFlight[who], v);
      assert who in after.inFlight && IsScored(after.inFlight[who], v);
    }
  }

  // Crowding ---------------------------------------------------------------------

  lemma {:induction false} SubsetSize<T>(a: set<T>, b: set<T>)
    requires a <= b
    ensures |a| <= |b|
  {
    if a != {} {
      var x :| x in a;
      SubsetSize(a - {x}, b - {x});
    }
  }

  lemma WaitingWithin(inFlight: map<nat, Phase>, v: NodeId)
    ensures |WaitingOn(inFlight, v)| <= |inFlight|
  {
    SubsetSize(WaitingOn(inFlight, v), inFlight.Keys);
  }

  lemma SelectKeepsCrowds(s: System, a: Action, limits: Limits)
    requires Crowds(s, limits) && a.Select? && Enabled(s, a, limits)
    ensures s.started !in s.inFlight
    ensures Crowds(Next(s, a, limits), limits)
  {
    var after := Next(s, a, limits);
    assert after.inFlight.Keys == s.inFlight.Keys + {s.started};
    forall v | v in after.tree.nodes
      ensures |after.tree.nodes[v].children| + |WaitingOn(after.inFlight, v)| <= limits.parallelism
    {
      if v == a.leaf {
        WaitingWithin(after.inFlight, v);
      } else {
        assert WaitingOn(after.inFlight, v) == WaitingOn(s.inFlight, v);
      }
    }
  }

  lemma RecordKeepsCrowds(s: System, a: Action, limits: Limits)
    requires Crowds(s, limits) && a.Record? && Enabled(s, a, limits)
    ensures Crowds(Next(s, a, limits), limits)
  {
    var after := Next(s, a, limits);
    var parent := s.inFlight[a.who].parent;
    assert after.inFlight.Keys == s.inFlight.Keys;
    forall v | v in after.tree.nodes
      ensures |after.tree.nodes[v].children| + |WaitingOn(after.inFlight, v)| <= limits.parallelism
    {
      if v == parent {
        assert WaitingOn(s.inFlight, v) == WaitingOn(after.inFlight, v) + {a.who};
      } else {
        assert WaitingOn(after.inFlight, v) == WaitingOn(s.inFlight, v);
        if v !in s.tree.nodes {
          assert WaitingOn(s.inFlight, v) == {};
        }
      }
    }
  }

  lemma LeaveKeepsCrowds(s: System, a: Action, limits: Limits)
    requires Crowds(s, limits) && (a.Backprop? || a.Abort?) && Enabled(s, a, limits)
    ensures Crowds(Next(s, a, limits), limits)
  {
    var after := Next(s, a, limits);
    assert s.inFlight.Keys == after.inFlight.Keys + {a.who};
    hide Under, Credit;
    forall v | v in after.tree.nodes
      ensures |after.tree.nodes[v].children| + |WaitingOn(after.inFlight, v)| <= limits.parallelism
    {
      SubsetSize(WaitingOn(after.inFlight, v), WaitingOn(s.inFlight, v));
      if a.Backprop? {
        CreditKeepsChildren(s.tree, Playout(s.inFlight[a.who].leaf, s.inFlight[a.who].reward), v);
      }
    }
  }

  lemma CreditKeepsChildren(t: Tree, p: Playout, v: NodeId)
    requires v in t.nodes
    ensures v in Credited(t, p).nodes && Credited(t, p).nodes[v].children == t.nodes[v].children
  {
    hide Under;
  }

  // The invariant ------------------------------------------------------------------

  ghost predicate Sound(s: System, limits: Limits) {
    && WellFormed(s.tree)
    && Counted(s.tree, s.completed)
    && Owned(s)
    && Crowds(s, limits)
  }

  lemma NextSound(s: System, a: Action, limits: Limits)
    requires Sound(s, limits) && Enabled(s, a, limits)
    ensures Sound(Next(s, a, limits), limits)
  {
    hide WellFormed, Counted, Owned, Crowds, Credited, Recorded;
    match a {
      case Select(_) =>
        SelectKeepsCrowds(s, a, limits);
        SelectKeepsOwned(s, a, limits);
      case Record(who, runId, variant, _) =>
        RecordKeepsCrowds(s, a, limits);
        RecordKeepsOwned(s, a, limits);
        var id, parent := NodeId(runId, 0), s.inFlight[who].parent;
        CompletedPresent(s);
        RecordedWellFormed(s.tree, id, parent, variant);
        RecordedCounted(s.tree, s.completed, id, parent, variant);
      case Backprop(who) =>
        LeaveKeepsCrowds(s, a, limits);
        BackpropKeepsOwned(s, a, limits);
        var p := Playout(s.inFlight[who].leaf, s.inFlight[who].reward);
        CreditedWellFormed(s.tree, p);
        CreditedCounted(s.tree, s.completed, p);
      case Abort(_) =>
        LeaveKeepsCrowds(s, a, limits);
        AbortKeepsOwned(s, a, limits);
    }
  }

  lemma CompletedPresent(s: System)
    requires Owned(s)
    ensures forall p | p in s.completed :: p.leaf in s.tree.nodes
  {
  }

  lemma InitialSound(limits: Limits)
    ensures Sound(INITIAL, limits)
  {
    assert INITIAL.tree.nodes[ROOT].children == [];
  }

  /** At every lock release of every schedule the tree is a well-founded rooted
      tree, its counters mean what they should, every node belongs to one
      playout, and no node is crowded. */
  lemma {:induction false} AlwaysSound(schedule: seq<Action>, limits: Limits)
    ensures Sound(After(schedule, limits), limits)
  {
    hide Sound, Next;
    if schedule == [] {
      InitialSound(limits);
    } else {
      AlwaysSound(DropLast(schedule), limits);
      var s := After(DropLast(schedule), limits);
      if Enabled(s, Last(schedule), limits) {
        NextSound(s, Last(schedule), limits);
      }
    }
  }
}
