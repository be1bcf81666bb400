/** What a search guarantees at every lock release of every schedule. */
module MctsTheorems {
  import opened Prelude
  import opened MctsShape
  import opened MctsTree
  import opened MctsPlayouts

  function VisitsOf(t: Tree): NodeId -> int {
    c => if c in t.nodes then t.nodes[c].visits else 0
  }

  lemma {:induction false} SameTotals(f: NodeId -> int, g: NodeId -> int, s: seq<NodeId>)
    requires forall i | 0 <= i < |s| :: f(s[i]) == g(s[i])
    ensures Total(f, s) == Total(g, s)
  {
    if s != [] {
      SameTotals(f, g, s[1..]);
    }
  }

  /** Counters: a node's visits and total reward are the number and the reward
      sum of the playouts already backpropagated in its subtree, even while a
      child is ahead of its own parent; its best reward is their maximum (never
      below 0), attained first by the run it names. */
  lemma CountersExact(schedule: seq<Action>, limits: Limits, v: NodeId)
    requires v in After(schedule, limits).tree.nodes
    ensures var s := After(schedule, limits);
            var n := s.tree.nodes[v];
            && n.visits == Hits(ShapeOf(s.tree), v, s.completed)
            && n.totalReward == Rewards(ShapeOf(s.tree), v, s.completed)
            && IsBest(ShapeOf(s.tree), v, s.completed, n.bestReward, n.bestLeafRunId)
  {
    AlwaysSound(schedule, limits);
    hide After, Hits, Rewards, IsBest, ShapeOf, WellFormed, Owned, Crowds;
  }

  /** Conservation: a node's visits are its own playout (0 or 1) plus the visits
      of its children; the root has no playout of its own, and its visits are
      the completed playouts. */
  lemma VisitsConserved(schedule: seq<Action>, limits: Limits, v: NodeId)
    requires v in After(schedule, limits).tree.nodes
    ensures var s := After(schedule, limits);
            && s.tree.nodes[v].visits == Own(v, s.completed) + Total(VisitsOf(s.tree), s.tree.nodes[v].children)
            && Own(v, s.completed) <= 1
            && (v == ROOT ==> Own(v, s.completed) == 0 && s.tree.nodes[v].visits == |s.completed|)
  {
    AlwaysSound(schedule, limits);
    var s := After(schedule, limits);
    var shape, kids := ShapeOf(s.tree), s.tree.nodes[v].children;
    SystemVisits(s, limits, v);
  }

  lemma SystemVisits(s: System, limits: Limits, v: NodeId)
    requires Sound(s, limits) && v in s.tree.nodes
    ensures s.tree.nodes[v].visits == Own(v, s.completed) + Total(VisitsOf(s.tree), s.tree.nodes[v].children)
    ensures Own(v, s.completed) <= 1
    ensures v == ROOT ==> Own(v, s.completed) == 0 && s.tree.nodes[v].visits == |s.completed|
  {
    var shape, kids := ShapeOf(s.tree), s.tree.nodes[v].children;
    assert forall p | p in s.completed :: p.leaf in shape.order;
    HitsOverChildren(shape, v, kids, s.completed);
    forall i | 0 <= i < |kids| ensures HitsOf(shape, s.completed)(kids[i]) == VisitsOf(s.tree)(kids[i]) {
      assert kids[i] in kids && kids[i] in shape.parent;
    }
    SameTotals(HitsOf(shape, s.completed), VisitsOf(s.tree), kids);
    OwnMember(v, s.completed);
    RootHitsAll(shape, s.completed);
  }

  /** Playouts are accounted for: started = in flight + aborted + completed,
      never more than asked for, and never more in flight than workers. */
  lemma PlayoutsAccounted(schedule: seq<Action>, limits: Limits)
    ensures var s := After(schedule, limits);
            && s.started == |s.inFlight| + s.aborted + |s.completed| <= limits.playouts
            && |s.inFlight| <= limits.parallelism
  {
    AlwaysSound(schedule, limits);
    hide After, WellFormed, Counted, Owned;
  }

  /** Fan-out: a node's children together with the playouts still simulating
      from it never exceed the number of workers. */
  lemma FanOutBounded(schedule: seq<Action>, limits: Limits, v: NodeId)
    requires v in After(schedule, limits).tree.nodes
    ensures var s := After(schedule, limits);
            |s.tree.nodes[v].children| + |WaitingOn(s.inFlight, v)| <= limits.parallelism
  {
    AlwaysSound(schedule, limits);
    hide After, WellFormed, Counted, Owned;
  }

  /** With one worker the search never branches: each node's parent is the node
      inserted just before it. */
  lemma SingleWorkerChain(schedule: seq<Action>, limits: Limits, i: nat)
    requires limits.parallelism == 1
    requires 1 <= i < |After(schedule, limits).tree.order|
    ensures var t := After(schedule, limits).tree;
            t.order[i] in t.nodes && t.nodes[t.order[i]].parent == Some(t.order[i - 1])
  {
    AlwaysSound(schedule, limits);
    var s := After(schedule, limits);
    hide After, Counted, Owned;
    var shape := ShapeOf(s.tree);
    forall a, b | a in shape.parent && b in shape.parent && shape.parent[a] == shape.parent[b] ensures a == b {
      assert Climbs(shape, a);
      OnlyMember(s.tree.nodes[shape.parent[a]].children, a, b);
    }
    ChainAt(shape, i);
  }

  lemma OnlyMember(s: seq<NodeId>, a: NodeId, b: NodeId)
    requires |s| <= 1 && a in s && b in s
    ensures a == b
  {
  }

  lemma ClimbAt(s: Shape, i: nat)
    requires Rooted(s) && 1 <= i < |s.order|
    ensures s.order[i] in s.parent && s.parent[s.order[i]] in s.order
    ensures Distinct(s.order) && IndexOf(s.order, s.parent[s.order[i]]) < i
  {
    var id := s.order[i];
    assert id in s.order && id != ROOT;
    assert Climbs(s, id);
    IndexUnique(s.order, i);
  }

  /** Without siblings, insertion order is the chain of parents. */
  lemma {:induction false} ChainAt(s: Shape, i: nat)
    requires Rooted(s) && 1 <= i < |s.order|
    requires forall a, b | a in s.parent && b in s.parent && s.parent[a] == s.parent[b] :: a == b
    ensures s.order[i] in s.parent && s.parent[s.order[i]] == s.order[i - 1]
  {
    hide IndexOf;
    var id := s.order[i];
    ClimbAt(s, i);
    var j := IndexOf(s.order, s.parent[id]);
    if j < i - 1 {
      hide Rooted;
      IndexUnique(s.order, i);
      IndexUnique(s.order, j + 1);
      ChainAt(s, j + 1);
    }
  }

  function LeavesUnder(s: Shape, v: NodeId, done: seq<Playout>): set<NodeId> {
    set p | p in done && Under(s, v, p) :: p.leaf
  }

  lemma {:induction false} HitsAreDistinct(s: Shape, v: NodeId, done: seq<Playout>)
    requires forall p | p in done :: Own(p.leaf, done) == 1
    ensures Hits(s, v, done) == |LeavesUnder(s, v, done)|
  {
    hide Under;
    if done != [] {
      var front, p := DropLast(done), Last(done);
      assert done == front + [p];
      OwnMember(p.leaf, front);
      assert p in done;
      forall q | q in front ensures Own(q.leaf, front) == 1 {
        OwnMember(q.leaf, front);
        assert q in done;
      }
      HitsAreDistinct(s, v, front);
      hide Own;
      if Under(s, v, p) {
        assert LeavesUnder(s, v, done) == LeavesUnder(s, v, front) + {p.leaf};
        assert p.leaf !in LeavesUnder(s, v, front);
      } else {
        assert LeavesUnder(s, v, done) == LeavesUnder(s, v, front);
      }
    }
  }

  /** When no playout is in flight, every node's visits are the size of its
      subtree, the root itself not counted. */
  lemma VisitsAreSubtreeSizes(schedule: seq<Action>, limits: Limits, v: NodeId)
    requires After(schedule, limits).inFlight == map[]
    requires v in After(schedule, limits).tree.nodes
    ensures var s := After(schedule, limits);
            s.tree.nodes[v].visits == |Below(ShapeOf(s.tree), v, s.tree.nodes.Keys)|
  {
    AlwaysSound(schedule, limits);
    var s := After(schedule, limits);
    EveryNodeCompleted(s);
    var shape := ShapeOf(s.tree);
    hide After, WellFormed, Counted, Owned, Crowds, Hits, LeavesUnder, Below, ShapeOf, IsBest, Own;
    HitsAreDistinct(shape, v, s.completed);
    BelowAreLeaves(shape, v, s.tree.nodes.Keys, s.completed);
    CountersExact(schedule, limits, v);
  }

  function Below(s: Shape, v: NodeId, nodes: set<NodeId>): set<NodeId> {
    set u | u in nodes && u != ROOT && v in Line(s, u)
  }

  lemma BelowAreLeaves(s: Shape, v: NodeId, nodes: set<NodeId>, done: seq<Playout>)
    requires forall p | p in done :: p.leaf in nodes && p.leaf != ROOT
    requires forall u | u in nodes && u != ROOT :: exists p :: p in done && p.leaf == u
    ensures Below(s, v, nodes) == LeavesUnder(s, v, done)
  {
    hide Line;
    forall u | u in Below(s, v, nodes) ensures u in LeavesUnder(s, v, done) {
      var p :| p in done && p.leaf == u;
      assert Under(s, v, p);
    }
  }

  /** With nothing in flight the completed playouts and the nodes correspond. */
  lemma EveryNodeCompleted(s: System)
    requires Owned(s) && s.inFlight == map[]
    ensures forall p | p in s.completed :: p.leaf in s.tree.nodes && p.leaf != ROOT && Own(p.leaf, s.completed) == 1
    ensures forall u | u in s.tree.nodes && u != ROOT :: exists p :: p in s.completed && p.leaf == u
  {
    forall u | u in s.tree.nodes && u != ROOT ensures exists p :: p in s.completed && p.leaf == u {
      OwnMember(u, s.completed);
    }
  }

  // The pool finishes ------------------------------------------------------------

  /** Every action of the schedule could happen when its turn came. */
  predicate AllEnabled(schedule: seq<Action>, limits: Limits) {
    schedule == []
    || (&& AllEnabled(DropLast(schedule), limits)
        && Enabled(After(DropLast(schedule), limits), Last(schedule), limits))
  }

  /** The lock sections the pool still has to run: three for a playout that has
      not begun, two for one simulating, one for one to be credited. */
  function Work(s: System, limits: Limits): int {
    3 * (limits.playouts - s.started) + |s.inFlight| + |Simulators(s.inFlight)|
  }

  function Simulators(inFlight: map<nat, Phase>): set<nat> {
    set who | who in inFlight && inFlight[who].Simulating?
  }

  lemma BeginWorks(inFlight: map<nat, Phase>, who: nat, leaf: NodeId)
    requires who !in inFlight
    ensures var after := inFlight[who := Simulating(leaf)];
            |after| == |inFlight| + 1 && |Simulators(after)| == |Simulators(inFlight)| + 1
  {
    var after := inFlight[who := Simulating(leaf)];
    assert after.Keys == inFlight.Keys + {who};
    assert Simulators(after) == Simulators(inFlight) + {who};
  }

  lemma ReturnWorks(inFlight: map<nat, Phase>, who: nat, id: NodeId, reward: real)
    requires who in inFlight && inFlight[who].Simulating?
    ensures var after := inFlight[who := Scored(id, reward)];
            |after| == |inFlight| && |Simulators(after)| + 1 == |Simulators(inFlight)|
  {
    var after := inFlight[who := Scored(id, reward)];
    assert after.Keys == inFlight.Keys;
    assert Simulators(inFlight) == Simulators(after) + {who};
  }

  lemma LeaveWorks(inFlight: map<nat, Phase>, who: nat)
    requires who in inFlight
    ensures var after := inFlight - {who};
            && |after| + 1 == |inFlight|
            && |Simulators(after)| == |Simulators(inFlight)| - (if inFlight[who].Simulating? then 1 else 0)
  {
    var after := inFlight - {who};
    assert inFlight.Keys == after.Keys + {who};
    assert Simulators(after) == Simulators(inFlight) - {who};
  }

  lemma ActionWorks(s: System, a: Action, limits: Limits)
    requires Enabled(s, a, limits) && s.started !in s.inFlight
    ensures Work(Next(s, a, limits), limits) < Work(s, limits)
  {
    hide Recorded, Credited, Simulators;
    match a {
      case Select(leaf) => BeginWorks(s.inFlight, s.started, leaf);
      case Record(who, runId, _, reward) => ReturnWorks(s.inFlight, who, NodeId(runId, 0), reward);
      case Backprop(who) => LeaveWorks(s.inFlight, who);
      case Abort(who) => LeaveWorks(s.inFlight, who);
    }
  }

  /** The next playout is nobody's yet. */
  lemma NextIsNew(schedule: seq<Action>, limits: Limits)
    ensures After(schedule, limits).started !in After(schedule, limits).inFlight
    ensures Work(After(schedule, limits), limits) >= 0
  {
    AlwaysSound(schedule, limits);
    hide After, WellFormed, Counted, Owned, WaitingOn, Simulators;
  }

  /** No search is longer than three lock sections a playout, however many
      workers share the lock. */
  lemma {:induction false} SearchIsBounded(schedule: seq<Action>, limits: Limits)
    requires AllEnabled(schedule, limits)
    ensures |schedule| + Work(After(schedule, limits), limits) <= 3 * limits.playouts
    ensures |schedule| <= 3 * limits.playouts
  {
    hide Enabled, Next, Work;
    NextIsNew(schedule, limits);
    if schedule != [] {
      var front := DropLast(schedule);
      SearchIsBounded(front, limits);
      NextIsNew(front, limits);
      ActionWorks(After(front, limits), Last(schedule), limits);
    } else {
      assert Work(INITIAL, limits) == 3 * limits.playouts by { NothingInFlight(limits); }
    }
  }

  lemma NothingInFlight(limits: Limits)
    ensures Work(INITIAL, limits) == 3 * limits.playouts
  {
    assert Simulators(map[]) == {};
  }

  lemma ChildIsLater(t: Tree, id: NodeId, kid: NodeId)
    requires WellFormed(t) && id in t.nodes && kid in t.nodes[id].children
    ensures kid in t.order && id in t.order && IndexOf(t.order, id) < IndexOf(t.order, kid)
  {
    assert ChildrenOf(ShapeOf(t), id, t.nodes[id].children);
    assert Climbs(ShapeOf(t), kid);
  }

  /** The node inserted last has no children. */
  lemma LastIsLeaf(t: Tree)
    requires WellFormed(t)
    ensures Last(t.order) in t.nodes && t.nodes[Last(t.order)].children == []
  {
    var id := Last(t.order);
    assert id in t.order;
    IndexUnique(t.order, |t.order| - 1);
    if t.nodes[id].children != [] {
      var kid := t.nodes[id].children[0];
      assert kid in t.nodes[id].children;
      ChildIsLater(t, id, kid);
    }
  }

  function Longest(order: seq<NodeId>): (n: nat)
    ensures forall id | id in order :: |id.runId| <= n
  {
    if order == [] then 0
    else
      var n := Longest(order[1..]);
      assert forall id | id in order :: id == order[0] || id in order[1..];
      if |order[0].runId| > n then |order[0].runId| else n
  }

  /** There is always a fresh run id. */
  lemma FreshRun(t: Tree) returns (runId: string)
    requires WellFormed(t)
    ensures NodeId(runId, 0) !in t.nodes
  {
    runId := Repeat('0', Longest(t.order) + 1);
  }

  /** While a playout has not begun or is in flight, some worker can go on, and
      not only by failing. */
  lemma SearchGoesOn(schedule: seq<Action>, limits: Limits) returns (a: Action)
    requires limits.parallelism > 0
    requires var s := After(schedule, limits); s.started < limits.playouts || s.inFlight != map[]
    ensures Enabled(After(schedule, limits), a, limits) && !a.Abort?
  {
    AlwaysSound(schedule, limits);
    var s := After(schedule, limits);
    hide After, Counted, Owned, WaitingOn;
    if s.inFlight != map[] {
      var who :| who in s.inFlight;
      if s.inFlight[who].Simulating? {
        var runId := FreshRun(s.tree);
        a := Record(who, runId, "", 0.0);
      } else {
        a := Backprop(who);
      }
    } else {
      LastIsLeaf(s.tree);
      a := Select(Last(s.tree.order));
    }
  }

  /** Nothing is left to do: every playout has begun and none is in flight. */
  predicate Drained(s: System, limits: Limits) {
    s.started == limits.playouts && s.inFlight == map[]
  }

  /** The pool is drained exactly when no worker can take a turn; the root has
      then been visited once for every playout that did not fail. */
  lemma DrainedIff(schedule: seq<Action>, limits: Limits)
    requires limits.parallelism > 0
    ensures var s := After(schedule, limits);
            && (Drained(s, limits) <==> forall a :: !Enabled(s, a, limits))
            && ROOT in s.tree.nodes
            && (Drained(s, limits) ==> s.tree.nodes[ROOT].visits + s.aborted == limits.playouts)
  {
    var s := After(schedule, limits);
    assert ROOT in s.tree.nodes by {
      AlwaysSound(schedule, limits);
      RootPresent(s.tree);
    }
    VisitsConserved(schedule, limits, ROOT);
    PlayoutsAccounted(schedule, limits);
    hide After, Own, VisitsOf;
    if Drained(s, limits) {
      forall a ensures !Enabled(s, a, limits) {
      }
    } else {
      var a := SearchGoesOn(schedule, limits);
      hide Enabled;
    }
  }

  lemma RootPresent(t: Tree)
    requires WellFormed(t)
    ensures ROOT in t.nodes
  {
    assert t.order[0] == ROOT;
  }

  /** Wherever a search stands, it can be finished without a failure. */
  lemma {:induction false} SearchCanFinish(schedule: seq<Action>, limits: Limits) returns (whole: seq<Action>)
    requires limits.parallelism > 0 && AllEnabled(schedule, limits)
    ensures AllEnabled(whole, limits) && schedule <= whole && |whole| <= 3 * limits.playouts
    ensures Drained(After(whole, limits), limits)
    ensures After(whole, limits).aborted == After(schedule, limits).aborted
    decreases 3 * limits.playouts - |schedule|
  {
    SearchIsBounded(schedule, limits);
    AlwaysSound(schedule, limits);
    hide Enabled, Sound, Work;
    if Drained(After(schedule, limits), limits) {
      whole := schedule;
    } else {
      var a := SearchGoesOn(schedule, limits);
      var longer := schedule + [a];
      SnocParts(schedule, a);
      SearchIsBounded(longer, limits);
      NoneAborted(After(schedule, limits), a, limits);
      whole := SearchCanFinish(longer, limits);
    }
  }

  lemma NoneAborted(s: System, a: Action, limits: Limits)
    requires Enabled(s, a, limits) && !a.Abort?
    ensures Next(s, a, limits).aborted == s.aborted
  {
  }

  // Where nodes and rewards come from ---------------------------------------------

  /** Action i recorded the node, under the leaf its playout had selected. */
  predicate RecordedBy(schedule: seq<Action>, limits: Limits, i: nat, id: NodeId, n: NodeData)
    requires i < |schedule|
  {
    var s := After(schedule[..i], limits);
    && schedule[i].Record? && Enabled(s, schedule[i], limits)
    && id == NodeId(schedule[i].runId, 0)
    && n.variant == schedule[i].variant
    && n.parent == Some(s.inFlight[schedule[i].who].parent)
  }

  /** Action i recorded the playout's leaf, with the playout's reward. */
  predicate EarnedBy(schedule: seq<Action>, limits: Limits, i: nat, p: Playout)
    requires i < |schedule|
  {
    && schedule[i].Record? && Enabled(After(schedule[..i], limits), schedule[i], limits)
    && p == Playout(NodeId(schedule[i].runId, 0), schedule[i].reward)
  }

  ghost predicate Originates(schedule: seq<Action>, limits: Limits) {
    var s := After(schedule, limits);
    && (forall id | id in s.tree.nodes && id != ROOT ::
          exists i | 0 <= i < |schedule| :: RecordedBy(schedule, limits, i, id, s.tree.nodes[id]))
    && (forall p | p in s.completed :: exists i | 0 <= i < |schedule| :: EarnedBy(schedule, limits, i, p))
    && (forall who | who in s.inFlight && s.inFlight[who].Scored? ::
          exists i | 0 <= i < |schedule| ::
            EarnedBy(schedule, limits, i, Playout(s.inFlight[who].leaf, s.inFlight[who].reward)))
  }

  lemma RecordedStays(schedule: seq<Action>, a: Action, limits: Limits, i: nat, id: NodeId, n: NodeData, now: NodeData)
    requires i < |schedule| && RecordedBy(schedule, limits, i, id, n)
    requires now.variant == n.variant && now.parent == n.parent
    ensures RecordedBy(schedule + [a], limits, i, id, now)
  {
    hide After, Enabled;
    assert (schedule + [a])[..i] == schedule[..i];
  }

  lemma EarnedStays(schedule: seq<Action>, a: Action, limits: Limits, i: nat, p: Playout)
    requires i < |schedule| && EarnedBy(schedule, limits, i, p)
    ensures EarnedBy(schedule + [a], limits, i, p)
  {
    hide After, Enabled;
    assert (schedule + [a])[..i] == schedule[..i];
  }

  /** What an action leaves of a node that was there, and where a new one comes from. */
  lemma NodeAfter(s: System, a: Action, limits: Limits, id: NodeId)
    requires Enabled(s, a, limits) && id in Next(s, a, limits).tree.nodes
    ensures var n := Next(s, a, limits).tree.nodes[id];
            if id in s.tree.nodes && !(a.Record? && id == NodeId(a.runId, 0))
            then n.variant == s.tree.nodes[id].variant && n.parent == s.tree.nodes[id].parent
            else && a.Record? && id == NodeId(a.runId, 0) && n.variant == a.variant
                 && n.parent == Some(s.inFlight[a.who].parent)
  {
    hide Under;
  }

  /** Every playout scored or completed after an action was so before, or the
      action recorded it. */
  lemma PlayoutAfter(s: System, a: Action, limits: Limits)
    requires Enabled(s, a, limits)
    ensures var after := Next(s, a, limits);
            && (forall p | p in after.completed :: p in s.completed
                  || (exists who :: who in s.inFlight && s.inFlight[who] == Scored(p.leaf, p.reward)))
            && (forall who | who in after.inFlight && after.inFlight[who].Scored? ::
                  (who in s.inFlight && after.inFlight[who] == s.inFlight[who])
                  || (a.Record? && after.inFlight[who] == Scored(NodeId(a.runId, 0), a.reward)))
  {
    hide Recorded, Credited;
    var after := Next(s, a, limits);
    if a.Backprop? {
      assert s.inFlight[a.who] == Scored(s.inFlight[a.who].leaf, s.inFlight[a.who].reward);
    }
  }

  lemma NodesOriginate(front: seq<Action>, a: Action, limits: Limits, id: NodeId)
    requires Originates(front, limits) && Enabled(After(front, limits), a, limits)
    requires id in After(front + [a], limits).tree.nodes && id != ROOT
    ensures exists i | 0 <= i < |front + [a]| ::
              RecordedBy(front + [a], limits, i, id, After(front + [a], limits).tree.nodes[id])
  {
    hide After, Enabled, Next, RecordedBy;
    var s, schedule := After(front, limits), front + [a];
    AfterSnoc(front, a, limits);
    NodeAfter(s, a, limits, id);
    var n := After(schedule, limits).tree.nodes[id];
    if id in s.tree.nodes && !(a.Record? && id == NodeId(a.runId, 0)) {
      var i :| 0 <= i < |front| && RecordedBy(front, limits, i, id, s.tree.nodes[id]);
      RecordedStays(front, a, limits, i, id, s.tree.nodes[id], n);
    } else {
      RecordedLast(front, a, limits, n);
    }
  }

  lemma RecordedLast(front: seq<Action>, a: Action, limits: Limits, n: NodeData)
    requires Enabled(After(front, limits), a, limits) && a.Record?
    requires n.variant == a.variant && n.parent == Some(After(front, limits).inFlight[a.who].parent)
    ensures RecordedBy(front + [a], limits, |front|, NodeId(a.runId, 0), n)
    ensures EarnedBy(front + [a], limits, |front|, Playout(NodeId(a.runId, 0), a.reward))
  {
    hide After;
    assert (front + [a])[..|front|] == front;
  }

  lemma AfterSnoc(front: seq<Action>, a: Action, limits: Limits)
    ensures After(front + [a], limits)
         == if Enabled(After(front, limits), a, limits) then Next(After(front, limits), a, limits)
            else After(front, limits)
  {
    hide Enabled, Next;
    SnocParts(front, a);
  }

  lemma PlayoutsOriginate(front: seq<Action>, a: Action, limits: Limits)
    requires Originates(front, limits) && Enabled(After(front, limits), a, limits)
    ensures var s := After(front + [a], limits);
            && (forall p | p in s.completed ::
                  exists i | 0 <= i < |front + [a]| :: EarnedBy(front + [a], limits, i, p))
            && (forall who | who in s.inFlight && s.inFlight[who].Scored? ::
                  exists i | 0 <= i < |front + [a]| ::
                    EarnedBy(front + [a], limits, i, Playout(s.inFlight[who].leaf, s.inFlight[who].reward)))
  {
    hide After, Enabled, Next, RecordedBy, EarnedBy;
    var before, schedule := After(front, limits), front + [a];
    AfterSnoc(front, a, limits);
    PlayoutAfter(before, a, limits);
    var s := After(schedule, limits);
    forall p | p in s.completed ensures exists i | 0 <= i < |schedule| :: EarnedBy(schedule, limits, i, p) {
      if p !in before.completed {
        var who :| who in before.inFlight && before.inFlight[who] == Scored(p.leaf, p.reward);
        assert Playout(before.inFlight[who].leaf, before.inFlight[who].reward) == p;
      }
      var i :| 0 <= i < |front| && EarnedBy(front, limits, i, p);
      EarnedStays(front, a, limits, i, p);
    }
    forall who | who in s.inFlight && s.inFlight[who].Scored?
      ensures exists i | 0 <= i < |schedule| ::
                EarnedBy(schedule, limits, i, Playout(s.inFlight[who].leaf, s.inFlight[who].reward))
    {
      var p := Playout(s.inFlight[who].leaf, s.inFlight[who].reward);
      if who in before.inFlight && s.inFlight[who] == before.inFlight[who] {
        var i :| 0 <= i < |front| && EarnedBy(front, limits, i, p);
        EarnedStays(front, a, limits, i, p);
      } else {
        RecordEarns(front, a, limits);
      }
    }
  }

  lemma RecordEarns(front: seq<Action>, a: Action, limits: Limits)
    requires Enabled(After(front, limits), a, limits) && a.Record?
    ensures EarnedBy(front + [a], limits, |front|, Playout(NodeId(a.runId, 0), a.reward))
  {
    hide After;
    assert (front + [a])[..|front|] == front;
  }

  /** Origins: every node but the root was recorded by an action of the schedule,
      with that action's prompt variant, under the leaf its playout had
      selected; and every reward credited is the one its action brought. */
  lemma {:induction false} NodesAndRewardsOriginate(schedule: seq<Action>, limits: Limits)
    ensures Originates(schedule, limits)
  {
    hide Enabled, Next, RecordedBy, EarnedBy;
    if schedule != [] {
      hide After;
      var front, a := DropLast(schedule), Last(schedule);
      assert schedule == front + [a];
      NodesAndRewardsOriginate(front, limits);
      AfterSnoc(front, a, limits);
      if Enabled(After(front, limits), a, limits) {
        forall id | id in After(schedule, limits).tree.nodes && id != ROOT
          ensures exists i | 0 <= i < |schedule| ::
                    RecordedBy(schedule, limits, i, id, After(schedule, limits).tree.nodes[id])
        {
          NodesOriginate(front, a, limits, id);
        }
        PlayoutsOriginate(front, a, limits);
      } else {
        OriginsStay(front, a, limits);
      }
    }
  }

  lemma OriginsStay(front: seq<Action>, a: Action, limits: Limits)
    requires Originates(front, limits) && After(front + [a], limits) == After(front, limits)
    ensures Originates(front + [a], limits)
  {
    hide After, Enabled, RecordedBy, EarnedBy;
    var s, schedule := After(front, limits), front + [a];
    forall id | id in s.tree.nodes && id != ROOT
      ensures exists i | 0 <= i < |schedule| :: RecordedBy(schedule, limits, i, id, s.tree.nodes[id])
    {
      var i :| 0 <= i < |front| && RecordedBy(front, limits, i, id, s.tree.nodes[id]);
      RecordedStays(front, a, limits, i, id, s.tree.nodes[id], s.tree.nodes[id]);
    }
    forall p | p in s.completed ensures exists i | 0 <= i < |schedule| :: EarnedBy(schedule, limits, i, p) {
      var i :| 0 <= i < |front| && EarnedBy(front, limits, i, p);
      EarnedStays(front, a, limits, i, p);
    }
    forall who | who in s.inFlight && s.inFlight[who].Scored?
      ensures exists i | 0 <= i < |schedule| ::
                EarnedBy(schedule, limits, i, Playout(s.inFlight[who].leaf, s.inFlight[who].reward))
    {
      var p := Playout(s.inFlight[who].leaf, s.inFlight[who].reward);
      var i :| 0 <= i < |front| && EarnedBy(front, limits, i, p);
      EarnedStays(front, a, limits, i, p);
    }
  }
}
