/** `Node` and `MctsSearch` of `termiclaw/mcts.py`: the sections executed under
    the lock, updating the shared nodes in place. */
module Mcts {
  import opened Prelude
  import opened MctsShape
  import opened MctsTree
  import MctsTheorems
  import P = MctsPlayouts

  // Scores ---------------------------------------------------------------------

  /** A UCB1 score; unvisited nodes score infinity. */
  datatype Score = Infinite | Finite(value: real)

  predicate Exceeds(a: Score, b: Score) {
    match (a, b)
    case (Infinite, Finite(_)) => true
    case (Finite(x), Finite(y)) => x > y
    case _ => false
  }

  function MeanReward(n: NodeData): real {
    if n.visits == 0 then 0.0 else n.totalReward / (n.visits as real)
  }

  /** `ucb1`; `explore` stands for c * sqrt(log(parentVisits) / visits). */
  function Ucb1(n: NodeData, parentVisits: nat, explore: (nat, nat) -> real): Score {
    if n.visits == 0 then Infinite else Finite(MeanReward(n) + explore(parentVisits, n.visits))
  }

  /** Python's `max`: the first of the greatest. */
  predicate FirstGreatest(scores: seq<Score>, i: nat) {
    && i < |scores|
    && (forall j | 0 <= j < |scores| :: !Exceeds(scores[j], scores[i]))
    && (forall j | 0 <= j < i :: Exceeds(scores[i], scores[j]))
  }

  lemma FirstGreatestUnique(scores: seq<Score>, i: nat, j: nat)
    requires FirstGreatest(scores, i) && FirstGreatest(scores, j)
    ensures i == j
  {
    hide Exceeds;
    assert !Exceeds(scores[j], scores[i]) && !Exceeds(scores[i], scores[j]);
  }

  method MaxIndex(scores: seq<Score>) returns (best: nat)
    requires scores != []
    ensures best < |scores| && FirstGreatest(scores, best)
  {
    best := 0;
    for i := 1 to |scores|
      invariant best < i
      invariant forall j | 0 <= j < i :: !Exceeds(scores[j], scores[best])
      invariant forall j | 0 <= j < best :: Exceeds(scores[best], scores[j])
    {
      if Exceeds(scores[i], scores[best]) {
        best := i;
      }
    }
  }

  function ChildScores(t: Tree, id: NodeId, explore: (nat, nat) -> real): seq<Score>
    requires id in t.nodes
    requires forall c | c in t.nodes[id].children :: c in t.nodes
  {
    var kids := t.nodes[id].children;
    var parentVisits := if t.nodes[id].visits > 1 then t.nodes[id].visits else 1;
    seq(|kids|, i requires 0 <= i < |kids| => Ucb1(t.nodes[kids[i]], parentVisits, explore))
  }

  /** path starts at the root and always goes on to the first child of greatest score. */
  ghost predicate UcbPath(t: Tree, path: seq<NodeId>, explore: (nat, nat) -> real) {
    && path != [] && path[0] == ROOT
    && (forall i | 0 <= i < |path| ::
          path[i] in t.nodes && forall c | c in t.nodes[path[i]].children :: c in t.nodes)
    && (forall i | 0 <= i < |path| - 1 :: UcbStep(t, path[i], path[i + 1], explore))
  }

  ghost predicate UcbStep(t: Tree, id: NodeId, next: NodeId, explore: (nat, nat) -> real)
    requires id in t.nodes
    requires forall c | c in t.nodes[id].children :: c in t.nodes
  {
    exists k: nat :: && FirstGreatest(ChildScores(t, id, explore), k)
                     && k < |ChildScores(t, id, explore)|
                     && t.nodes[id].children[k] == next
  }

  lemma {:induction false} DescentsAgree(t: Tree, a: seq<NodeId>, b: seq<NodeId>, explore: (nat, nat) -> real, n: nat)
    requires UcbPath(t, a, explore) && UcbPath(t, b, explore)
    requires t.nodes[Last(b)].children == []
    requires n < |a|
    ensures n < |b| && a[n] == b[n]
  {
    hide Ucb1, Exceeds;
    if n > 0 {
      DescentsAgree(t, a, b, explore, n - 1);
      assert UcbStep(t, a[n - 1], a[n], explore);
      assert t.nodes[a[n - 1]].children != [];
      assert UcbStep(t, b[n - 1], b[n], explore);
      StepUnique(t, a[n - 1], a[n], b[n], explore);
    }
  }

  lemma StepUnique(t: Tree, id: NodeId, x: NodeId, y: NodeId, explore: (nat, nat) -> real)
    requires id in t.nodes
    requires forall c | c in t.nodes[id].children :: c in t.nodes
    requires UcbStep(t, id, x, explore) && UcbStep(t, id, y, explore)
    ensures x == y
  {
    var scores := ChildScores(t, id, explore);
    hide FirstGreatest, Ucb1;
    var i: nat :| FirstGreatest(scores, i) && i < |scores| && t.nodes[id].children[i] == x;
    var j: nat :| FirstGreatest(scores, j) && j < |scores| && t.nodes[id].children[j] == y;
    FirstGreatestUnique(scores, i, j);
  }

  /** Selection is determined by the tree: two complete descents are the same. */
  lemma DescentUnique(t: Tree, a: seq<NodeId>, b: seq<NodeId>, explore: (nat, nat) -> real)
    requires UcbPath(t, a, explore) && UcbPath(t, b, explore)
    requires t.nodes[Last(a)].children == [] && t.nodes[Last(b)].children == []
    ensures a == b
  {
    hide ChildScores, UcbStep;
    forall n | 0 <= n < |a| ensures n < |b| && a[n] == b[n] {
      DescentsAgree(t, a, b, explore, n);
    }
    DescentsAgree(t, b, a, explore, |b| - 1);
  }

  /** Unvisited children come first: where a descent passes a node with an
      unvisited child, it goes on to the first unvisited one. */
  lemma UnvisitedFirst(t: Tree, path: seq<NodeId>, explore: (nat, nat) -> real, i: nat, k: nat)
    requires UcbPath(t, path, explore) && i < |path| - 1
    requires k < |t.nodes[path[i]].children| && t.nodes[t.nodes[path[i]].children[k]].visits == 0
    requires forall j | 0 <= j < k :: t.nodes[t.nodes[path[i]].children[j]].visits > 0
    ensures path[i + 1] == t.nodes[path[i]].children[k]
  {
    assert UcbStep(t, path[i], path[i + 1], explore);
    var scores, kids := ChildScores(t, path[i], explore), t.nodes[path[i]].children;
    var m: nat :| FirstGreatest(scores, m) && m < |scores| && kids[m] == path[i + 1];
    forall j | 0 <= j < k ensures scores[j].Finite? {
      assert t.nodes[kids[j]].visits > 0;
    }
    assert scores[k] == Infinite;
    InfiniteFirst(scores, m, k);
  }

  lemma InfiniteFirst(scores: seq<Score>, m: nat, k: nat)
    requires FirstGreatest(scores, m) && k < |scores| && scores[k] == Infinite
    requires forall j | 0 <= j < k :: scores[j].Finite?
    ensures m == k
  {
    assert !Exceeds(scores[k], scores[m]);
  }

  /** A mean is what times the visits gives the total. */
  lemma MeanIs(n: NodeData, mean: real)
    requires n.visits > 0 && mean * (n.visits as real) == n.totalReward
    ensures MeanReward(n) == mean
  {
    assert n.totalReward / (n.visits as real) == mean;
  }

  /** Where every child is visited, a descent goes on to the first child of
      greatest mean reward plus exploration term. */
  lemma VisitedBest(
    t: Tree, path: seq<NodeId>, explore: (nat, nat) -> real, i: nat, k: nat, j: nat, meanJ: real, meanK: real)
    requires WellFormed(t) && UcbPath(t, path, explore) && i < |path| - 1
    requires forall c | c in t.nodes[path[i]].children :: t.nodes[c].visits > 0
    requires var kids := t.nodes[path[i]].children;
             && k < |kids| && kids[k] == path[i + 1] && j < |kids|
             && meanJ * (t.nodes[kids[j]].visits as real) == t.nodes[kids[j]].totalReward
             && meanK * (t.nodes[kids[k]].visits as real) == t.nodes[kids[k]].totalReward
    ensures var n, kids := t.nodes[path[i]], t.nodes[path[i]].children;
            var parentVisits := if n.visits == 0 then 1 else n.visits;
            var scoreJ := meanJ + explore(parentVisits, t.nodes[kids[j]].visits);
            var scoreK := meanK + explore(parentVisits, t.nodes[kids[k]].visits);
            scoreJ <= scoreK && (j < k ==> scoreJ < scoreK)
  {
    hide MeanReward, WellFormed, ChildScores, FirstGreatest, UcbStep;
    var scores, kids := ChildScores(t, path[i], explore), t.nodes[path[i]].children;
    assert kids[j] in kids && kids[k] in kids;
    ChosenIsFirst(t, path, explore, i, k);
    ScoreIs(t, path[i], explore, j, meanJ);
    ScoreIs(t, path[i], explore, k, meanK);
    FirstIsGreatest(scores, k, j);
  }

  /** The step of a descent, as an index among the children. */
  lemma ChosenIsFirst(t: Tree, path: seq<NodeId>, explore: (nat, nat) -> real, i: nat, k: nat)
    requires WellFormed(t) && UcbPath(t, path, explore) && i < |path| - 1
    requires k < |t.nodes[path[i]].children| && t.nodes[path[i]].children[k] == path[i + 1]
    ensures FirstGreatest(ChildScores(t, path[i], explore), k)
  {
    hide WellFormed, FirstGreatest, ChildScores;
    ScoreCount(t, path[i], explore);
    assert UcbStep(t, path[i], path[i + 1], explore);
    var m: nat :| && FirstGreatest(ChildScores(t, path[i], explore), m)
                  && m < |ChildScores(t, path[i], explore)|
                  && t.nodes[path[i]].children[m] == path[i + 1];
    OneIndex(t, path[i], m, k);
  }

  lemma ScoreCount(t: Tree, id: NodeId, explore: (nat, nat) -> real)
    requires id in t.nodes && forall c | c in t.nodes[id].children :: c in t.nodes
    ensures |ChildScores(t, id, explore)| == |t.nodes[id].children|
  {
    hide Ucb1;
  }

  /** The score of a visited child: mean reward plus exploration term. */
  lemma ScoreIs(t: Tree, id: NodeId, explore: (nat, nat) -> real, j: nat, mean: real)
    requires id in t.nodes && j < |t.nodes[id].children|
    requires forall c | c in t.nodes[id].children :: c in t.nodes
    requires var n := t.nodes[t.nodes[id].children[j]];
             n.visits > 0 && mean * (n.visits as real) == n.totalReward
    ensures j < |ChildScores(t, id, explore)|
    ensures var n := t.nodes[id];
            ChildScores(t, id, explore)[j]
            == Finite(mean + explore(if n.visits == 0 then 1 else n.visits, t.nodes[n.children[j]].visits))
  {
    hide MeanReward;
    MeanIs(t.nodes[t.nodes[id].children[j]], mean);
  }

  lemma FirstIsGreatest(scores: seq<Score>, k: nat, j: nat)
    requires FirstGreatest(scores, k) && j < |scores| && scores[j].Finite? && scores[k].Finite?
    ensures scores[j].value <= scores[k].value && (j < k ==> scores[j].value < scores[k].value)
  {
    assert !Exceeds(scores[j], scores[k]) && (j < k ==> Exceeds(scores[k], scores[j]));
  }

  lemma OneIndex(t: Tree, id: NodeId, m: nat, k: nat)
    requires WellFormed(t) && id in t.nodes
    requires m < |t.nodes[id].children| && k < |t.nodes[id].children|
    requires t.nodes[id].children[m] == t.nodes[id].children[k]
    ensures m == k
  {
    assert ChildrenOf(ShapeOf(t), id, t.nodes[id].children);
  }

  // Facts the loops need ---------------------------------------------------------

  lemma EmptyWellFormed()
    ensures WellFormed(EMPTY_TREE)
  {
    assert EMPTY_TREE.nodes[ROOT].children == [];
  }

  lemma KidsPresent(t: Tree, id: NodeId)
    requires WellFormed(t) && id in t.nodes
    ensures forall c | c in t.nodes[id].children :: c in t.nodes
  {
    assert ChildrenOf(ShapeOf(t), id, t.nodes[id].children);
  }

  lemma KidsLater(t: Tree, id: NodeId, kid: NodeId)
    requires WellFormed(t) && id in t.nodes && kid in t.nodes[id].children
    ensures id in t.order && kid in t.order && IndexOf(t.order, id) < IndexOf(t.order, kid)
  {
    assert ChildrenOf(ShapeOf(t), id, t.nodes[id].children);
    assert Climbs(ShapeOf(t), kid);
  }

  lemma PathBegins(t: Tree, explore: (nat, nat) -> real)
    requires WellFormed(t)
    ensures ROOT in t.nodes && ROOT in t.order && UcbPath(t, [ROOT], explore)
  {
    assert t.order[0] == ROOT;
    KidsPresent(t, ROOT);
  }

  lemma StepByBest(t: Tree, id: NodeId, explore: (nat, nat) -> real, best: nat)
    requires id in t.nodes
    requires forall c | c in t.nodes[id].children :: c in t.nodes
    requires FirstGreatest(ChildScores(t, id, explore), best)
    ensures best < |t.nodes[id].children| && UcbStep(t, id, t.nodes[id].children[best], explore)
  {
    hide Ucb1;
  }

  lemma PathExtends(t: Tree, path: seq<NodeId>, explore: (nat, nat) -> real, best: nat)
    requires WellFormed(t) && UcbPath(t, path, explore)
    requires FirstGreatest(ChildScores(t, Last(path), explore), best)
    ensures best < |t.nodes[Last(path)].children|
    ensures UcbPath(t, path + [t.nodes[Last(path)].children[best]], explore)
  {
    hide WellFormed, FirstGreatest, ChildScores, UcbStep;
    StepByBest(t, Last(path), explore, best);
    var next := t.nodes[Last(path)].children[best];
    assert next in t.nodes[Last(path)].children;
    KidsPresent(t, next);
    var longer := path + [next];
    forall i | 0 <= i < |longer| - 1 ensures UcbStep(t, longer[i], longer[i + 1], explore) {
      if i < |path| - 1 {
        assert UcbStep(t, path[i], path[i + 1], explore);
      } else {
        StepByBest(t, Last(path), explore, best);
      }
    }
  }

  /** A node of the tree half way through a backpropagation that has `rest` to go. */
  function Halfway(t: Tree, shape: Shape, p: Playout, id: NodeId, rest: set<NodeId>): NodeData
    requires id in t.nodes
  {
    if Under(shape, id, p) && id !in rest then Credit(t.nodes[id], p.reward, p.leaf.runId) else t.nodes[id]
  }

  function Remaining(shape: Shape, current: Node?): set<NodeId> {
    if current == null then {} else Line(shape, current.id)
  }

  function Height(shape: Shape, current: Node?): nat {
    if current == null then 0 else Rank(shape, current.id)
  }

  lemma ShapeFacts(t: Tree, id: NodeId)
    requires WellFormed(t) && id in t.nodes
    ensures var shape := ShapeOf(t);
            && Rooted(shape) && id in shape.order
            && (id in shape.parent <==> t.nodes[id].parent.Some?)
            && (id in shape.parent ==> shape.parent[id] == t.nodes[id].parent.value && shape.parent[id] in t.nodes)
  {
    var shape := ShapeOf(t);
    if id in shape.parent {
      assert Climbs(shape, id);
    }
  }

  /** Climbing one step leaves exactly the node behind. */
  lemma LineStep(shape: Shape, id: NodeId)
    requires Rooted(shape) && id in shape.order
    ensures id in shape.parent ==>
              var up := shape.parent[id];
              && Line(shape, id) == {id} + Line(shape, up)
              && id !in Line(shape, up)
              && up in Line(shape, id)
              && Rank(shape, up) < Rank(shape, id)
    ensures id !in shape.parent ==> Line(shape, id) == {id}
    ensures id in Line(shape, id) && Rank(shape, id) > 0
  {
    if id in shape.parent {
      assert Climbs(shape, id);
      hide Rooted;
      if id in Line(shape, shape.parent[id]) {
        LineBelowSelf(shape, shape.parent[id], id);
      }
    }
  }

  lemma ClimbBegins(t: Tree, p: Playout)
    requires WellFormed(t)
    ensures forall id | id in t.nodes :: Halfway(t, ShapeOf(t), p, id, Line(ShapeOf(t), p.leaf)) == t.nodes[id]
  {
    hide WellFormed, ShapeOf, Line;
  }

  /** One iteration of the climb: the node leaves `rest` with its credit. */
  lemma ClimbStep(t: Tree, p: Playout, id: NodeId, rest: set<NodeId>) returns (next: set<NodeId>)
    requires WellFormed(t) && id in t.nodes
    requires rest == Line(ShapeOf(t), id) && rest <= Line(ShapeOf(t), p.leaf)
    ensures id in rest && next == rest - {id}
    ensures var shape, n := ShapeOf(t), t.nodes[id];
            && Rank(shape, id) > 0
            && (n.parent == None ==> next == {})
            && (n.parent.Some? ==> n.parent.value in t.nodes && next == Line(shape, n.parent.value)
                                   && Rank(shape, n.parent.value) < Rank(shape, id))
    ensures var shape := ShapeOf(t);
            && Halfway(t, shape, p, id, rest) == t.nodes[id]
            && Halfway(t, shape, p, id, next) == Credit(t.nodes[id], p.reward, p.leaf.runId)
            && forall other | other in t.nodes && other != id ::
                 Halfway(t, shape, p, other, next) == Halfway(t, shape, p, other, rest)
  {
    hide WellFormed, ShapeOf, Line, Rooted;
    ShapeFacts(t, id);
    LineStep(ShapeOf(t), id);
    next := rest - {id};
    if t.nodes[id].parent.Some? {
      assert next == Line(ShapeOf(t), t.nodes[id].parent.value);
    }
  }

  lemma RecordedIs(before: Tree, after: Tree, id: NodeId, parent: NodeId, variant: string)
    requires WellFormed(before) && parent in before.nodes && id !in before.nodes
    requires after.order == before.order + [id] && after.nodes.Keys == before.nodes.Keys + {id}
    requires after.nodes[id] == NewNode(Some(parent), variant)
    requires after.nodes[parent] == before.nodes[parent].(children := before.nodes[parent].children + [id])
    requires forall x | x in before.nodes && x != parent :: after.nodes[x] == before.nodes[x]
    ensures after == Recorded(before, id, parent, variant) && WellFormed(after)
  {
    hide WellFormed, ShapeOf;
    RecordedWellFormed(before, id, parent, variant);
    var r := Recorded(before, id, parent, variant);
    forall x | x in after.nodes ensures x in r.nodes && after.nodes[x] == r.nodes[x] {
      assert x == id || x == parent || x in before.nodes;
    }
    assert after.nodes == r.nodes;
  }

  lemma CreditedIs(before: Tree, after: Tree, p: Playout)
    requires WellFormed(before)
    requires after.order == before.order && after.nodes.Keys == before.nodes.Keys
    requires forall id | id in before.nodes :: after.nodes[id] == Halfway(before, ShapeOf(before), p, id, {})
    ensures after == Credited(before, p) && WellFormed(after)
  {
    hide WellFormed, ShapeOf, Under;
    CreditedWellFormed(before, p);
    assert after.nodes == Credited(before, p).nodes;
  }

  /** Child k of id has the greatest mean reward, and no earlier child has it. */
  ghost predicate BestMean(t: Tree, id: NodeId, k: nat)
    requires id in t.nodes
  {
    var kids := t.nodes[id].children;
    && k < |kids|
    && (forall c | c in kids :: c in t.nodes)
    && (forall j | 0 <= j < |kids| :: MeanReward(t.nodes[kids[j]]) <= MeanReward(t.nodes[kids[k]]))
    && (forall j | 0 <= j < k :: MeanReward(t.nodes[kids[j]]) < MeanReward(t.nodes[kids[k]]))
  }

  /** What `_simulate` comes to: a run and its reward, or an error. */
  datatype Outcome = Crashed | Ran(runId: string, reward: real)

  function PlayoutTree(t: Tree, leaf: NodeId, variant: string, outcome: Outcome): Tree
    requires leaf in t.nodes && (outcome.Ran? ==> NodeId(outcome.runId, 0) !in t.nodes)
  {
    match outcome
    case Crashed => t
    case Ran(runId, reward) =>
      var id := NodeId(runId, 0);
      Credited(Recorded(t, id, leaf, variant), Playout(id, reward))
  }

  lemma CrossMultiplied(a: real, x: real, b: real, y: real)
    requires x > 0.0 && y > 0.0
    ensures a / x <= b / y <==> a * y <= b * x
    ensures a / x < b / y <==> a * y < b * x
  {
    var p, q := a / x, b / y;
    assert a == p * x && b == q * y;
    assert a * y == p * (x * y) && b * x == q * (x * y);
    var z := x * y;
    assert z > 0.0;
    Scaled(p, q, z);
  }

  lemma Scaled(p: real, q: real, z: real)
    requires z > 0.0
    ensures p <= q <==> p * z <= q * z
    ensures p < q <==> p * z < q * z
  {
  }

  /** The best child against any other, in rewards and visits: the greater mean
      wins, the first of equals, and an unvisited child counts as mean zero. */
  lemma BestMeanExact(t: Tree, id: NodeId, k: nat, j: nat)
    requires id in t.nodes && BestMean(t, id, k) && j < |t.nodes[id].children|
    ensures var kids := t.nodes[id].children;
            var a, b := t.nodes[kids[j]], t.nodes[kids[k]];
            && (a.visits > 0 && b.visits > 0 ==>
                  && a.totalReward * (b.visits as real) <= b.totalReward * (a.visits as real)
                  && (j < k ==> a.totalReward * (b.visits as real) < b.totalReward * (a.visits as real)))
            && (a.visits > 0 && b.visits == 0 ==> a.totalReward <= 0.0 && (j < k ==> a.totalReward < 0.0))
            && (a.visits == 0 && b.visits > 0 ==> 0.0 <= b.totalReward && (j < k ==> 0.0 < b.totalReward))
            && (a.visits == 0 && b.visits == 0 ==> j >= k)
  {
    var kids := t.nodes[id].children;
    var a, b := t.nodes[kids[j]], t.nodes[kids[k]];
    assert MeanReward(a) <= MeanReward(b) && (j < k ==> MeanReward(a) < MeanReward(b));
    if a.visits > 0 && b.visits > 0 {
      CrossMultiplied(a.totalReward, a.visits as real, b.totalReward, b.visits as real);
    } else if a.visits > 0 {
      CrossMultiplied(a.totalReward, a.visits as real, 0.0, 1.0);
    } else if b.visits > 0 {
      CrossMultiplied(0.0, 1.0, b.totalReward, b.visits as real);
    }
  }

  // The pool -------------------------------------------------------------------

  /** What a worker holds between two lock sections of its playout. */
  datatype Held = Selected(node: Node) | Added(node: Node, reward: real)

  function PhaseOf(h: Held): P.Phase {
    match h
    case Selected(parent) => P.Simulating(parent.id)
    case Added(node, reward) => P.Scored(node.id, reward)
  }

  function Phases(held: map<nat, Held>): map<nat, P.Phase> {
    map who | who in held :: PhaseOf(held[who])
  }

  /** Which worker the scheduler lets on, and how its simulation came out. */
  datatype Turn =
    | Begins
    | Returns(who: nat, runId: string, reward: real)
    | Fails(who: nat)
    | Credits(who: nat)

  /** Run ids are fresh: no two alike, none the root's. */
  predicate FreshIds(turns: seq<Turn>) {
    && (forall i | 0 <= i < |turns| && turns[i].Returns? :: turns[i].runId != ROOT.runId)
    && (forall i, j | 0 <= i < j < |turns| && turns[i].Returns? && turns[j].Returns? ::
          turns[i].runId != turns[j].runId)
  }

  /** None of the run ids from turn i on is in use. */
  predicate Unused(turns: seq<Turn>, i: nat, used: set<NodeId>) {
    forall j | i <= j < |turns| && turns[j].Returns? :: NodeId(turns[j].runId, 0) !in used
  }

  lemma AllUnused(turns: seq<Turn>)
    requires FreshIds(turns)
    ensures Unused(turns, 0, {ROOT})
  {
  }

  lemma UnusedNow(turns: seq<Turn>, i: nat, used: set<NodeId>)
    requires Unused(turns, i, used) && i < |turns|
    ensures turns[i].Returns? ==> NodeId(turns[i].runId, 0) !in used
  {
  }

  lemma UnusedNext(turns: seq<Turn>, i: nat, used: set<NodeId>, after: set<NodeId>)
    requires FreshIds(turns) && Unused(turns, i, used) && i < |turns|
    requires after <= used + if turns[i].Returns? then {NodeId(turns[i].runId, 0)} else {}
    ensures Unused(turns, i + 1, after)
  {
  }

  /** `_pick_variant`: round-robin over the pool of prompts. */
  function PickVariant(variants: seq<string>, i: nat): string {
    if variants == [] then "" else variants[i % |variants|]
  }

  /** The path of a complete descent: by UCB1 from the root to a childless node. */
  ghost predicate CompletePath(t: Tree, path: seq<NodeId>, explore: (nat, nat) -> real) {
    UcbPath(t, path, explore) && t.nodes[Last(path)].children == []
  }

  /** What a turn makes of a schedule: the one action it prescribes, if the
      playout is where that action starts from, and else nothing. */
  ghost predicate TurnTaken(
    turn: Turn, before: seq<P.Action>, after: seq<P.Action>,
    variants: seq<string>, limits: P.Limits, explore: (nat, nat) -> real)
  {
    var s := P.After(before, limits);
    match turn
    case Begins =>
      if s.started < limits.playouts && |s.inFlight| < limits.parallelism then
        exists path :: CompletePath(s.tree, path, explore) && after == before + [P.Select(Last(path))]
      else after == before
    case Returns(who, runId, reward) =>
      after == before + if who in s.inFlight && s.inFlight[who].Simulating? then
                          [P.Record(who, runId, if variants == [] then "" else variants[who % |variants|], reward)]
                        else []
    case Fails(who) =>
      after == before + if who in s.inFlight && s.inFlight[who].Simulating? then [P.Abort(who)] else []
    case Credits(who) =>
      after == before + if who in s.inFlight && s.inFlight[who].Scored? then [P.Backprop(who)] else []
  }

  /** The schedules after each of the turns. */
  ghost predicate Played(
    turns: seq<Turn>, trace: seq<seq<P.Action>>,
    variants: seq<string>, limits: P.Limits, explore: (nat, nat) -> real)
  {
    && |trace| == |turns| + 1 && trace[0] == []
    && forall i | 0 <= i < |turns| :: TurnTaken(turns[i], trace[i], trace[i + 1], variants, limits, explore)
  }

  lemma TurnUnique(
    turn: Turn, before: seq<P.Action>, a: seq<P.Action>, b: seq<P.Action>,
    variants: seq<string>, limits: P.Limits, explore: (nat, nat) -> real)
    requires TurnTaken(turn, before, a, variants, limits, explore)
    requires TurnTaken(turn, before, b, variants, limits, explore)
    ensures a == b
  {
    hide UcbStep, ChildScores, P.After;
    var s := P.After(before, limits);
    if turn.Begins? && s.started < limits.playouts && |s.inFlight| < limits.parallelism {
      var x :| CompletePath(s.tree, x, explore) && a == before + [P.Select(Last(x))];
      var y :| CompletePath(s.tree, y, explore) && b == before + [P.Select(Last(y))];
      DescentUnique(s.tree, x, y, explore);
    }
  }

  /** The order of the turns determines the search. */
  lemma {:induction false} PlayedUnique(
    turns: seq<Turn>, a: seq<seq<P.Action>>, b: seq<seq<P.Action>>,
    variants: seq<string>, limits: P.Limits, explore: (nat, nat) -> real, i: nat)
    requires Played(turns, a, variants, limits, explore) && Played(turns, b, variants, limits, explore)
    requires i <= |turns|
    ensures a[i] == b[i]
  {
    hide TurnTaken;
    if i > 0 {
      PlayedUnique(turns, a, b, variants, limits, explore, i - 1);
      assert TurnTaken(turns[i - 1], a[i - 1], a[i], variants, limits, explore);
      assert TurnTaken(turns[i - 1], b[i - 1], b[i], variants, limits, explore);
      TurnUnique(turns[i - 1], a[i - 1], a[i], b[i], variants, limits, explore);
    }
  }

  lemma PlayedOn(
    turns: seq<Turn>, i: nat, trace: seq<seq<P.Action>>, longer: seq<P.Action>,
    variants: seq<string>, limits: P.Limits, explore: (nat, nat) -> real)
    requires i < |turns| && Played(turns[..i], trace, variants, limits, explore)
    requires TurnTaken(turns[i], Last(trace), longer, variants, limits, explore)
    ensures Played(turns[..i + 1], trace + [longer], variants, limits, explore)
  {
    hide TurnTaken;
    forall j | 0 <= j < i + 1
      ensures TurnTaken(turns[..i + 1][j], (trace + [longer])[j], (trace + [longer])[j + 1], variants, limits, explore)
    {
      if j < i {
        assert TurnTaken(turns[..i][j], trace[j], trace[j + 1], variants, limits, explore);
      }
    }
  }

  /** The pool is where the schedule leaves the concurrent system. */
  ghost predicate InStep(t: Tree, held: map<nat, Held>, started: nat, schedule: seq<P.Action>, limits: P.Limits) {
    var s := P.After(schedule, limits);
    && s.tree == t && s.inFlight == Phases(held) && s.started == started
    && MctsTheorems.AllEnabled(schedule, limits)
  }

  lemma NothingTaken(
    turn: Turn, t: Tree, held: map<nat, Held>, started: nat, schedule: seq<P.Action>,
    variants: seq<string>, limits: P.Limits, explore: (nat, nat) -> real)
    requires InStep(t, held, started, schedule, limits)
    requires match turn
             case Begins => !(started < limits.playouts && |held| < limits.parallelism)
             case Returns(who, _, _) => !(who in held && held[who].Selected?)
             case Fails(who) => !(who in held && held[who].Selected?)
             case Credits(who) => !(who in held && held[who].Added?)
    ensures TurnTaken(turn, schedule, schedule, variants, limits, explore)
  {
    hide P.After, MctsTheorems.AllEnabled, CompletePath;
    assert Phases(held).Keys == held.Keys;
    assert schedule + [] == schedule;
  }

  lemma SelectTaken(
    t: Tree, held: map<nat, Held>, started: nat, schedule: seq<P.Action>, path: seq<NodeId>,
    variants: seq<string>, limits: P.Limits, explore: (nat, nat) -> real)
    requires InStep(t, held, started, schedule, limits)
    requires started < limits.playouts && |held| < limits.parallelism && CompletePath(t, path, explore)
    ensures TurnTaken(Begins, schedule, schedule + [P.Select(Last(path))], variants, limits, explore)
  {
    hide P.After, MctsTheorems.AllEnabled, CompletePath;
    assert Phases(held).Keys == held.Keys;
  }

  lemma OtherTaken(
    turn: Turn, t: Tree, held: map<nat, Held>, started: nat, schedule: seq<P.Action>, a: P.Action,
    variants: seq<string>, limits: P.Limits, explore: (nat, nat) -> real)
    requires InStep(t, held, started, schedule, limits)
    requires match turn
             case Begins => false
             case Returns(who, runId, reward) =>
               who in held && held[who].Selected? && a == P.Record(who, runId, PickVariant(variants, who), reward)
             case Fails(who) => who in held && held[who].Selected? && a == P.Abort(who)
             case Credits(who) => who in held && held[who].Added? && a == P.Backprop(who)
    ensures TurnTaken(turn, schedule, schedule + [a], variants, limits, explore)
  {
    hide P.After, MctsTheorems.AllEnabled, CompletePath;
  }

  lemma PoolBegins(limits: P.Limits)
    ensures InStep(EMPTY_TREE, map[], 0, [], limits)
  {
  }

  lemma Acts(schedule: seq<P.Action>, a: P.Action, limits: P.Limits)
    requires P.Enabled(P.After(schedule, limits), a, limits) && MctsTheorems.AllEnabled(schedule, limits)
    ensures MctsTheorems.AllEnabled(schedule + [a], limits)
    ensures P.After(schedule + [a], limits) == P.Next(P.After(schedule, limits), a, limits)
  {
    hide P.Enabled, P.Next;
    SnocParts(schedule, a);
  }

  lemma BeginActs(
    t: Tree, held: map<nat, Held>, started: nat, schedule: seq<P.Action>, limits: P.Limits, parent: Node)
    requires InStep(t, held, started, schedule, limits)
    requires started < limits.playouts && |held| < limits.parallelism
    requires parent.id in t.nodes && t.nodes[parent.id].children == []
    ensures InStep(t, held[started := Selected(parent)], started + 1, schedule + [P.Select(parent.id)], limits)
  {
    hide P.After, MctsTheorems.AllEnabled;
    assert Phases(held).Keys == held.Keys;
    Acts(schedule, P.Select(parent.id), limits);
    assert Phases(held[started := Selected(parent)]) == Phases(held)[started := P.Simulating(parent.id)];
  }

  lemma ReturnActs(
    t: Tree, held: map<nat, Held>, started: nat, schedule: seq<P.Action>, limits: P.Limits,
    who: nat, node: Node, runId: string, variant: string, reward: real)
    requires InStep(t, held, started, schedule, limits)
    requires who in held && held[who].Selected? && held[who].node.id in t.nodes
    requires node.id == NodeId(runId, 0) && node.id !in t.nodes
    ensures InStep(Recorded(t, node.id, held[who].node.id, variant), held[who := Added(node, reward)], started,
                   schedule + [P.Record(who, runId, variant, reward)], limits)
  {
    hide P.After, Recorded, MctsTheorems.AllEnabled;
    Acts(schedule, P.Record(who, runId, variant, reward), limits);
    assert Phases(held[who := Added(node, reward)]) == Phases(held)[who := P.Scored(node.id, reward)];
  }

  lemma LeaveActs(
    t: Tree, held: map<nat, Held>, started: nat, schedule: seq<P.Action>, limits: P.Limits, who: nat)
    requires InStep(t, held, started, schedule, limits) && who in held
    ensures held[who].Selected? ==> InStep(t, held - {who}, started, schedule + [P.Abort(who)], limits)
    ensures held[who].Added? ==>
              InStep(Credited(t, Playout(held[who].node.id, held[who].reward)), held - {who}, started,
                     schedule + [P.Backprop(who)], limits)
  {
    hide P.After, Credited, MctsTheorems.AllEnabled;
    Acts(schedule, if held[who].Selected? then P.Abort(who) else P.Backprop(who), limits);
    assert Phases(held - {who}) == Phases(held) - {who};
  }

  /** What the theorems about schedules say of the root of a pool's tree. */
  lemma PoolCounts(t: Tree, held: map<nat, Held>, started: nat, schedule: seq<P.Action>, limits: P.Limits)
    requires InStep(t, held, started, schedule, limits) && ROOT in t.nodes
    ensures |schedule| <= 3 * limits.playouts
    ensures var s := P.After(schedule, limits);
            && t.nodes[ROOT].visits == |s.completed|
            && started == |held| + s.aborted + |s.completed|
            && IsBest(ShapeOf(t), ROOT, s.completed, t.nodes[ROOT].bestReward, t.nodes[ROOT].bestLeafRunId)
  {
    hide P.After, IsBest;
    MctsTheorems.SearchIsBounded(schedule, limits);
    hide MctsTheorems.AllEnabled;
    assert Phases(held).Keys == held.Keys;
    MctsTheorems.CountersExact(schedule, limits, ROOT);
    MctsTheorems.VisitsConserved(schedule, limits, ROOT);
    MctsTheorems.PlayoutsAccounted(schedule, limits);
  }

  // The shared tree ------------------------------------------------------------

  class Node {
    const id: NodeId
    const parent: Option<NodeId>
    const variant: string
    var children: seq<NodeId>
    var visits: nat
    var totalReward: real
    var bestReward: real
    var bestLeafRunId: string

    constructor (id: NodeId, parent: Option<NodeId>, variant: string)
      ensures this.id == id && Data() == NewNode(parent, variant)
    {
      this.id, this.parent, this.variant := id, parent, variant;
      children, visits, totalReward, bestReward, bestLeafRunId := [], 0, 0.0, 0.0, "";
    }

    function Data(): NodeData
      reads this
    {
      NodeData(parent, variant, children, visits, totalReward, bestReward, bestLeafRunId)
    }

    /** One round of the climb: the updates to a single node. */
    method AddReward(reward: real, runId: string)
      modifies this
      ensures Data() == Credit(old(Data()), reward, runId)
    {
      visits := visits + 1;
      totalReward := totalReward + reward;
      if reward > bestReward {
        bestReward := reward;
        bestLeafRunId := runId;
      }
    }
  }

  class MctsSearch {
    const explore: (nat, nat) -> real
    const root: Node
    var nodes: map<NodeId, Node>
    ghost var order: seq<NodeId> // insertion order of nodes

    ghost function Contents(): Tree
      reads this, set id | id in nodes :: nodes[id]
    {
      Tree(order, map id | id in nodes :: nodes[id].Data())
    }

    ghost predicate Valid()
      reads this, set id | id in nodes :: nodes[id]
    {
      && (forall id | id in nodes :: nodes[id].id == id)
      && ROOT in nodes && nodes[ROOT] == root
      && WellFormed(Contents())
    }

    constructor (explore: (nat, nat) -> real)
      ensures Valid() && this.explore == explore && Contents() == EMPTY_TREE
      ensures fresh(root)
    {
      this.explore := explore;
      var first := new Node(ROOT, None, "");
      root, nodes, order := first, map[ROOT := first], [ROOT];
      new;
      assert Contents() == EMPTY_TREE;
      EmptyWellFormed();
    }

    /** The UCB1 scores of a node's children, in order. */
    method ScoreChildren(current: Node) returns (scores: seq<Score>)
      requires Valid() && current.id in nodes && nodes[current.id] == current
      ensures |scores| == |current.children|
      ensures forall c | c in current.children :: c in nodes
      ensures scores == ChildScores(Contents(), current.id, explore)
    {
      hide WellFormed, Ucb1;
      ghost var t := Contents();
      KidsPresent(t, current.id);
      var parentVisits := if current.visits > 1 then current.visits else 1;
      scores := [];
      for i := 0 to |current.children|
        invariant |scores| == i
        invariant forall j | 0 <= j < i :: scores[j] == Ucb1(t.nodes[current.children[j]], parentVisits, explore)
      {
        assert current.children[i] in current.children;
        var child := nodes[current.children[i]];
        scores := scores + [Ucb1(child.Data(), parentVisits, explore)];
      }
      assert t.nodes[current.id].children == current.children;
    }

    /** `_select`: descend by UCB1 until a node has no children. */
    method Select() returns (current: Node, ghost path: seq<NodeId>)
      requires Valid()
      ensures current.id in nodes && nodes[current.id] == current && current.children == []
      ensures UcbPath(Contents(), path, explore) && path != [] && Last(path) == current.id
    {
      hide WellFormed, UcbPath, ChildScores, UcbStep, FirstGreatest;
      current := root;
      path := [ROOT];
      PathBegins(Contents(), explore);
      while current.children != []
        invariant current.id in nodes && nodes[current.id] == current
        invariant path != [] && UcbPath(Contents(), path, explore) && Last(path) == current.id
        invariant current.id in order
        decreases |order| - IndexOf(order, current.id)
      {
        var kids := current.children;
        var scores := ScoreChildren(current);
        var best := MaxIndex(scores);
        assert kids[best] in kids;
        assert Contents().nodes[current.id].children == kids;
        KidsLater(Contents(), current.id, kids[best]);
        KidsPresent(Contents(), kids[best]);
        PathExtends(Contents(), path, explore, best);
        current := nodes[kids[best]];
        path := path + [current.id];
      }
    }

    /** A node added to the dictionary and to its parent's children, every other
        node as it was: `Recorded`. */
    lemma AddedIs(before: Tree, parentNode: Node, node: Node, variant: string)
      requires WellFormed(before) && parentNode.id in before.nodes && node.id !in before.nodes
      requires nodes.Keys == before.nodes.Keys + {node.id} && order == before.order + [node.id]
      requires nodes[node.id] == node && node.Data() == NewNode(Some(parentNode.id), variant)
      requires var p := before.nodes[parentNode.id];
               nodes[parentNode.id].Data() == p.(children := p.children + [node.id])
      requires forall id | id in before.nodes && id != parentNode.id :: nodes[id].Data() == before.nodes[id]
      ensures Contents() == Recorded(before, node.id, parentNode.id, variant) && WellFormed(Contents())
    {
      hide WellFormed, Recorded;
      RecordedIs(before, Contents(), node.id, parentNode.id, variant);
    }

    /** `_record_new_node`: insert a leaf under the parent. */
    method RecordNewNode(parentNode: Node, runId: string, variant: string) returns (node: Node)
      requires Valid()
      requires parentNode.id in nodes && nodes[parentNode.id] == parentNode
      requires NodeId(runId, 0) !in nodes
      modifies this`nodes, this`order, parentNode`children
      ensures Valid() && fresh(node) && node.id == NodeId(runId, 0)
      ensures nodes == old(nodes)[node.id := node]
      ensures Contents() == Recorded(old(Contents()), node.id, parentNode.id, variant)
    {
      hide WellFormed, Recorded, NewNode;
      ghost var before := Contents();
      var id := NodeId(runId, 0);
      node := new Node(id, Some(parentNode.id), variant);
      nodes := nodes[id := node];
      order := order + [id];
      parentNode.children := parentNode.children + [id];
      assert forall other | other in old(nodes) && other != parentNode.id :: old(nodes)[other] != parentNode;
      AddedIs(before, parentNode, node, variant);
    }

    /** `_backprop`: climb from the new leaf to the root, crediting every node. */
    method Backprop(node: Node, reward: real)
      requires Valid()
      requires node.id in nodes && nodes[node.id] == node
      modifies set id | id in nodes :: nodes[id]
      ensures Valid() && nodes == old(nodes)
      ensures Contents() == Credited(old(Contents()), Playout(node.id, reward))
    {
      hide WellFormed, Line, ShapeOf, Rank, Rooted, Credited, Halfway, Credit;
      ghost var before := Contents();
      ghost var shape := ShapeOf(before);
      var p := Playout(node.id, reward);
      ghost var rest := Line(shape, node.id); // still to be credited
      ClimbBegins(before, p);
      var current: Node? := node;
      while current != null
        invariant current != null ==> current.id in nodes && nodes[current.id] == current
        invariant rest == Remaining(shape, current) && rest <= Line(shape, node.id)
        invariant forall id | id in nodes :: nodes[id].Data() == Halfway(before, shape, p, id, rest)
        decreases Height(shape, current)
      {
        ghost var next := ClimbStep(before, p, current.id, rest);
        current.AddReward(reward, node.id.runId);
        forall id | id in nodes ensures nodes[id].Data() == Halfway(before, shape, p, id, next) {
          assert id != current.id ==> nodes[id] != current;
        }
        rest := next;
        if current.parent == None {
          break;
        }
        current := if current.parent.value in nodes then nodes[current.parent.value] else null;
      }
      assert rest == {};
      CreditedIs(before, Contents(), p);
    }

    /** `_best_child`: the first child of highest mean reward, if there is any. */
    method BestChild(node: Node) returns (best: Node?)
      requires Valid() && node.id in nodes && nodes[node.id] == node
      ensures best == null <==> node.children == []
      ensures best != null ==>
                exists k: nat :: && k < |node.children| && node.children[k] == best.id
                                 && best.id in nodes && nodes[best.id] == best
                                 && BestMean(Contents(), node.id, k)
    {
      hide WellFormed;
      KidsPresent(Contents(), node.id);
      var kids := node.children;
      if kids == [] {
        return null;
      }
      ghost var k := 0;
      assert kids[0] in kids;
      best := nodes[kids[0]];
      var mean := MeanReward(best.Data());
      for i := 1 to |kids|
        invariant k < i && kids[k] in nodes && best == nodes[kids[k]] && mean == MeanReward(best.Data())
        invariant forall j | 0 <= j < i :: kids[j] in nodes && MeanReward(nodes[kids[j]].Data()) <= mean
        invariant forall j | 0 <= j < k :: kids[j] in nodes && MeanReward(nodes[kids[j]].Data()) < mean
      {
        assert kids[i] in kids;
        var candidate := MeanReward(nodes[kids[i]].Data());
        if candidate > mean {
          best, mean, k := nodes[kids[i]], candidate, i;
        }
      }
      assert BestMean(Contents(), node.id, k);
    }

    /** `_playout` on one worker; `outcome` is how the simulation comes out. */
    method RunPlayout(variant: string, outcome: Outcome) returns (ghost path: seq<NodeId>)
      requires Valid()
      requires outcome.Ran? ==> NodeId(outcome.runId, 0) !in nodes
      modifies this`nodes, this`order, set id | id in nodes :: nodes[id]
      ensures Valid()
      ensures CompletePath(old(Contents()), path, explore)
      ensures Contents() == PlayoutTree(old(Contents()), Last(path), variant, outcome)
      ensures fresh(set id | id in nodes && id !in old(nodes) :: nodes[id])
      ensures forall id | id in old(nodes) :: id in nodes && nodes[id] == old(nodes[id])
      ensures nodes.Keys == old(nodes).Keys + if outcome.Ran? then {NodeId(outcome.runId, 0)} else {}
    {
      hide WellFormed, UcbPath, Recorded, Credited;
      var parent;
      parent, path := Select();
      if outcome.Ran? {
        var node := RecordNewNode(parent, outcome.runId, variant);
        Backprop(node, outcome.reward);
      }
    }

    /** The nodes the workers hold are the tree's own. */
    ghost predicate Holds(held: map<nat, Held>)
      reads this
    {
      forall who | who in held :: held[who].node.id in nodes && nodes[held[who].node.id] == held[who].node
    }

    /** One lock section of one playout, or nothing if it is not that playout's turn. */
    method TakeTurn(
      variants: seq<string>, turn: Turn, held: map<nat, Held>, started: nat, limits: P.Limits,
      ghost schedule: seq<P.Action>)
      returns (nowHeld: map<nat, Held>, nowStarted: nat, ghost longer: seq<P.Action>)
      requires Valid() && Holds(held) && InStep(Contents(), held, started, schedule, limits)
      requires turn.Returns? ==> NodeId(turn.runId, 0) !in nodes
      modifies this`nodes, this`order, set id | id in nodes :: nodes[id]
      ensures Valid() && Holds(nowHeld) && InStep(Contents(), nowHeld, nowStarted, longer, limits)
      ensures TurnTaken(turn, schedule, longer, variants, limits, explore)
      ensures fresh(set id | id in nodes && id !in old(nodes) :: nodes[id])
      ensures forall id | id in old(nodes) :: id in nodes && nodes[id] == old(nodes[id])
      ensures nodes.Keys <= old(nodes).Keys + if turn.Returns? then {NodeId(turn.runId, 0)} else {}
    {
      hide WellFormed, UcbPath, Recorded, Credited, InStep, PickVariant, TurnTaken;
      nowHeld, nowStarted, longer := held, started, schedule;
      ghost var t := Contents();
      match turn {
        case Begins =>
          if started < limits.playouts && |held| < limits.parallelism {
            ghost var path;
            var parent;
            parent, path := Select();
            nowHeld, nowStarted := held[started := Selected(parent)], started + 1;
            longer := schedule + [P.Select(parent.id)];
            BeginActs(t, held, started, schedule, limits, parent);
            SelectTaken(t, held, started, schedule, path, variants, limits, explore);
            return;
          }
        case Returns(who, runId, reward) =>
          if who in held && held[who].Selected? {
            var variant := PickVariant(variants, who);
            var node := RecordNewNode(held[who].node, runId, variant);
            nowHeld, longer := held[who := Added(node, reward)], schedule + [P.Record(who, runId, variant, reward)];
            ReturnActs(t, held, started, schedule, limits, who, node, runId, variant, reward);
            OtherTaken(turn, t, held, started, schedule, Last(longer), variants, limits, explore);
            return;
          }
        case Fails(who) =>
          if who in held && held[who].Selected? {
            nowHeld, longer := held - {who}, schedule + [P.Abort(who)];
            LeaveActs(t, held, started, schedule, limits, who);
            OtherTaken(turn, t, held, started, schedule, Last(longer), variants, limits, explore);
            return;
          }
        case Credits(who) =>
          if who in held && held[who].Added? {
            Backprop(held[who].node, held[who].reward);
            nowHeld, longer := held - {who}, schedule + [P.Backprop(who)];
            LeaveActs(t, held, started, schedule, limits, who);
            OtherTaken(turn, t, held, started, schedule, Last(longer), variants, limits, explore);
            return;
          }
      }
      NothingTaken(turn, t, held, started, schedule, variants, limits, explore);
    }

    /** `run`: a pool of `parallelism` workers takes the lock in whatever order
        the scheduler chooses. The search is a schedule of the concurrent
        system, so the theorems about schedules hold of it; every completed
        playout is credited to the root, and once the pool has drained only the
        failed ones are missing there; the result is the root's best child, or the root. */
    method Run(variants: seq<string>, turns: seq<Turn>, limits: P.Limits)
      returns (best: Node, ghost trace: seq<seq<P.Action>>, ghost held: map<nat, Held>, ghost started: nat)
      requires Valid() && Contents() == EMPTY_TREE && FreshIds(turns)
      modifies this`nodes, this`order, set id | id in nodes :: nodes[id]
      ensures Played(turns, trace, variants, limits, explore)
      ensures Valid() && InStep(Contents(), held, started, Last(trace), limits) && |Last(trace)| <= 3 * limits.playouts
      ensures held == map[] && started == limits.playouts ==>
                root.visits + P.After(Last(trace), limits).aborted == limits.playouts
      ensures var s := P.After(Last(trace), limits);
              && root.visits == |s.completed|
              && started == |held| + s.aborted + |s.completed|
              && IsBest(ShapeOf(Contents()), ROOT, s.completed, root.bestReward, root.bestLeafRunId)
      ensures if root.children == [] then best == root
              else exists k: nat :: && k < |root.children| && root.children[k] == best.id
                                    && best.id in nodes && nodes[best.id] == best
                                    && BestMean(Contents(), ROOT, k)
    {
      hide WellFormed, InStep, IsBest, BestMean, ShapeOf, P.After, Unused, FreshIds, TurnTaken;
      var inHand: map<nat, Held>, begun: nat := map[], 0;
      ghost var schedule: seq<P.Action> := [];
      trace := [[]];
      PoolBegins(limits);
      assert nodes.Keys == Contents().nodes.Keys == {ROOT};
      AllUnused(turns);
      for i := 0 to |turns|
        invariant Valid() && Holds(inHand) && InStep(Contents(), inHand, begun, schedule, limits)
        invariant Played(turns[..i], trace, variants, limits, explore) && Last(trace) == schedule
        invariant Unused(turns, i, nodes.Keys)
        invariant fresh(set id | id in nodes && id !in old(nodes) :: nodes[id])
        invariant forall id | id in old(nodes) :: id in nodes && nodes[id] == old(nodes[id])
      {
        hide Played;
        ghost var used := nodes.Keys;
        UnusedNow(turns, i, used);
        inHand, begun, schedule := TakeTurn(variants, turns[i], inHand, begun, limits, schedule);
        UnusedNext(turns, i, used, nodes.Keys);
        PlayedOn(turns, i, trace, schedule, variants, limits, explore);
        trace := trace + [schedule];
      }
      assert turns[..|turns|] == turns;
      held, started := inHand, begun;
      PoolCounts(Contents(), held, started, schedule, limits);
      var child := BestChild(root);
      best := if child != null then child else root;
    }
  }
}
