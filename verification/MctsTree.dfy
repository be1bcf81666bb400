/** The search tree as a value, the two updates made under the lock, and what
    the counters mean. */
module MctsTree {
  import opened Prelude
  import opened MctsShape

  datatype NodeData = NodeData(
    parent: Option<NodeId>,
    variant: string,
    children: seq<NodeId>,
    visits: nat,
    totalReward: real,
    bestReward: real,
    bestLeafRunId: string)

  /** The nodes dictionary, with its insertion order. */
  datatype Tree = Tree(order: seq<NodeId>, nodes: map<NodeId, NodeData>)

  function NewNode(parent: Option<NodeId>, variant: string): NodeData {
    NodeData(parent, variant, [], 0, 0.0, 0.0, "")
  }

  const EMPTY_TREE := Tree([ROOT], map[ROOT := NewNode(None, "")])

  function ShapeOf(t: Tree): Shape {
    Shape(t.order, map id | id in t.nodes && t.nodes[id].parent.Some? :: t.nodes[id].parent.value)
  }

  ghost predicate WellFormed(t: Tree) {
    && Rooted(ShapeOf(t))
    && (forall id :: id in t.nodes <==> id in t.order)
    && (forall id | id in t.nodes :: ChildrenOf(ShapeOf(t), id, t.nodes[id].children))
  }

  /** `_record_new_node`: a leaf under parent. */
  function Recorded(t: Tree, id: NodeId, parent: NodeId, variant: string): Tree
    requires parent in t.nodes && id != parent
  {
    var p := t.nodes[parent];
    Tree(t.order + [id],
         t.nodes[id := NewNode(Some(parent), variant)][parent := p.(children := p.children + [id])])
  }

  /** What one playout adds to one node of its line. */
  function Credit(n: NodeData, reward: real, runId: string): NodeData {
    var counted := n.(visits := n.visits + 1, totalReward := n.totalReward + reward);
    if reward > n.bestReward then counted.(bestReward := reward, bestLeafRunId := runId) else counted
  }

  /** `_backprop`: every node of the leaf's line is credited, no other changes. */
  function Credited(t: Tree, p: Playout): Tree {
    t.(nodes := map id | id in t.nodes ::
         if Under(ShapeOf(t), id, p) then Credit(t.nodes[id], p.reward, p.leaf.runId) else t.nodes[id])
  }

  lemma CreditedShape(t: Tree, p: Playout)
    ensures ShapeOf(Credited(t, p)) == ShapeOf(t)
  {
    hide Under;
  }

  lemma CreditedWellFormed(t: Tree, p: Playout)
    requires WellFormed(t)
    ensures WellFormed(Credited(t, p))
  {
    CreditedShape(t, p);
    hide Under, Rooted, ShapeOf;
  }

  lemma RecordedShape(t: Tree, id: NodeId, parent: NodeId, variant: string)
    requires parent in t.nodes && id !in t.nodes
    ensures ShapeOf(Recorded(t, id, parent, variant)) == Grow(ShapeOf(t), id, parent)
  {
  }

  lemma RecordedWellFormed(t: Tree, id: NodeId, parent: NodeId, variant: string)
    requires WellFormed(t) && parent in t.nodes && id !in t.nodes
    ensures WellFormed(Recorded(t, id, parent, variant))
  {
    var after := Recorded(t, id, parent, variant);
    RecordedShape(t, id, parent, variant);
    GrowRooted(ShapeOf(t), id, parent);
    assert after.order[|t.order|] == id;
    forall v | v in after.nodes ensures ChildrenOf(ShapeOf(after), v, after.nodes[v].children) {
      RecordedChildren(t, id, parent, variant, v);
    }
  }

  lemma RecordedChildren(t: Tree, id: NodeId, parent: NodeId, variant: string, v: NodeId)
    requires WellFormed(t) && parent in t.nodes && id !in t.nodes
    requires v in t.nodes || v == id
    ensures var after := Recorded(t, id, parent, variant);
            ChildrenOf(Grow(ShapeOf(t), id, parent), v, after.nodes[v].children)
  {
    var s := ShapeOf(t);
    assert id !in s.parent;
    if v == id {
      forall c | c in s.parent ensures s.parent[c] != id {
        assert Climbs(s, c);
      }
    } else {
      ChildrenGrow(s, v, t.nodes[v].children, id, parent);
    }
  }

  lemma ChildrenGrow(s: Shape, v: NodeId, before: seq<NodeId>, id: NodeId, parent: NodeId)
    requires ChildrenOf(s, v, before) && id !in s.parent
    ensures ChildrenOf(Grow(s, id, parent), v, if v == parent then before + [id] else before)
  {
    if v == parent {
      var kids := before + [id];
      assert id !in before;
      assert kids[|before|] == id;
      forall c ensures c in kids <==> c in before || c == id {
        if c in before {
          var i :| 0 <= i < |before| && before[i] == c;
          assert kids[i] == c;
        }
      }
    }
  }

  // What the counters mean -----------------------------------------------------

  /** best is the maximum of 0 and the rewards under v, and run is the run of
      the first playout under v that attained it ("" while it is 0). */
  ghost predicate IsBest(s: Shape, v: NodeId, done: seq<Playout>, best: real, run: string) {
    && 0.0 <= best
    && (forall i | 0 <= i < |done| && Under(s, v, done[i]) :: done[i].reward <= best)
    && (if best == 0.0 then run == "" else exists i | 0 <= i < |done| :: FirstBest(s, v, done, best, run, i))
  }

  predicate FirstBest(s: Shape, v: NodeId, done: seq<Playout>, best: real, run: string, i: nat)
    requires i < |done|
  {
    && Under(s, v, done[i]) && done[i].reward == best && done[i].leaf.runId == run
    && forall j | 0 <= j < i && Under(s, v, done[j]) :: done[j].reward < best
  }

  /** Every counter is the count, the sum or the best over the backpropagated
      playouts of the node's subtree. */
  ghost predicate Counted(t: Tree, done: seq<Playout>) {
    forall id | id in t.nodes ::
      && t.nodes[id].visits == Hits(ShapeOf(t), id, done)
      && t.nodes[id].totalReward == Rewards(ShapeOf(t), id, done)
      && IsBest(ShapeOf(t), id, done, t.nodes[id].bestReward, t.nodes[id].bestLeafRunId)
  }

  lemma BestAfter(s: Shape, v: NodeId, done: seq<Playout>, best: real, run: string, p: Playout)
    requires IsBest(s, v, done, best, run)
    ensures var better := Under(s, v, p) && p.reward > best;
            IsBest(s, v, done + [p], if better then p.reward else best, if better then p.leaf.runId else run)
  {
    hide Under;
    var longer := done + [p];
    assert forall i | 0 <= i < |done| :: longer[i] == done[i];
    assert longer[|done|] == p;
    if Under(s, v, p) && p.reward > best {
      assert FirstBest(s, v, longer, p.reward, p.leaf.runId, |done|);
    } else if best != 0.0 {
      var i: nat :| i < |done| && FirstBest(s, v, done, best, run, i);
      assert FirstBest(s, v, longer, best, run, i);
    }
  }

  lemma CreditedCounted(t: Tree, done: seq<Playout>, p: Playout)
    requires Counted(t, done)
    ensures Counted(Credited(t, p), done + [p])
  {
    CreditedShape(t, p);
    SnocParts(done, p);
    var after, s := Credited(t, p), ShapeOf(t);
    hide Under, ShapeOf, IsBest;
    forall id | id in t.nodes
      ensures after.nodes[id].visits == Hits(s, id, done + [p])
      ensures after.nodes[id].totalReward == Rewards(s, id, done + [p])
      ensures IsBest(s, id, done + [p], after.nodes[id].bestReward, after.nodes[id].bestLeafRunId)
    {
      BestAfter(s, id, done, t.nodes[id].bestReward, t.nodes[id].bestLeafRunId, p);
    }
  }

  lemma RecordedCounted(t: Tree, done: seq<Playout>, id: NodeId, parent: NodeId, variant: string)
    requires WellFormed(t) && parent in t.nodes && id !in t.nodes
    requires Counted(t, done) && forall p | p in done :: p.leaf in t.nodes
    ensures Counted(Recorded(t, id, parent, variant), done)
  {
    var s, g := ShapeOf(t), Grow(ShapeOf(t), id, parent);
    var after := Recorded(t, id, parent, variant);
    RecordedShape(t, id, parent, variant);
    forall v | v in after.nodes
      ensures after.nodes[v].visits == Hits(g, v, done)
      ensures after.nodes[v].totalReward == Rewards(g, v, done)
      ensures IsBest(g, v, done, after.nodes[v].bestReward, after.nodes[v].bestLeafRunId)
    {
      GrowKeepsCounts(s, id, parent, v, done);
      GrowKeepsUnder(s, id, parent, v, done);
      hide Under, ShapeOf, Line;
      if v != id {
        SameUnderSameBest(s, g, v, done, t.nodes[v].bestReward, t.nodes[v].bestLeafRunId);
      }
    }
  }

  lemma GrowKeepsUnder(s: Shape, leaf: NodeId, parent: NodeId, v: NodeId, done: seq<Playout>)
    requires Rooted(s) && leaf !in s.order && parent in s.order
    requires forall p | p in done :: p.leaf in s.order
    ensures forall i | 0 <= i < |done| :: Under(Grow(s, leaf, parent), v, done[i]) == Under(s, v, done[i])
    ensures v == leaf ==> forall i | 0 <= i < |done| :: !Under(s, v, done[i])
  {
    forall i | 0 <= i < |done|
      ensures Under(Grow(s, leaf, parent), v, done[i]) == Under(s, v, done[i])
      ensures v == leaf ==> !Under(s, v, done[i])
    {
      GrowKeepsLines(s, leaf, parent, done[i].leaf);
      if leaf in Line(s, done[i].leaf) {
        LineBelowSelf(s, done[i].leaf, leaf);
      }
    }
  }

  lemma SameUnderSameBest(s: Shape, g: Shape, v: NodeId, done: seq<Playout>, best: real, run: string)
    requires forall i | 0 <= i < |done| :: Under(g, v, done[i]) == Under(s, v, done[i])
    requires IsBest(s, v, done, best, run)
    ensures IsBest(g, v, done, best, run)
  {
    hide Under;
    if best != 0.0 {
      var i: nat :| i < |done| && FirstBest(s, v, done, best, run, i);
      assert FirstBest(g, v, done, best, run, i);
    }
  }
}
