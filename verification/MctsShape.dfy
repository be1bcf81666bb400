/** The parent relation of the search tree of `termiclaw/mcts.py`: who is above
    whom, and how counts over a subtree split over a node's children. */
module MctsShape {
  import opened Prelude

  datatype NodeId = NodeId(runId: string, stepIndex: nat)

  const ROOT := NodeId("root", 0)

  /** `order` is the insertion order of the nodes dictionary. */
  datatype Shape = Shape(order: seq<NodeId>, parent: map<NodeId, NodeId>)

  function IndexOf(order: seq<NodeId>, id: NodeId): (i: nat)
    requires id in order
    ensures i < |order| && order[i] == id
  {
    if order[0] == id then 0 else 1 + IndexOf(order[1..], id)
  }

  predicate Distinct<T(==)>(s: seq<T>) {
    forall i, j | 0 <= i < j < |s| :: s[i] != s[j]
  }

  lemma IndexUnique(order: seq<NodeId>, i: nat)
    requires Distinct(order) && i < |order|
    ensures IndexOf(order, order[i]) == i
  {
    var j := IndexOf(order, order[i]);
    assert order[i] == order[j];
  }

  /** id has a parent that was inserted before it. */
  predicate Climbs(s: Shape, id: NodeId) {
    && id in s.parent && id in s.order && s.parent[id] in s.order
    && IndexOf(s.order, s.parent[id]) < IndexOf(s.order, id)
  }

  function Rank(s: Shape, id: NodeId): nat {
    if id in s.order then IndexOf(s.order, id) + 1 else 0
  }

  /** A rooted tree: every node but the root was inserted after its parent. */
  ghost predicate Rooted(s: Shape) {
    && s.order != [] && s.order[0] == ROOT && Distinct(s.order)
    && ROOT !in s.parent
    && (forall id :: id in s.order <==> id == ROOT || id in s.parent)
    && (forall id | id in s.parent :: Climbs(s, id))
  }

  /** id and every node above it. */
  function Line(s: Shape, id: NodeId): set<NodeId>
    decreases Rank(s, id)
  {
    if Climbs(s, id) then {id} + Line(s, s.parent[id]) else {id}
  }

  lemma {:induction false} LineBelowSelf(s: Shape, id: NodeId, above: NodeId)
    requires Rooted(s) && id in s.order && above in Line(s, id)
    ensures above in s.order && IndexOf(s.order, above) <= IndexOf(s.order, id)
    decreases Rank(s, id)
  {
    if above != id {
      LineBelowSelf(s, s.parent[id], above);
    }
  }

  /** Well-foundedness: climbing from any node ends at the root. */
  lemma {:induction false} RootAboveAll(s: Shape, id: NodeId)
    requires Rooted(s) && id in s.order
    ensures ROOT in Line(s, id)
    decreases Rank(s, id)
  {
    if id != ROOT {
      RootAboveAll(s, s.parent[id]);
    }
  }

  lemma {:induction false} LineTransitive(s: Shape, id: NodeId, mid: NodeId, top: NodeId)
    requires Rooted(s) && id in s.order
    requires mid in Line(s, id) && top in Line(s, mid)
    ensures top in Line(s, id)
    decreases Rank(s, id)
  {
    if mid != id {
      LineTransitive(s, s.parent[id], mid, top);
    }
  }

  /** The shape with one more leaf. */
  function Grow(s: Shape, id: NodeId, parent: NodeId): Shape {
    Shape(s.order + [id], s.parent[id := parent])
  }

  lemma IndexGrows(order: seq<NodeId>, leaf: NodeId, id: NodeId)
    requires Distinct(order) && leaf !in order && id in order
    ensures id in order + [leaf] && IndexOf(order + [leaf], id) == IndexOf(order, id)
  {
    var i := IndexOf(order, id);
    assert (order + [leaf])[i] == id;
    IndexUnique(order + [leaf], i);
  }

  lemma GrowRooted(s: Shape, leaf: NodeId, parent: NodeId)
    requires Rooted(s) && leaf !in s.order && parent in s.order
    ensures Rooted(Grow(s, leaf, parent))
  {
    var g := Grow(s, leaf, parent);
    assert leaf in g.order by { assert g.order[|s.order|] == leaf; }
    forall id | id in g.parent ensures Climbs(g, id) {
      IndexUnique(g.order, |s.order|);
      if id == leaf {
        IndexGrows(s.order, leaf, parent);
      } else {
        assert Climbs(s, id);
        IndexGrows(s.order, leaf, id);
        IndexGrows(s.order, leaf, s.parent[id]);
      }
    }
  }

  /** Adding a leaf changes nobody else's line. */
  lemma {:induction false} GrowKeepsLines(s: Shape, leaf: NodeId, parent: NodeId, id: NodeId)
    requires Rooted(s) && leaf !in s.order && parent in s.order && id in s.order
    ensures Line(Grow(s, leaf, parent), id) == Line(s, id)
    decreases Rank(s, id)
  {
    GrowRooted(s, leaf, parent);
    if id != ROOT {
      assert Climbs(s, id) && Climbs(Grow(s, leaf, parent), id);
      GrowKeepsLines(s, leaf, parent, s.parent[id]);
    }
  }

  // Counting over subtrees ---------------------------------------------------

  /** One backpropagated playout: the leaf it added and its reward. */
  datatype Playout = Playout(leaf: NodeId, reward: real)

  /** p happened in the subtree of v. */
  predicate Under(s: Shape, v: NodeId, p: Playout) {
    v in Line(s, p.leaf)
  }

  function Hits(s: Shape, v: NodeId, done: seq<Playout>): nat {
    if done == [] then 0 else Hits(s, v, DropLast(done)) + (if Under(s, v, Last(done)) then 1 else 0)
  }

  function Rewards(s: Shape, v: NodeId, done: seq<Playout>): real {
    if done == [] then 0.0
    else Rewards(s, v, DropLast(done)) + (if Under(s, v, Last(done)) then Last(done).reward else 0.0)
  }

  /** How many of the playouts added v itself. */
  function Own(v: NodeId, done: seq<Playout>): nat {
    if done == [] then 0 else Own(v, DropLast(done)) + (if Last(done).leaf == v then 1 else 0)
  }

  /** kids lists each child of v once. */
  ghost predicate ChildrenOf(s: Shape, v: NodeId, kids: seq<NodeId>) {
    && Distinct(kids)
    && forall id :: id in kids <==> (id in s.parent && s.parent[id] == v)
  }

  function Mark(s: Shape, id: NodeId): NodeId -> int {
    c => if c in Line(s, id) then 1 else 0
  }

  lemma {:induction false} MarksNone(s: Shape, id: NodeId, kids: seq<NodeId>)
    requires forall c | c in kids :: c !in Line(s, id)
    ensures Total(Mark(s, id), kids) == 0
  {
    if kids != [] {
      MarksNone(s, id, kids[1..]);
    }
  }

  lemma {:induction false} MarksOne(s: Shape, id: NodeId, kids: seq<NodeId>, only: NodeId)
    requires Distinct(kids) && only in kids && only in Line(s, id)
    requires forall c | c in kids && c != only :: c !in Line(s, id)
    ensures Total(Mark(s, id), kids) == 1
  {
    if kids[0] == only {
      MarksNone(s, id, kids[1..]);
    } else {
      MarksOne(s, id, kids[1..], only);
    }
  }

  /** The child of v through which id climbs to v. */
  lemma {:induction false} ChildTowards(s: Shape, v: NodeId, id: NodeId) returns (c: NodeId)
    requires Rooted(s) && id in s.order && v in Line(s, id) && v != id
    ensures c in Line(s, id) && c in s.parent && s.parent[c] == v
    ensures forall d | d in Line(s, id) && d in s.parent && s.parent[d] == v :: d == c
    decreases Rank(s, id)
  {
    var p := s.parent[id];
    if p == v {
      c := id;
      forall d | d in Line(s, p) && d in s.parent && s.parent[d] == v ensures false {
        assert Climbs(s, d);
        LineBelowSelf(s, p, d);
      }
    } else {
      c := ChildTowards(s, v, p);
    }
  }

  /** id is v itself, or is under exactly one child of v, or is not under v. */
  lemma OnePlaceUnder(s: Shape, v: NodeId, kids: seq<NodeId>, id: NodeId)
    requires Rooted(s) && id in s.order && ChildrenOf(s, v, kids)
    ensures (if v in Line(s, id) then 1 else 0)
            == (if id == v then 1 else 0) + Total(Mark(s, id), kids)
  {
    if v in Line(s, id) && id != v {
      var c := ChildTowards(s, v, id);
      MarksOne(s, id, kids, c);
    } else {
      forall c | c in kids ensures c !in Line(s, id) {
        assert Climbs(s, c);
        if c in Line(s, id) {
          assert v in Line(s, c);
          LineTransitive(s, id, c, v);
          LineBelowSelf(s, id, c);
        }
      }
      MarksNone(s, id, kids);
    }
  }

  function HitsOf(s: Shape, done: seq<Playout>): NodeId -> int {
    c => Hits(s, c, done)
  }

  lemma {:induction false} HitsSplit(s: Shape, done: seq<Playout>, kids: seq<NodeId>)
    requires done != []
    ensures Total(HitsOf(s, done), kids)
            == Total(HitsOf(s, DropLast(done)), kids) + Total(Mark(s, Last(done).leaf), kids)
  {
    if kids != [] {
      HitsSplit(s, done, kids[1..]);
    }
  }

  /** The playouts under v are v's own and those under its children, each counted once. */
  lemma {:induction false} HitsOverChildren(s: Shape, v: NodeId, kids: seq<NodeId>, done: seq<Playout>)
    requires Rooted(s) && ChildrenOf(s, v, kids)
    requires forall p | p in done :: p.leaf in s.order
    ensures Hits(s, v, done) == Own(v, done) + Total(HitsOf(s, done), kids)
  {
    if done == [] {
      TotalConstant(HitsOf(s, done), kids, 0);
    } else {
      HitsOverChildren(s, v, kids, DropLast(done));
      HitsSplit(s, done, kids);
      OnePlaceUnder(s, v, kids, Last(done).leaf);
    }
  }

  /** Everything happens under the root. */
  lemma {:induction false} RootHitsAll(s: Shape, done: seq<Playout>)
    requires Rooted(s)
    requires forall p | p in done :: p.leaf in s.order
    ensures Hits(s, ROOT, done) == |done|
  {
    if done != [] {
      RootHitsAll(s, DropLast(done));
      RootAboveAll(s, Last(done).leaf);
    }
  }

  /** Adding a leaf that no playout has reached changes no count. */
  lemma {:induction false} GrowKeepsCounts(s: Shape, leaf: NodeId, parent: NodeId, v: NodeId, done: seq<Playout>)
    requires Rooted(s) && leaf !in s.order && parent in s.order
    requires forall p | p in done :: p.leaf in s.order
    ensures Hits(Grow(s, leaf, parent), v, done) == Hits(s, v, done)
    ensures Rewards(Grow(s, leaf, parent), v, done) == Rewards(s, v, done)
    ensures v == leaf ==> Hits(s, v, done) == 0 && Rewards(s, v, done) == 0.0
  {
    if done != [] {
      GrowKeepsCounts(s, leaf, parent, v, DropLast(done));
      GrowKeepsLines(s, leaf, parent, Last(done).leaf);
      if leaf in Line(s, Last(done).leaf) {
        LineBelowSelf(s, Last(done).leaf, leaf);
      }
    }
  }
}
