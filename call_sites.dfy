/**
 * The call-graph tree that aggregates stack samples.
 *
 * A CallSite node is found among its parent's children by the key
 * (function name, file name, line number), so a node is named by the
 * sequence of keys on the way down from the synthetic top node (whose own
 * key is empty).  The whole tree is therefore the map from those key paths
 * to the two accumulators of each node.
 */
module CallSites {

  /** One stack frame: the key a CallSite is found by. */
  datatype Frame = Frame(funcName: string, fileName: string, fileLine: int)

  /** The keys on the way from the top node down to a node; [] is the top node. */
  type Path = seq<Frame>

  /** A node's accumulators: resource amount and number of occurrences. */
  datatype Weight = Weight(value: int, count: int) {
    function Plus(other: Weight): Weight {
      Weight(value + other.value, count + other.count)
    }
  }

  const Zero := Weight(0, 0)

  lemma PlusAssociative(a: Weight, b: Weight, c: Weight)
    ensures a.Plus(b).Plus(c) == a.Plus(b.Plus(c))
  {
  }

  /** The tree shape: the top node is present and so is every node on the way down to a node. */
  ghost predicate IsTree(nodes: map<Path, Weight>) {
    && [] in nodes
    && forall p, k :: p in nodes && 0 <= k <= |p| ==> p[..k] in nodes
  }

  /** The tree after find-or-add of the node at `p`: an existing node is kept, a missing one is added with zero weight. */
  function FindOrAdd(nodes: map<Path, Weight>, p: Path): map<Path, Weight> {
    if p in nodes then nodes else nodes[p := Zero]
  }

  /** The tree after descending from the top node along `p` with find-or-add at every step. */
  function AddPath(nodes: map<Path, Weight>, p: Path): (r: map<Path, Weight>)
    requires IsTree(nodes)
    ensures IsTree(r) && p in r
    ensures forall k :: 0 <= k <= |p| ==> p[..k] in r
    ensures forall q :: q in nodes ==> q in r && r[q] == nodes[q]
    ensures forall q :: q in r && q !in nodes ==> r[q] == Zero && |q| <= |p| && q == p[..|q|]
    decreases |p|
  {
    if p == [] then nodes
    else
      var init := p[..|p| - 1];
      var parent := AddPath(nodes, init);
      assert forall k :: 0 <= k < |p| ==> p[..k] == init[..k];
      assert p[..|p|] == p;
      FindOrAdd(parent, p)
  }

  /** The keys of the top node's children: the roots of the profile. */
  function RootFrames(nodes: map<Path, Weight>): set<Frame> {
    set p | p in nodes && |p| == 1 :: p[0]
  }

  /** Descending along a path whose final node exists adds nothing. */
  lemma AddPathPresent(nodes: map<Path, Weight>, p: Path)
    requires IsTree(nodes) && p in nodes
    ensures AddPath(nodes, p) == nodes
  {
    assert AddPath(nodes, p).Keys == nodes.Keys;
  }

  /** The sum of the accumulators over every node of the tree. */
  ghost function TotalWeight(nodes: map<Path, Weight>): Weight
    decreases |nodes|
  {
    if nodes == map[] then Zero
    else
      var p :| p in nodes;
      assert |nodes - {p}| < |nodes| by {
        assert (nodes - {p}).Keys == nodes.Keys - {p};
      }
      nodes[p].Plus(TotalWeight(nodes - {p}))
  }

  /** The total does not depend on which node is taken out first. */
  lemma {:induction false} TotalWeightRemove(nodes: map<Path, Weight>, k: Path)
    requires k in nodes
    ensures TotalWeight(nodes) == nodes[k].Plus(TotalWeight(nodes - {k}))
    decreases |nodes|
  {
    var p :| p in nodes && TotalWeight(nodes) == nodes[p].Plus(TotalWeight(nodes - {p}));
    if p != k {
      assert (nodes - {p}).Keys == nodes.Keys - {p};
      assert (nodes - {k}).Keys == nodes.Keys - {k};
      var rest := nodes - {p} - {k};
      assert nodes - {k} - {p} == rest;
      TotalWeightRemove(nodes - {p}, k);
      TotalWeightRemove(nodes - {k}, p);
      var a, b, c := nodes[p], nodes[k], TotalWeight(rest);
      calc {
        TotalWeight(nodes);
        a.Plus(TotalWeight(nodes - {p}));
        a.Plus(b.Plus(c));
        b.Plus(a.Plus(c));
        b.Plus(TotalWeight(nodes - {k}));
      }
    }
  }

  /** A tree holding only the top node weighs what the top node weighs. */
  lemma TotalWeightSingle(p: Path, w: Weight)
    ensures TotalWeight(map[p := w]) == w
  {
    TotalWeightRemove(map[p := w], p);
    assert map[p := w] - {p} == map[];
  }

  /** Adding a zero node leaves the total unchanged. */
  lemma TotalWeightFindOrAdd(nodes: map<Path, Weight>, p: Path)
    ensures TotalWeight(FindOrAdd(nodes, p)) == TotalWeight(nodes)
  {
    if p !in nodes {
      var m := nodes[p := Zero];
      assert m - {p} == nodes;
      TotalWeightRemove(m, p);
    }
  }

  /** Adding `w` to one node adds `w` to the total. */
  lemma TotalWeightIncrement(nodes: map<Path, Weight>, p: Path, w: Weight)
    requires p in nodes
    ensures TotalWeight(nodes[p := nodes[p].Plus(w)]) == TotalWeight(nodes).Plus(w)
  {
    var m := nodes[p := nodes[p].Plus(w)];
    assert m - {p} == nodes - {p};
    TotalWeightRemove(m, p);
    TotalWeightRemove(nodes, p);
  }

  /** Find-or-add along a path only adds zero nodes, so the total is unchanged. */
  lemma {:induction false} TotalWeightAddPath(nodes: map<Path, Weight>, p: Path)
    requires IsTree(nodes)
    ensures TotalWeight(AddPath(nodes, p)) == TotalWeight(nodes)
    decreases |p|
  {
    if p != [] {
      TotalWeightAddPath(nodes, p[..|p| - 1]);
      TotalWeightFindOrAdd(AddPath(nodes, p[..|p| - 1]), p);
    }
  }

  /**
   * The CallSite tree under the synthetic top node, updated in place by
   * find-or-add and increment.
   */
  class CallGraph {
    var nodes: map<Path, Weight>

    ghost predicate Valid()
      reads this
    {
      IsTree(nodes)
    }

    /** A fresh top node with the empty key and zero weight. */
    constructor ()
      ensures Valid() && nodes == map[[] := Zero]
    {
      nodes := map[[] := Zero];
    }

    /** Returns the child of `current` keyed by `f`, adding it with zero weight when there is none. */
    method FindOrAddChild(current: Path, f: Frame) returns (child: Path)
      requires Valid() && current in nodes
      modifies this
      ensures Valid() && child == current + [f] && child in nodes
      ensures nodes == FindOrAdd(old(nodes), child)
    {
      child := current + [f];
      assert forall k :: 0 <= k <= |current| ==> child[..k] == current[..k];
      assert child[..|child|] == child;
      if child !in nodes {
        nodes := nodes[child := Zero];
      }
    }

    /** Adds `w` into the accumulators of the node `current` and of no other node. */
    method Increment(current: Path, w: Weight)
      requires Valid() && current in nodes
      modifies this
      ensures Valid()
      ensures nodes == old(nodes)[current := old(nodes)[current].Plus(w)]
    {
      nodes := nodes[current := nodes[current].Plus(w)];
    }
  }
}
