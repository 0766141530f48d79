/**
 * The depth-first walk that detaches an object graph. What the ORM and the
 * strategies report about a node is given as a `World`; the visitor itself is a
 * class whose `seen` set grows as the walk proceeds.
 */
module Visiting {

  /** An object of the graph, by identity: two distinct objects are distinct nodes however equal their contents. */
  datatype Node = Node(identity: nat)

  /** What `instanceof` says about a node: a collection, a map, or anything else. */
  datatype NodeKind = CollectionNode | MapNode | PlainNode

  /** The four visitor strategies, in the order they are tried. */
  datatype Strategy = HibernateObjectStrategy | CollectionStrategy | MapStrategy | BasicObjectStrategy

  /**
   * The collaborators of a walk over nodes: a finite universe of nodes, the
   * class of a node (without initialising a proxy), whether the session finder has a
   * session for a class, whether that session has entity metadata for it, the node's
   * kind, and the children each strategy reports for a node.
   */
  datatype World = World(
    universe: set<Node>,
    classOf: Node -> string,
    hasSession: string -> bool,
    hasMetadata: string -> bool,
    kindOf: Node -> NodeKind,
    visit: (Strategy, Node) -> set<Node>)

  /** Strategies report only nodes of the universe for nodes of the universe. */
  ghost predicate Closed(w: World)
  {
    forall s, n :: n in w.universe ==> w.visit(s, n) <= w.universe
  }

  /** Strategy s can handle node n. */
  predicate Applies(w: World, s: Strategy, n: Node)
  {
    match s
    case HibernateObjectStrategy => w.hasMetadata(w.classOf(n))
    case CollectionStrategy => w.kindOf(n) == CollectionNode
    case MapStrategy => w.kindOf(n) == MapNode
    case BasicObjectStrategy => true
  }

  /** The strategies in order of preference. */
  const Preference: seq<Strategy> := [HibernateObjectStrategy, CollectionStrategy, MapStrategy, BasicObjectStrategy]

  /** The strategy the visitor selects for a node: the first applicable one in order of preference. */
  function StrategyFor(w: World, n: Node): (s: Strategy)
    ensures Applies(w, s, n)
    ensures forall i :: 0 <= i < |Preference| && Preference[i] == s ==>
              forall j :: 0 <= j < i ==> !Applies(w, Preference[j], n)
  {
    if w.hasMetadata(w.classOf(n)) then HibernateObjectStrategy
    else if w.kindOf(n) == CollectionNode then CollectionStrategy
    else if w.kindOf(n) == MapNode then MapStrategy
    else BasicObjectStrategy
  }

  /** The session finder has a session for the node's class. */
  predicate HasSession(w: World, n: Node)
  {
    w.hasSession(w.classOf(n))
  }

  /** The children the selected strategy reports for a node. */
  function ChildrenOf(w: World, n: Node): (children: set<Node>)
  {
    w.visit(StrategyFor(w, n), n)
  }

  /** A path from the root along reported children through nodes that all have a session. */
  ghost predicate IsSessionPath(w: World, root: Node, p: seq<Node>)
  {
    && |p| > 0 && p[0] == root
    && (forall i :: 0 <= i < |p| ==> HasSession(w, p[i]))
    && (forall i :: 0 < i < |p| ==> p[i] in ChildrenOf(w, p[i - 1]))
  }

  /** Node n is reached from the root by a session path. */
  ghost predicate Reachable(w: World, root: Node, n: Node)
  {
    exists p :: IsSessionPath(w, root, p) && p[|p| - 1] == n
  }

  /** Every reported child of n that has a session is in s. */
  ghost predicate ExpandedIn(w: World, n: Node, s: set<Node>)
  {
    forall c :: c in ChildrenOf(w, n) ==> c in s || !HasSession(w, c)
  }

  /** Every member of s1 expanded in s1 stays expanded in any larger set. */
  lemma ExpandedGrows(w: World, s1: set<Node>, s2: set<Node>)
    requires s1 <= s2
    ensures forall n :: ExpandedIn(w, n, s1) ==> ExpandedIn(w, n, s2)
  {
  }

  /** No node occurs twice in the sequence. */
  ghost predicate Distinct(runs: seq<Node>)
  {
    forall i, j :: 0 <= i < j < |runs| ==> runs[i] != runs[j]
  }

  /**
   * The order in which strategies ran forms a depth-first tree: the first run is on
   * the root, every later node is a reported child of an earlier one, and every node
   * has a session.
   */
  ghost predicate RunTree(w: World, root: Node, runs: seq<Node>)
  {
    && (|runs| > 0 ==> runs[0] == root)
    && (forall i :: 0 <= i < |runs| ==> HasSession(w, runs[i]))
    && (forall i :: 0 < i < |runs| ==> exists j :: 0 <= j < i && runs[i] in ChildrenOf(w, runs[j]))
  }

  /** A node with a session that is the root of an empty tree, or a child of a node of the tree, extends the tree. */
  lemma RunTreeGrows(w: World, root: Node, runs: seq<Node>, n: Node)
    requires RunTree(w, root, runs) && HasSession(w, n)
    requires runs == [] ==> n == root
    requires runs != [] ==> exists j :: 0 <= j < |runs| && n in ChildrenOf(w, runs[j])
    ensures RunTree(w, root, runs + [n])
  {
    var runs' := runs + [n];
    forall i | 0 < i < |runs'| ensures exists j :: 0 <= j < i && runs'[i] in ChildrenOf(w, runs'[j]) {
      if i < |runs| {
        var j :| 0 <= j < i && runs[i] in ChildrenOf(w, runs[j]);
        assert runs'[j] == runs[j];
      } else {
        var j :| 0 <= j < |runs| && n in ChildrenOf(w, runs[j]);
        assert runs'[j] == runs[j];
      }
    }
  }

  /** The strategy log of a walk: a tree of distinct nodes, all of them seen. */
  ghost predicate RunLog(w: World, root: Node, runs: seq<Node>, seen: set<Node>)
  {
    Distinct(runs) && RunTree(w, root, runs) && forall i :: 0 <= i < |runs| ==> runs[i] in seen
  }

  /** Every node a strategy ran on is reachable from the root. */
  lemma {:induction false} RunsAreReachable(w: World, root: Node, runs: seq<Node>, i: nat)
    requires RunTree(w, root, runs) && i < |runs|
    ensures Reachable(w, root, runs[i])
    decreases i
  {
    if i == 0 {
      assert IsSessionPath(w, root, [root]);
    } else {
      var j :| 0 <= j < i && runs[i] in ChildrenOf(w, runs[j]);
      RunsAreReachable(w, root, runs, j);
      var p :| IsSessionPath(w, root, p) && p[|p| - 1] == runs[j];
      var q := p + [runs[i]];
      assert IsSessionPath(w, root, q);
    }
  }

  /**
   * A set<Node> that holds the root (when it has a session) and every reported child with a
   * session of each of its members holds every node reachable from the root.
   */
  lemma {:induction false} ExpandedSetHoldsPath(w: World, root: Node, s: set<Node>, p: seq<Node>)
    requires HasSession(w, root) ==> root in s
    requires forall n :: n in s ==> ExpandedIn(w, n, s)
    requires IsSessionPath(w, root, p)
    ensures p[|p| - 1] in s
    decreases |p|
  {
    if |p| > 1 {
      var q := p[..|p| - 1];
      assert IsSessionPath(w, root, q);
      ExpandedSetHoldsPath(w, root, s, q);
      assert p[|p| - 1] in ChildrenOf(w, q[|q| - 1]);
    }
  }

  /** The visitor of one root object. */
  class ObjectVisitor {
    const root: Node
    const world: World
    /** The objects already visited. */
    var seen: set<Node>
    /** The nodes whose strategy ran during the current walk, in order. */
    ghost var runs: seq<Node>

    ghost predicate Valid()
      reads this
    {
      root in world.universe && Closed(world) && seen <= world.universe
    }

    constructor (root: Node, world: World)
      requires root in world.universe && Closed(world)
      ensures Valid() && this.root == root && this.world == world
      ensures seen == {} && runs == []
    {
      this.root := root;
      this.world := world;
      seen := {};
      runs := [];
    }

    /** Walks the graph from the root and returns the root. */
    method Walk() returns (r: Node)
      requires Valid()
      modifies this
      ensures Valid() && r == root
      ensures old(seen) <= seen
      ensures Distinct(runs)
      ensures forall n :: n in runs ==> Reachable(world, root, n)
      ensures old(seen) == {} ==> forall n :: n in seen <==> n in runs
      ensures old(seen) == {} ==> forall n :: n in seen <==> Reachable(world, root, n)
    {
      runs := [];
      WalkFrom(root);
      forall n | n in runs ensures Reachable(world, root, n) {
        var i :| 0 <= i < |runs| && runs[i] == n;
        RunsAreReachable(world, root, runs, i);
      }
      if old(seen) == {} {
        forall n | Reachable(world, root, n) ensures n in seen {
          var p :| IsSessionPath(world, root, p) && p[|p| - 1] == n;
          ExpandedSetHoldsPath(world, root, seen, p);
        }
      }
      r := root;
    }

    /**
     * Visits `current`: stops at a node without a session; otherwise marks it seen,
     * runs its strategy and walks every reported child not seen at that moment.
     */
    method WalkFrom(current: Node)
      requires Valid() && current in world.universe
      requires current !in runs && RunLog(world, root, runs, seen)
      requires runs == [] ==> current == root
      requires runs != [] ==> exists j :: 0 <= j < |runs| && current in ChildrenOf(world, runs[j])
      modifies this
      ensures Valid() && old(seen) <= seen
      ensures RunLog(world, root, runs, seen) && old(runs) <= runs
      ensures !HasSession(world, current) ==> seen == old(seen) && runs == old(runs)
      ensures HasSession(world, current) ==> current in seen && current in runs
      ensures forall n :: n in seen && n !in old(seen) ==> n in runs
      ensures HasSession(world, current) ==> ExpandedIn(world, current, seen)
      ensures forall n :: n in seen && n !in old(seen) ==> ExpandedIn(world, n, seen)
      decreases world.universe - seen, if current in seen then 1 else 0
    {
      var objectClass := world.classOf(current);
      if !world.hasSession(objectClass) {
        return;
      }
      var strategy := StrategyFor(world, current);
      seen := seen + {current};
      RunTreeGrows(world, root, runs, current);
      runs := runs + [current];
      ghost var at := |runs| - 1;
      var toWalk := world.visit(strategy, current);
      var remaining := toWalk;
      while remaining != {}
        invariant Valid() && old(seen) <= seen && current in seen
        invariant remaining <= toWalk
        invariant RunLog(world, root, runs, seen) && old(runs) <= runs
        invariant at < |runs| && runs[at] == current
        invariant forall n :: n in seen && n !in old(seen) ==> n in runs
        invariant forall c :: c in toWalk && c !in remaining ==> c in seen || !HasSession(world, c)
        invariant forall n :: n in seen && n !in old(seen) && n != current ==> ExpandedIn(world, n, seen)
        decreases remaining
      {
        var next :| next in remaining;
        remaining := remaining - {next};
        if next !in seen {
          assert next in ChildrenOf(world, runs[at]);
          ghost var before := seen;
          WalkFrom(next);
          ExpandedGrows(world, before, seen);
        }
      }
    }
  }
}
