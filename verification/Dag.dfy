/** Building, checking and ordering the graph of enabled blocks (executor/dag.ts). */
module Dag {
  import opened Graphs
  import opened Workflows

  /** A node: who leads to it, and its outgoing connections by target; both lists in insertion order. */
  datatype Node = Node(id: Id, kind: string, incoming: seq<Id>, targets: seq<Id>, via: map<Id, Connection>)

  /** keys holds the node ids in the order they were first added. */
  datatype DAG = DAG(keys: seq<Id>, nodes: map<Id, Node>, entrypoints: seq<Id>)

  type Nodes = map<Id, Node>

  /** The outgoing and the incoming sides of nodes both tell exactly the edges e. */
  ghost predicate Tells(nodes: Nodes, e: Edges) {
    && (forall a, b :: (a, b) in e ==> a in nodes && b in nodes && b in nodes[a].via && a in nodes[b].incoming)
    && (forall a, b :: a in nodes && b in nodes[a].via ==> (a, b) in e)
    && (forall a, b :: b in nodes && a in nodes[b].incoming ==> (a, b) in e)
    && (forall a :: a in nodes ==> OrderedKeys(nodes[a].targets, nodes[a].via) && Distinct(nodes[a].incoming))
  }

  ghost predicate OrderedKeys<V>(keys: seq<Id>, m: map<Id, V>) {
    Distinct(keys) && forall k :: k in keys <==> k in m
  }

  ghost predicate WellFormed(dag: DAG, e: Edges) {
    && Tells(dag.nodes, e)
    && OrderedKeys(dag.keys, dag.nodes)
    && Distinct(dag.entrypoints)
    && (forall id :: id in dag.entrypoints <==> id in dag.nodes && dag.nodes[id].incoming == [])
  }

  // ---- hasCycle: three-colour depth-first search ----

  datatype Color = White | Gray | Black

  type Colors = map<Id, Color>

  ghost function Whites(color: Colors): set<Id> {
    set id | id in color && color[id] == White
  }

  /** Black nodes are finished: all they lead to is black, and none is on a cycle. */
  ghost predicate BlackDone(e: Edges, color: Colors) {
    && (forall a, b :: (a, b) in e && a in color && color[a] == Black ==> b in color && color[b] == Black)
    && (forall b :: b in color && color[b] == Black ==> !Reaches(e, b, b))
  }

  /** Grey and black nodes keep their colour; white ones stay white or finish. */
  ghost predicate Progress(before: Colors, after: Colors) {
    && before.Keys == after.Keys
    && (forall id :: id in before && before[id] != White ==> after[id] == before[id])
    && (forall id :: id in before && after[id] == Gray ==> before[id] == Gray)
  }

  /** A node whose targets are all finished is not on a cycle. */
  lemma Finished(e: Edges, color: Colors, id: Id)
    requires BlackDone(e, color) && id in color && color[id] == Gray
    requires forall t :: (id, t) in e ==> t in color && color[t] == Black
    ensures BlackDone(e, color[id := Black])
  {
    var black := set b | b in color && color[b] == Black;
    if Reaches(e, id, id) {
      var m := FirstStep(e, id, id);
      assert m in black && Closed(e, black);
      ClosedReaches(e, black, m, id);
      assert false;
    }
  }

  lemma FewerWhites(before: Colors, id: Id, mid: Colors, after: Colors)
    requires id in before && before[id] == White && mid == before[id := Gray] && Progress(mid, after)
    ensures Whites(after) < Whites(before)
  {
    assert id in Whites(before) && id !in Whites(after);
  }

  class Colouring {
    const nodes: Nodes
    ghost const e: Edges
    var color: Colors

    constructor (nodes: Nodes, ghost e: Edges)
      ensures this.nodes == nodes && this.e == e && color == map id | id in nodes :: White
    {
      this.nodes, this.e := nodes, e;
      color := map id | id in nodes :: White;
    }

    ghost predicate Valid()
      reads this
    {
      color.Keys == nodes.Keys && BlackDone(e, color)
    }

    /** Explores a white node; found tells that a grey node was met again. */
    method Visit(id: Id) returns (found: bool)
      requires Tells(nodes, e) && Valid() && id in color && color[id] == White
      requires forall g :: g in color && color[g] == Gray ==> Reaches(e, g, id)
      modifies this`color
      ensures found ==> !Acyclic(e)
      ensures !found ==> Valid() && Progress(old(color), color) && color[id] == Black
      decreases Whites(color), 0
    {
      color := color[id := Gray];
      ghost var mid := color;
      var targets := nodes[id].targets;
      for i := 0 to |targets|
        invariant Valid() && Progress(mid, color)
        invariant AllBlack(color, targets, i)
      {
        FewerWhites(old(color), id, mid, color);
        ghost var now := color;
        var again := Explore(id, targets[i]);
        if again {
          return true;
        }
        StaysBlack(now, color, targets, i);
      }
      Finished(e, color, id);
      color := color[id := Black];
      return false;
    }

    /** One edge of the search, out of the grey node id. */
    method Explore(id: Id, target: Id) returns (found: bool)
      requires Tells(nodes, e) && Valid() && id in nodes && target in nodes[id].targets
      requires color[id] == Gray && forall g :: g in color && color[g] == Gray && g != id ==> Reaches(e, g, id)
      modifies this`color
      ensures found ==> !Acyclic(e)
      ensures !found ==> Valid() && Progress(old(color), color) && color[target] == Black
      decreases Whites(color), 1
    {
      assert target in nodes[id].via;
      EdgeReaches(e, id, target);
      var c := color[target];
      if c == Gray {
        if target != id {
          ReachesTransitive(e, target, id, target);
        }
        return true;
      }
      if c == White {
        GrayReach(e, color, id, target);
        found := Visit(target);
        return;
      }
      return false;
    }
  }

  /** The first n of ids are black. */
  ghost predicate AllBlack(color: Colors, ids: seq<Id>, n: nat)
    requires n <= |ids|
  {
    forall k :: 0 <= k < n ==> ids[k] in color && color[ids[k]] == Black
  }

  lemma StaysBlack(before: Colors, after: Colors, ids: seq<Id>, n: nat)
    requires n < |ids| && Progress(before, after) && AllBlack(before, ids, n)
    requires ids[n] in after && after[ids[n]] == Black
    ensures AllBlack(after, ids, n + 1)
  {
  }

  lemma GrayReach(e: Edges, color: Colors, id: Id, target: Id)
    requires forall g :: g in color && color[g] == Gray && g != id ==> Reaches(e, g, id)
    requires Reaches(e, id, target)
    ensures forall g :: g in color && color[g] == Gray ==> Reaches(e, g, target)
  {
    forall g | g in color && color[g] == Gray
      ensures Reaches(e, g, target)
    {
      if g != id {
        ReachesTransitive(e, g, id, target);
      }
    }
  }

  method HasCycle(keys: seq<Id>, nodes: Nodes, ghost e: Edges) returns (found: bool)
    requires Tells(nodes, e) && OrderedKeys(keys, nodes)
    ensures found <==> !Acyclic(e)
  {
    var search := new Colouring(nodes, e);
    for i := 0 to |keys|
      invariant search.nodes == nodes && search.e == e && search.Valid()
      invariant forall id :: id in search.color ==> search.color[id] != Gray
      invariant AllBlack(search.color, keys, i)
    {
      assert keys[i] in nodes;
      if search.color[keys[i]] == White {
        var cyclic := search.Visit(keys[i]);
        if cyclic {
          return true;
        }
      }
    }
    NoCycleLeft(e, nodes, search.color);
    return false;
  }

  lemma NoCycleLeft(e: Edges, nodes: Nodes, color: Colors)
    requires Tells(nodes, e) && BlackDone(e, color)
    requires forall id :: id in nodes ==> id in color && color[id] == Black
    ensures Acyclic(e)
  {
    forall v
      ensures !Reaches(e, v, v)
    {
      if Reaches(e, v, v) {
        var m := FirstStep(e, v, v);
      }
    }
  }

  // ---- topoSort: Kahn's algorithm ----

  /** How many of the listed predecessors are not done yet. */
  ghost function Missing(incoming: seq<Id>, done: set<Id>): nat {
    if incoming == [] then 0
    else (if incoming[0] in done then 0 else 1) + Missing(incoming[1..], done)
  }

  lemma {:induction false} NoneDone(incoming: seq<Id>)
    ensures Missing(incoming, {}) == |incoming|
  {
    if incoming != [] {
      NoneDone(incoming[1..]);
    }
  }

  lemma {:induction false} OneMoreDone(incoming: seq<Id>, done: set<Id>, x: Id)
    requires Distinct(incoming) && x !in done
    ensures Missing(incoming, done) == Missing(incoming, done + {x}) + if x in incoming then 1 else 0
  {
    if incoming != [] {
      OneMoreDone(incoming[1..], done, x);
    }
  }

  lemma {:induction false} AllDone(incoming: seq<Id>, done: set<Id>)
    ensures Missing(incoming, done) == 0 <==> forall x :: x in incoming ==> x in done
  {
    if incoming != [] {
      AllDone(incoming[1..], done);
    }
  }

  /** inDeg counts the predecessors outside done, and one more for each node still to be released. */
  ghost predicate Counts(nodes: Nodes, inDeg: map<Id, int>, done: set<Id>, pending: set<Id>) {
    && inDeg.Keys == nodes.Keys
    && forall n :: n in nodes ==> inDeg[n] == Missing(nodes[n].incoming, done) + if n in pending then 1 else 0
  }

  /** The queue and the output hold exactly the nodes whose count has reached zero. */
  ghost predicate Queued(inDeg: map<Id, int>, ready: seq<Id>, order: seq<Id>) {
    && Distinct(ready) && Distinct(order)
    && (forall n :: n in ready ==> n !in order)
    && (forall n :: n in ready || n in order <==> n in inDeg && inDeg[n] == 0)
  }

  /** Every node of order comes after all its predecessors. */
  ghost predicate Ordered(nodes: Nodes, order: seq<Id>) {
    forall i, x :: 0 <= i < |order| && order[i] in nodes && x in nodes[order[i]].incoming ==> x in order[..i]
  }

  /** The loop's variables: counts of unplaced predecessors, the queue, and the output so far. */
  datatype Sorting = Sorting(inDeg: map<Id, int>, ready: seq<Id>, order: seq<Id>)

  /** Counts lowered and queue extended for each target in turn. */
  function Lowered(inDeg: map<Id, int>, ready: seq<Id>, targets: seq<Id>): (map<Id, int>, seq<Id>)
    decreases |targets|
  {
    if targets == [] then (inDeg, ready)
    else
      var t := targets[0];
      var next := (if t in inDeg then inDeg[t] else 0) - 1;
      Lowered(inDeg[t := next], if next == 0 then ready + [t] else ready, targets[1..])
  }

  /** One round: the head of the queue moves to the output and its targets are released. */
  function Round(nodes: Nodes, s: Sorting): Sorting {
    if s.ready == [] then s
    else
      var id := s.ready[0];
      var (inDeg, ready) := Lowered(s.inDeg, s.ready[1..], if id in nodes then nodes[id].targets else []);
      Sorting(inDeg, ready, s.order + [id])
  }

  function Rounds(nodes: Nodes, s: Sorting, n: nat): Sorting {
    if n == 0 then s else Round(nodes, Rounds(nodes, s, n - 1))
  }

  function Start(dag: DAG): Sorting {
    Sorting(map id | id in dag.nodes :: |dag.nodes[id].incoming|, dag.entrypoints, [])
  }

  /** The order that the algorithm ends with. */
  function OrderOf(dag: DAG): seq<Id> {
    Rounds(dag.nodes, Start(dag), |dag.nodes|).order
  }

  ghost predicate Tidy(nodes: Nodes, s: Sorting) {
    Counts(nodes, s.inDeg, Elems(s.order), {}) && Queued(s.inDeg, s.ready, s.order) && Ordered(nodes, s.order)
  }

  /** The state after as many rounds as nodes are placed. */
  ghost predicate AtRound(dag: DAG, s: Sorting) {
    Tidy(dag.nodes, s) && s == Rounds(dag.nodes, Start(dag), |s.order|)
  }

  lemma NextRound(dag: DAG, e: Edges, s: Sorting)
    requires WellFormed(dag, e) && AtRound(dag, s) && s.ready != []
    ensures AtRound(dag, Round(dag.nodes, s)) && s.ready[0] in dag.nodes
    ensures dag.nodes.Keys - Elems(Round(dag.nodes, s).order) < dag.nodes.Keys - Elems(s.order)
  {
    RoundKeepsTidy(dag.nodes, e, s);
  }

  lemma LastRound(dag: DAG, e: Edges, s: Sorting)
    requires WellFormed(dag, e) && AtRound(dag, s) && s.ready == []
    ensures |s.order| == |dag.nodes| <==> Acyclic(e)
    ensures |s.order| == |dag.nodes| ==>
      s.order == OrderOf(dag) && Topological(e, s.order) && Elems(s.order) == dag.nodes.Keys
  {
    Drained(dag.nodes, e, s);
  }

  /** Execution order of the graph, or None when Kahn's algorithm cannot place every node. */
  method TopoSort(dag: DAG, ghost e: Edges) returns (r: Option<seq<Id>>)
    requires WellFormed(dag, e)
    ensures r.Some? <==> Acyclic(e)
    ensures r.Some? ==> r.value == OrderOf(dag) && Topological(e, r.value) && Elems(r.value) == dag.nodes.Keys
  {
    var inDeg: map<Id, int> := map id | id in dag.nodes :: |dag.nodes[id].incoming|;
    var ready, order: seq<Id> := dag.entrypoints, [];
    StartTidy(dag, e);
    while |ready| > 0
      invariant AtRound(dag, Sorting(inDeg, ready, order))
      decreases dag.nodes.Keys - Elems(order)
    {
      NextRound(dag, e, Sorting(inDeg, ready, order));
      inDeg, ready, order := Place(dag.nodes, inDeg, ready, order);
    }
    LastRound(dag, e, Sorting(inDeg, ready, order));
    r := if |order| == |dag.nodes| then Some(order) else None;
  }

  /** One round: moves the head of the queue to the output and releases its targets. */
  method Place(nodes: Nodes, inDeg: map<Id, int>, ready: seq<Id>, order: seq<Id>)
    returns (inDeg': map<Id, int>, ready': seq<Id>, order': seq<Id>)
    requires |ready| > 0 && ready[0] in nodes
    ensures Sorting(inDeg', ready', order') == Round(nodes, Sorting(inDeg, ready, order))
    ensures order' == order + [ready[0]]
  {
    order' := order + [ready[0]];
    inDeg', ready' := Release(inDeg, ready[1..], nodes[ready[0]].targets);
  }

  /** Lowers the count of every target, queueing those that reach zero. */
  method Release(inDeg: map<Id, int>, ready: seq<Id>, targets: seq<Id>) returns (inDeg': map<Id, int>, ready': seq<Id>)
    ensures (inDeg', ready') == Lowered(inDeg, ready, targets)
  {
    inDeg', ready' := inDeg, ready;
    for k := 0 to |targets|
      invariant Lowered(inDeg', ready', targets[k..]) == Lowered(inDeg, ready, targets)
    {
      var target := targets[k];
      var next := (if target in inDeg' then inDeg'[target] else 0) - 1;
      inDeg' := inDeg'[target := next];
      if next == 0 {
        ready' := ready' + [target];
      }
    }
  }

  lemma StartTidy(dag: DAG, e: Edges)
    requires WellFormed(dag, e)
    ensures Tidy(dag.nodes, Start(dag))
  {
    assert Elems<Id>([]) == {};
    forall n | n in dag.nodes
      ensures Start(dag).inDeg[n] == Missing(dag.nodes[n].incoming, {})
    {
      NoneDone(dag.nodes[n].incoming);
    }
  }

  /** One target less to release, and still the counts and the queue are right. */
  lemma ReleaseOne(nodes: Nodes, inDeg: map<Id, int>, ready: seq<Id>, order: seq<Id>, targets: seq<Id>)
    requires Releasing(nodes, inDeg, ready, order, targets) && targets != []
    ensures
      var t := targets[0];
      && t in inDeg
      && var next := inDeg[t] - 1;
         Releasing(nodes, inDeg[t := next], if next == 0 then ready + [t] else ready, order, targets[1..])
  {
    var t := targets[0];
    ElemsTail(targets);
    LoweredCount(nodes, inDeg, Elems(order), Elems(targets), t);
    LoweredQueue(inDeg, t, ready, order);
  }

  /** The targets are still to be released, and the queue holds what has reached zero. */
  ghost predicate Releasing(nodes: Nodes, inDeg: map<Id, int>, ready: seq<Id>, order: seq<Id>, targets: seq<Id>) {
    && Distinct(targets) && Elems(targets) <= nodes.Keys
    && Counts(nodes, inDeg, Elems(order), Elems(targets)) && Queued(inDeg, ready, order)
  }

  /** Releasing lowers each count once, and queues exactly the nodes that reach zero. */
  lemma {:induction false} ReleaseKeeps(nodes: Nodes, inDeg: map<Id, int>, ready: seq<Id>, order: seq<Id>,
                                        targets: seq<Id>)
    requires Releasing(nodes, inDeg, ready, order, targets)
    ensures
      var (inDeg', ready') := Lowered(inDeg, ready, targets);
      Counts(nodes, inDeg', Elems(order), {}) && Queued(inDeg', ready', order)
    decreases |targets|
  {
    if targets == [] {
      assert Elems(targets) == {};
    } else {
      var next := inDeg[targets[0]] - 1;
      ReleaseOne(nodes, inDeg, ready, order, targets);
      var ready' := if next == 0 then ready + [targets[0]] else ready;
      ReleaseKeeps(nodes, inDeg[targets[0] := next], ready', order, targets[1..]);
    }
  }

  lemma RoundKeepsTidy(nodes: Nodes, e: Edges, s: Sorting)
    requires Tells(nodes, e) && Tidy(nodes, s) && s.ready != []
    ensures Tidy(nodes, Round(nodes, s)) && s.ready[0] in nodes
    ensures nodes.Keys - Elems(s.order + [s.ready[0]]) < nodes.Keys - Elems(s.order)
  {
    var id := s.ready[0];
    assert id in s.ready;
    TakeHead(s.inDeg, s.ready, s.order);
    OrderedPush(nodes, s.inDeg, s.order, id);
    TakeCounts(nodes, e, s.inDeg, Elems(s.order), id);
    assert Elems(s.order + [id]) == Elems(s.order) + {id};
    ReleaseKeeps(nodes, s.inDeg, s.ready[1..], s.order + [id], nodes[id].targets);
    Shrinks(nodes.Keys, Elems(s.order), id);
  }

  lemma Shrinks(all: set<Id>, done: set<Id>, id: Id)
    requires id in all && id !in done
    ensures all - (done + {id}) < all - done
  {
  }

  /** Once the queue is empty, every node is placed exactly when there is no cycle. */
  lemma Drained(nodes: Nodes, e: Edges, s: Sorting)
    requires Tells(nodes, e) && Tidy(nodes, s) && s.ready == []
    ensures |s.order| == |nodes| <==> Acyclic(e)
    ensures |s.order| == |nodes| ==> Topological(e, s.order) && Elems(s.order) == nodes.Keys
  {
    if |s.order| == |nodes| {
      FullOrder(nodes, e, s.inDeg, s.order);
    } else {
      Stuck(nodes, e, s.inDeg, s.order);
    }
  }

  /** After n rounds n nodes are placed, or the queue has run dry. */
  lemma {:induction false} RoundsKeepTidy(dag: DAG, e: Edges, n: nat)
    requires WellFormed(dag, e)
    ensures
      var s := Rounds(dag.nodes, Start(dag), n);
      Tidy(dag.nodes, s) && (s.ready == [] || |s.order| == n)
  {
    if n == 0 {
      StartTidy(dag, e);
    } else {
      RoundsKeepTidy(dag, e, n - 1);
      var s := Rounds(dag.nodes, Start(dag), n - 1);
      if s.ready != [] {
        RoundKeepsTidy(dag.nodes, e, s);
      }
    }
  }

  /** The order of an acyclic graph is topological and lists every node. */
  lemma OrderIsTopological(dag: DAG, e: Edges)
    requires WellFormed(dag, e) && Acyclic(e)
    ensures Topological(e, OrderOf(dag)) && Elems(OrderOf(dag)) == dag.nodes.Keys
  {
    var s := Rounds(dag.nodes, Start(dag), |dag.nodes|);
    RoundsKeepTidy(dag, e, |dag.nodes|);
    if s.ready != [] {
      assert s.ready[0] in s.ready;
      DistinctSize(s.order);
      SameSize(Elems(s.order), dag.nodes.Keys);
      assert false;
    }
    Drained(dag.nodes, e, s);
  }

  lemma TakeHead(inDeg: map<Id, int>, ready: seq<Id>, order: seq<Id>)
    requires |ready| > 0 && Queued(inDeg, ready, order)
    ensures ready[0] in inDeg && inDeg[ready[0]] == 0 && ready[0] !in order
    ensures Queued(inDeg, ready[1..], order + [ready[0]])
  {
  }

  lemma OrderedPush(nodes: Nodes, inDeg: map<Id, int>, order: seq<Id>, id: Id)
    requires Ordered(nodes, order) && Counts(nodes, inDeg, Elems(order), {}) && id in inDeg && inDeg[id] == 0
    ensures Ordered(nodes, order + [id])
  {
    var order' := order + [id];
    AllDone(nodes[id].incoming, Elems(order));
    forall i, x | 0 <= i < |order'| && order'[i] in nodes && x in nodes[order'[i]].incoming
      ensures x in order'[..i]
    {
      if i < |order| {
        assert order'[..i] == order[..i];
      } else {
        assert order'[..i] == order;
      }
    }
  }

  lemma TakeCounts(nodes: Nodes, e: Edges, inDeg: map<Id, int>, done: set<Id>, id: Id)
    requires Tells(nodes, e) && id in nodes && id !in done && Counts(nodes, inDeg, done, {})
    ensures Counts(nodes, inDeg, done + {id}, Elems(nodes[id].targets)) && Elems(nodes[id].targets) <= nodes.Keys
  {
    forall n | n in nodes
      ensures inDeg[n] == Missing(nodes[n].incoming, done + {id}) + if n in nodes[id].targets then 1 else 0
    {
      OneMoreDone(nodes[n].incoming, done, id);
      assert n in nodes[id].targets <==> n in nodes[id].via;
      assert (id, n) in e <==> n in nodes[id].via;
    }
  }

  lemma LoweredCount(nodes: Nodes, inDeg: map<Id, int>, done: set<Id>, pending: set<Id>, t: Id)
    requires t in pending && t in nodes && Counts(nodes, inDeg, done, pending)
    ensures Counts(nodes, inDeg[t := inDeg[t] - 1], done, pending - {t}) && inDeg[t] >= 1
  {
  }

  lemma LoweredQueue(inDeg: map<Id, int>, t: Id, ready: seq<Id>, order: seq<Id>)
    requires t in inDeg && inDeg[t] >= 1 && Queued(inDeg, ready, order)
    ensures Queued(inDeg[t := inDeg[t] - 1], if inDeg[t] == 1 then ready + [t] else ready, order)
  {
  }

  /** When the queue runs dry early, the unplaced nodes hold a cycle. */
  lemma Stuck(nodes: Nodes, e: Edges, inDeg: map<Id, int>, order: seq<Id>)
    requires Tells(nodes, e) && Counts(nodes, inDeg, Elems(order), {}) && Queued(inDeg, [], order)
    requires |order| != |nodes|
    ensures !Acyclic(e)
  {
    DistinctSize(order);
    var rest := set n | n in nodes && n !in order;
    var v := SomeUnplaced(nodes.Keys, order);
    forall w | w in rest
      ensures exists u :: u in rest && (u, w) in e
    {
      AllDone(nodes[w].incoming, Elems(order));
      var u :| u in nodes[w].incoming && u !in order;
      assert (u, w) in e;
    }
    NoSource(e, rest, v);
  }

  lemma SomeUnplaced(all: set<Id>, order: seq<Id>) returns (v: Id)
    requires Distinct(order) && Elems(order) <= all && |order| != |all|
    ensures v in all && v !in order
  {
    DistinctSize(order);
    assert Elems(order) != all;
    v :| v in all && v !in Elems(order);
  }

  lemma FullOrder(nodes: Nodes, e: Edges, inDeg: map<Id, int>, order: seq<Id>)
    requires Tells(nodes, e) && Counts(nodes, inDeg, Elems(order), {}) && Queued(inDeg, [], order)
    requires Ordered(nodes, order) && |order| == |nodes|
    ensures Topological(e, order) && Elems(order) == nodes.Keys && Acyclic(e)
  {
    DistinctSize(order);
    SameSize(Elems(order), nodes.Keys);
    forall i, j | 0 <= i < |order| && 0 <= j < |order| && (order[i], order[j]) in e
      ensures i < j
    {
      assert order[i] in nodes[order[j]].incoming;
      assert order[i] in order[..j];
    }
    TopologicalAcyclic(e, order);
  }

  // ---- buildDAG ----

  datatype Built = Graph(dag: DAG) | CycleError

  /** The connection the graph keeps for the edge from a to b: the last of those given. */
  ghost function LastBetween(conns: seq<Connection>, a: Id, b: Id): Option<Connection> {
    if conns == [] then None
    else
      var c := conns[|conns| - 1];
      if c.source == a && c.target == b then Some(c) else LastBetween(conns[..|conns| - 1], a, b)
  }

  /** Every edge of the graph carries the last connection drawn for it. */
  ghost predicate CarriesLast(nodes: Nodes, conns: seq<Connection>) {
    forall a, b :: a in nodes && b in nodes[a].via ==> LastBetween(conns, a, b) == Some(nodes[a].via[b])
  }

  /** src.outgoing.set(target, conn) and tgt.incoming.add(source): both keep the place of a known key. */
  function Linked(nodes: Nodes, c: Connection): Nodes
    requires c.source in nodes && c.target in nodes
  {
    var src := nodes[c.source];
    var targets := if c.target in src.via then src.targets else src.targets + [c.target];
    var half := nodes[c.source := src.(targets := targets, via := src.via[c.target := c])];
    var tgt := half[c.target];
    half[c.target := tgt.(incoming := if c.source in tgt.incoming then tgt.incoming else tgt.incoming + [c.source])]
  }

  lemma LinkedMembers(nodes: Nodes, c: Connection)
    requires c.source in nodes && c.target in nodes
    ensures Linked(nodes, c).Keys == nodes.Keys
    ensures forall a, b :: a in nodes ==>
      (b in Linked(nodes, c)[a].via <==> b in nodes[a].via || (a == c.source && b == c.target))
    ensures forall a, b :: b in nodes ==>
      (a in Linked(nodes, c)[b].incoming <==> a in nodes[b].incoming || (a == c.source && b == c.target))
  {
  }

  lemma LinkedLists(nodes: Nodes, c: Connection, a: Id)
    requires c.source in nodes && c.target in nodes && a in nodes
    requires OrderedKeys(nodes[a].targets, nodes[a].via) && Distinct(nodes[a].incoming)
    ensures a in Linked(nodes, c)
    ensures OrderedKeys(Linked(nodes, c)[a].targets, Linked(nodes, c)[a].via) && Distinct(Linked(nodes, c)[a].incoming)
  {
  }

  lemma LinkedTells(nodes: Nodes, e: Edges, c: Connection)
    requires Tells(nodes, e) && c.source in nodes && c.target in nodes
    ensures Tells(Linked(nodes, c), e + {(c.source, c.target)})
  {
    var r, f := Linked(nodes, c), e + {(c.source, c.target)};
    LinkedMembers(nodes, c);
    forall a | a in nodes
      ensures OrderedKeys(r[a].targets, r[a].via) && Distinct(r[a].incoming)
    {
      LinkedLists(nodes, c, a);
    }
  }

  lemma LinkedCarriesLast(nodes: Nodes, conns: seq<Connection>, c: Connection)
    requires CarriesLast(nodes, conns)
    ensures c.source in nodes && c.target in nodes ==> CarriesLast(Linked(nodes, c), conns + [c])
    ensures
      && (c.source !in nodes || c.target !in nodes)
      && (forall a, b :: a in nodes && b in nodes[a].via ==> b in nodes)
      ==> CarriesLast(nodes, conns + [c])
  {
  }

  /** The ids of the enabled blocks in the order they were first met. */
  function KeysOf(blocks: seq<Block>): seq<Id> {
    if blocks == [] then []
    else
      var n := |blocks| - 1;
      var keys := KeysOf(blocks[..n]);
      if blocks[n].enabled && blocks[n].id !in keys then keys + [blocks[n].id] else keys
  }

  /** One node without connections for each enabled id. */
  function BareNodes(blocks: seq<Block>): Nodes {
    if blocks == [] then map[]
    else
      var n := |blocks| - 1;
      var b, nodes := blocks[n], BareNodes(blocks[..n]);
      if b.enabled then nodes[b.id := Node(b.id, b.kind, [], [], map[])] else nodes
  }

  /** The nodes with every connection between two of them added to both of its ends. */
  function LinkedAll(bare: Nodes, conns: seq<Connection>): Nodes {
    if conns == [] then bare
    else
      var n := |conns| - 1;
      var c, nodes := conns[n], LinkedAll(bare, conns[..n]);
      if c.source in nodes && c.target in nodes then Linked(nodes, c) else nodes
  }

  /** The ids without predecessors, in order. */
  function Sources(keys: seq<Id>, nodes: Nodes): seq<Id> {
    if keys == [] then []
    else
      var n := |keys| - 1;
      Sources(keys[..n], nodes) + if keys[n] in nodes && nodes[keys[n]].incoming == [] then [keys[n]] else []
  }

  /** The graph of the enabled blocks. */
  function GraphOf(wf: Workflow): DAG {
    var keys := KeysOf(wf.blocks);
    var nodes := LinkedAll(BareNodes(wf.blocks), wf.conns);
    DAG(keys, nodes, Sources(keys, nodes))
  }

  ghost predicate Bare(nodes: Nodes) {
    forall id :: id in nodes ==> nodes[id].incoming == [] && nodes[id].targets == [] && nodes[id].via == map[]
  }

  lemma {:induction false} KeysInOrder(blocks: seq<Block>)
    ensures OrderedKeys(KeysOf(blocks), BareNodes(blocks)) && BareNodes(blocks).Keys == EnabledIds(blocks)
    ensures Bare(BareNodes(blocks))
  {
    if blocks != [] {
      var n := |blocks| - 1;
      KeysInOrder(blocks[..n]);
      assert blocks == blocks[..n] + [blocks[n]];
      assert EnabledIds(blocks) == EnabledIds(blocks[..n]) + if blocks[n].enabled then {blocks[n].id} else {};
    }
  }

  lemma BareTellsNothing(nodes: Nodes)
    requires Bare(nodes)
    ensures Tells(nodes, {}) && CarriesLast(nodes, [])
  {
  }

  /** Linking all connections tells exactly their edges, and keeps the last of each pair. */
  lemma {:induction false} LinkedAllTells(bare: Nodes, conns: seq<Connection>)
    requires Tells(bare, {}) && CarriesLast(bare, [])
    ensures LinkedAll(bare, conns).Keys == bare.Keys
    ensures Tells(LinkedAll(bare, conns), EdgesAmong(bare.Keys, conns)) && CarriesLast(LinkedAll(bare, conns), conns)
  {
    if conns != [] {
      var n := |conns| - 1;
      var c, nodes := conns[n], LinkedAll(bare, conns[..n]);
      LinkedAllTells(bare, conns[..n]);
      assert conns == conns[..n] + [c];
      LinkedCarriesLast(nodes, conns[..n], c);
      if c.source in nodes && c.target in nodes {
        LinkedTells(nodes, EdgesAmong(bare.Keys, conns[..n]), c);
      }
    }
  }

  lemma {:induction false} SourcesMeaning(keys: seq<Id>, nodes: Nodes)
    requires Distinct(keys)
    ensures Distinct(Sources(keys, nodes))
    ensures forall id :: id in Sources(keys, nodes) <==> id in keys && id in nodes && nodes[id].incoming == []
  {
    if keys != [] {
      var n := |keys| - 1;
      SourcesMeaning(keys[..n], nodes);
      assert keys == keys[..n] + [keys[n]];
      assert keys[n] !in keys[..n];
    }
  }

  /** The graph has the enabled blocks as nodes, tells exactly the edges among them, and keeps the last of each pair. */
  lemma GraphIsBuilt(wf: Workflow)
    ensures WellFormed(GraphOf(wf), EnabledEdges(wf)) && CarriesLast(GraphOf(wf).nodes, wf.conns)
    ensures GraphOf(wf).nodes.Keys == EnabledIds(wf.blocks)
  {
    KeysInOrder(wf.blocks);
    BareTellsNothing(BareNodes(wf.blocks));
    LinkedAllTells(BareNodes(wf.blocks), wf.conns);
    SourcesMeaning(KeysOf(wf.blocks), GraphOf(wf).nodes);
  }

  method BuildNodes(blocks: seq<Block>) returns (keys: seq<Id>, nodes: Nodes)
    ensures keys == KeysOf(blocks) && nodes == BareNodes(blocks)
    ensures OrderedKeys(keys, nodes) && nodes.Keys == EnabledIds(blocks)
  {
    keys, nodes := [], map[];
    for k := 0 to |blocks|
      invariant keys == KeysOf(blocks[..k]) && nodes == BareNodes(blocks[..k])
    {
      var block := blocks[k];
      assert blocks[..k + 1][..k] == blocks[..k];
      KeysInOrder(blocks[..k]);
      if block.enabled {
        if block.id !in nodes {
          keys := keys + [block.id];
        }
        nodes := nodes[block.id := Node(block.id, block.kind, [], [], map[])];
      }
    }
    assert blocks[..|blocks|] == blocks;
    KeysInOrder(blocks);
  }

  method Entrypoints(keys: seq<Id>, nodes: Nodes) returns (entrypoints: seq<Id>)
    requires OrderedKeys(keys, nodes)
    ensures entrypoints == Sources(keys, nodes) && Distinct(entrypoints)
    ensures forall id :: id in entrypoints <==> id in nodes && nodes[id].incoming == []
  {
    entrypoints := [];
    for k := 0 to |keys|
      invariant entrypoints == Sources(keys[..k], nodes)
    {
      assert keys[..k + 1][..k] == keys[..k];
      assert keys[k] in nodes;
      if nodes[keys[k]].incoming == [] {
        entrypoints := entrypoints + [keys[k]];
      }
    }
    assert keys[..|keys|] == keys;
    SourcesMeaning(keys, nodes);
  }

  /** Adds each connection between two known nodes to both of its ends. */
  method LinkAll(bare: Nodes, conns: seq<Connection>) returns (nodes: Nodes)
    ensures nodes == LinkedAll(bare, conns)
  {
    nodes := bare;
    for n := 0 to |conns|
      invariant nodes == LinkedAll(bare, conns[..n])
    {
      var conn := conns[n];
      assert conns[..n + 1][..n] == conns[..n];
      if conn.source in nodes && conn.target in nodes {
        nodes := Linked(nodes, conn);
      }
    }
    assert conns[..|conns|] == conns;
  }

  /** Builds the graph of the enabled blocks; throws exactly when it has a cycle. */
  method BuildDag(wf: Workflow) returns (r: Built)
    ensures r.Graph? <==> Acyclic(EnabledEdges(wf))
    ensures r.Graph? ==>
      r.dag == GraphOf(wf) && WellFormed(r.dag, EnabledEdges(wf)) && CarriesLast(r.dag.nodes, wf.conns)
    ensures r.Graph? ==> r.dag.nodes.Keys == EnabledIds(wf.blocks)
  {
    GraphIsBuilt(wf);
    var keys, nodes := BuildNodes(wf.blocks);
    nodes := LinkAll(nodes, wf.conns);
    var entrypoints := Entrypoints(keys, nodes);
    var cyclic := HasCycle(keys, nodes, EnabledEdges(wf));
    r := if cyclic then CycleError else Graph(DAG(keys, nodes, entrypoints));
  }
}
