/** Choosing branches and marking what they leave behind (selectBranches in runner/walk.ts and executor.memory.ts). */
module Branches {
  import opened Graphs
  import opened Workflows
  import opened Dag

  // ---- markDownstreamSkipped ----

  /** The nodes that the roots are or lead to. */
  ghost function Downstream(e: Edges, nodes: set<Id>, roots: set<Id>): set<Id> {
    set x | x in nodes && exists r :: r in roots && (r == x || Reaches(e, r, x))
  }

  /** The nodes marked since from have all their successors marked. */
  ghost predicate NewClosed(e: Edges, from: set<Id>, now: set<Id>) {
    forall a, b :: (a, b) in e && a in now && a !in from ==> b in now
  }

  ghost predicate ReachedFrom(e: Edges, id: Id, from: set<Id>, now: set<Id>) {
    forall x :: x in now && x !in from ==> x == id || Reaches(e, id, x)
  }

  /** Marks id and what it leads to, not looking beyond nodes already marked. */
  method MarkDownstreamSkipped(nodes: Nodes, ghost e: Edges, id: Id, skipped: set<Id>) returns (skipped': set<Id>)
    requires Tells(nodes, e) && id in nodes && skipped <= nodes.Keys
    ensures skipped + {id} <= skipped' <= nodes.Keys
    ensures NewClosed(e, skipped, skipped') && ReachedFrom(e, id, skipped, skipped')
    decreases nodes.Keys - skipped
  {
    if id in skipped {
      return skipped;
    }
    skipped' := skipped + {id};
    var targets := nodes[id].targets;
    for i := 0 to |targets|
      invariant skipped + {id} <= skipped' <= nodes.Keys
      invariant NewClosed(e, skipped + {id}, skipped') && ReachedFrom(e, id, skipped, skipped')
      invariant forall k :: 0 <= k < i ==> targets[k] in skipped'
    {
      ghost var before := skipped';
      assert targets[i] in nodes[id].via;
      assert (id, targets[i]) in e;
      assert id in nodes.Keys - skipped && id !in nodes.Keys - skipped';
      skipped' := MarkDownstreamSkipped(nodes, e, targets[i], skipped');
      MarkedMore(e, id, targets[i], skipped, before, skipped');
    }
    assert forall b :: (id, b) in e ==> b in nodes[id].via && b in targets;
  }

  lemma MarkedMore(e: Edges, id: Id, t: Id, from: set<Id>, before: set<Id>, now: set<Id>)
    requires (id, t) in e && from + {id} <= before <= now
    requires NewClosed(e, from + {id}, before) && ReachedFrom(e, id, from, before)
    requires NewClosed(e, before, now) && ReachedFrom(e, t, before, now)
    ensures NewClosed(e, from + {id}, now) && ReachedFrom(e, id, from, now)
  {
    EdgeReaches(e, id, t);
    forall x | x in now && x !in from
      ensures x == id || Reaches(e, id, x)
    {
      if x !in before && x != t {
        ReachesTransitive(e, id, t, x);
      }
    }
  }

  /** From a closed set, the early stop loses nothing: exactly the downstream nodes are added. */
  lemma MarkedExactly(e: Edges, nodes: set<Id>, id: Id, skipped: set<Id>, skipped': set<Id>)
    requires Closed(e, skipped) && skipped + {id} <= skipped' <= nodes
    requires NewClosed(e, skipped, skipped') && ReachedFrom(e, id, skipped, skipped')
    ensures Closed(e, skipped') && skipped' == skipped + Downstream(e, nodes, {id})
  {
    forall x | x in Downstream(e, nodes, {id})
      ensures x in skipped'
    {
      if x != id {
        ClosedReaches(e, skipped', id, x);
      }
    }
  }

  // ---- selectBranches ----

  function HandleOf(c: Connection): string {
    if c.handle.Some? then c.handle.value else "__default__"
  }

  function FieldOf(v: Value, key: string): Value {
    if v.Record? then Lookup(v.fields, key).GetOr(Undefined) else Undefined
  }

  /** The handles whose branches run, given the handles present and the block's output. */
  function Taken(handles: set<string>, output: Value): set<string> {
    var success := if "success" in handles then {"success"} else {};
    var branch := FieldOf(output, "branch");
    var named := if branch.Text? && branch.s in handles then {branch.s} else {};
    var result := FieldOf(output, "result");
    var decided := if result.Boolean? then {if result.b then "true" else "false"} else {};
    var taken := success + named + decided;
    if taken == {} && "__default__" in handles then {"__default__"} else taken
  }

  ghost function Handles(node: Node): set<string> {
    set t | t in node.via :: HandleOf(node.via[t])
  }

  /** The targets a block's output cuts off: those on handles not taken, when there is more than one handle. */
  ghost function CutTargets(node: Node, output: Value): set<Id> {
    if |Handles(node)| <= 1 then {}
    else set t | t in node.via && HandleOf(node.via[t]) !in Taken(Handles(node), output)
  }

  // ---- which branches run, in terms of handles and output fields ----

  /** The output picks the handle: it is the success handle, the named branch, or the word for its boolean result. */
  predicate Picks(output: Value, handle: string) {
    || handle == "success"
    || FieldOf(output, "branch") == Text(handle)
    || (FieldOf(output, "result") == Boolean(true) && handle == "true")
    || (FieldOf(output, "result") == Boolean(false) && handle == "false")
  }

  /**
    * The target of a node with more than one handle is left out: its handle is not picked, and it is not on the default
    * handle while the output has no boolean result and picks no other handle that is there.
    */
  ghost predicate LeftOut(node: Node, output: Value, t: Id) {
    && t in node.via
    && (exists u, v :: u in node.via && v in node.via && HandleAt(node, u) != HandleAt(node, v))
    && !Picks(output, HandleAt(node, t))
    && !(HandleAt(node, t) == "__default__" && !FieldOf(output, "result").Boolean?
         && forall u :: u in node.via ==> !Picks(output, HandleAt(node, u)))
  }

  /** The handle of a target's connection; one without a handle is on the default handle. */
  function HandleAt(node: Node, t: Id): string
    requires t in node.via
  {
    match node.via[t].handle
    case Some(h) => h
    case None => "__default__"
  }

  lemma MoreThanOne(handles: set<string>, a: string, b: string)
    requires a in handles
    ensures a != b && b in handles ==> |handles| > 1
    ensures (forall h :: h in handles ==> h == a) ==> |handles| == 1
  {
    if a != b && b in handles {
      assert {a, b} <= handles;
      SubsetSize({a, b}, handles);
    }
    if forall h :: h in handles ==> h == a {
      assert handles == {a};
    }
  }

  lemma SubsetSize(a: set<string>, b: set<string>)
    requires a <= b
    ensures |a| <= |b|
  {
    assert b == a + (b - a);
  }

  lemma SeveralHandles(node: Node)
    ensures |Handles(node)| > 1 <==>
      exists u, v :: u in node.via && v in node.via && HandleAt(node, u) != HandleAt(node, v)
  {
    if u, v :| u in node.via && v in node.via && HandleAt(node, u) != HandleAt(node, v) {
      assert HandleOf(node.via[u]) in Handles(node) && HandleOf(node.via[v]) in Handles(node);
      MoreThanOne(Handles(node), HandleAt(node, u), HandleAt(node, v));
    } else if u :| u in node.via {
      assert HandleOf(node.via[u]) in Handles(node);
      forall h | h in Handles(node)
        ensures h == HandleAt(node, u)
      {
        var v :| v in node.via && HandleOf(node.via[v]) == h;
        assert HandleAt(node, v) == HandleAt(node, u);
      }
      MoreThanOne(Handles(node), HandleAt(node, u), HandleAt(node, u));
    } else {
      assert Handles(node) == {};
    }
  }

  /** A handle that is there is taken when it is picked, or as the default when nothing speaks for another. */
  lemma TakenMeans(handles: set<string>, output: Value, h: string)
    requires h in handles
    ensures h in Taken(handles, output) <==>
      || Picks(output, h)
      || (h == "__default__" && !FieldOf(output, "result").Boolean?
          && forall other :: other in handles ==> !Picks(output, other))
  {
  }

  lemma LeftOutExactly(node: Node, output: Value)
    ensures CutTargets(node, output) == set t | t in node.via && LeftOut(node, output, t)
  {
    SeveralHandles(node);
    forall t | t in node.via && |Handles(node)| > 1
      ensures t in CutTargets(node, output) <==> LeftOut(node, output, t)
    {
      assert HandleOf(node.via[t]) in Handles(node);
      TakenMeans(Handles(node), output, HandleOf(node.via[t]));
      NonePicked(node, output);
    }
  }

  lemma NonePicked(node: Node, output: Value)
    ensures (forall h :: h in Handles(node) ==> !Picks(output, h)) <==>
      forall u :: u in node.via ==> !Picks(output, HandleAt(node, u))
  {
    if forall h :: h in Handles(node) ==> !Picks(output, h) {
      forall u | u in node.via
        ensures !Picks(output, HandleAt(node, u))
      {
        assert HandleOf(node.via[u]) in Handles(node);
      }
    }
  }

  /** The targets on one handle, in order. */
  ghost function OnHandle(via: map<Id, Connection>, targets: seq<Id>, h: string): seq<Id>
    requires forall t :: t in targets ==> t in via
  {
    if targets == [] then []
    else
      var n := |targets| - 1;
      OnHandle(via, targets[..n], h) + if HandleOf(via[targets[n]]) == h then [targets[n]] else []
  }

  lemma {:induction false} OnHandleMeaning(via: map<Id, Connection>, targets: seq<Id>, h: string)
    requires forall t :: t in targets ==> t in via
    ensures forall t :: t in OnHandle(via, targets, h) <==> t in targets && HandleOf(via[t]) == h
  {
    if targets != [] {
      var n := |targets| - 1;
      OnHandleMeaning(via, targets[..n], h);
      assert targets == targets[..n] + [targets[n]];
    }
  }

  /** Groups the targets of a node by handle. */
  method Group(node: Node) returns (groups: map<string, seq<Id>>)
    requires OrderedKeys(node.targets, node.via)
    ensures forall h :: h in groups <==> OnHandle(node.via, node.targets, h) != []
    ensures forall h :: h in groups ==> groups[h] == OnHandle(node.via, node.targets, h)
  {
    groups := map[];
    for i := 0 to |node.targets|
      invariant forall h :: h in groups <==> OnHandle(node.via, node.targets[..i], h) != []
      invariant forall h :: h in groups ==> groups[h] == OnHandle(node.via, node.targets[..i], h)
    {
      var target := node.targets[i];
      assert node.targets[..i + 1][..i] == node.targets[..i];
      var handle := HandleOf(node.via[target]);
      groups := groups[handle := (if handle in groups then groups[handle] else []) + [target]];
    }
    assert node.targets[..|node.targets|] == node.targets;
  }

  lemma GroupKeys(node: Node, groups: map<string, seq<Id>>)
    requires OrderedKeys(node.targets, node.via)
    requires forall h :: h in groups <==> OnHandle(node.via, node.targets, h) != []
    ensures groups.Keys == Handles(node)
  {
    forall h
      ensures h in groups <==> h in Handles(node)
    {
      OnHandleMeaning(node.via, node.targets, h);
      if h in groups {
        var t := OnHandle(node.via, node.targets, h)[0];
        assert t in OnHandle(node.via, node.targets, h);
      }
      if h in Handles(node) {
        var t :| t in node.via && HandleOf(node.via[t]) == h;
        assert t in OnHandle(node.via, node.targets, h);
      }
    }
  }

  lemma DownstreamClosed(nodes: Nodes, e: Edges, skipped: set<Id>, roots: set<Id>)
    requires Tells(nodes, e) && Closed(e, skipped)
    ensures Closed(e, skipped + Downstream(e, nodes.Keys, roots))
  {
    forall a, b | (a, b) in e && a in Downstream(e, nodes.Keys, roots)
      ensures b in Downstream(e, nodes.Keys, roots)
    {
      var r :| r in roots && (r == a || Reaches(e, r, a));
      EdgeReaches(e, a, b);
      if r != a {
        ReachesTransitive(e, r, a, b);
      }
    }
  }

  /** Marking a second group of roots after a first one marks what is downstream of either. */
  lemma DownstreamAdds(e: Edges, nodes: set<Id>, a: set<Id>, b: set<Id>)
    ensures Downstream(e, nodes, a + b) == Downstream(e, nodes, a) + Downstream(e, nodes, b)
  {
  }

  /** Now holds what was skipped before and all that is downstream of the roots. */
  ghost predicate Cut(e: Edges, nodes: set<Id>, before: set<Id>, roots: set<Id>, now: set<Id>) {
    now <= nodes && Closed(e, now) && now == before + Downstream(e, nodes, roots)
  }

  lemma CutNothing(e: Edges, nodes: set<Id>, skipped: set<Id>)
    requires skipped <= nodes && Closed(e, skipped)
    ensures Cut(e, nodes, skipped, {}, skipped)
  {
  }

  lemma CutMore(e: Edges, nodes: set<Id>, before: set<Id>, roots: set<Id>, mid: set<Id>, more: set<Id>, now: set<Id>)
    requires Cut(e, nodes, before, roots, mid) && Cut(e, nodes, mid, more, now)
    ensures Cut(e, nodes, before, roots + more, now)
  {
  }

  /** From a closed set: marks exactly the node and what it leads to. */
  method MarkBranch(nodes: Nodes, ghost e: Edges, id: Id, skipped: set<Id>) returns (skipped': set<Id>)
    requires Tells(nodes, e) && id in nodes && skipped <= nodes.Keys && Closed(e, skipped)
    ensures Cut(e, nodes.Keys, skipped, {id}, skipped')
  {
    skipped' := MarkDownstreamSkipped(nodes, e, id, skipped);
    MarkedExactly(e, nodes.Keys, id, skipped, skipped');
  }

  method MarkAll(nodes: Nodes, ghost e: Edges, roots: seq<Id>, skipped: set<Id>) returns (skipped': set<Id>)
    requires Tells(nodes, e) && Elems(roots) <= nodes.Keys && skipped <= nodes.Keys && Closed(e, skipped)
    ensures skipped' <= nodes.Keys && Closed(e, skipped')
    ensures skipped' == skipped + Downstream(e, nodes.Keys, Elems(roots))
  {
    skipped' := skipped;
    assert Downstream(e, nodes.Keys, {}) == {};
    for i := 0 to |roots|
      invariant skipped' <= nodes.Keys && Closed(e, skipped')
      invariant skipped' == skipped + Downstream(e, nodes.Keys, Elems(roots[..i]))
    {
      assert roots[i] in Elems(roots);
      skipped' := MarkBranch(nodes, e, roots[i], skipped');
      assert Elems(roots[..i + 1]) == Elems(roots[..i]) + {roots[i]};
      DownstreamAdds(e, nodes.Keys, Elems(roots[..i]), {roots[i]});
    }
    assert roots[..|roots|] == roots;
  }

  /** The targets on the given handles. */
  ghost function OnHandles(via: map<Id, Connection>, handles: set<string>): set<Id> {
    set t | t in via && HandleOf(via[t]) in handles
  }

  lemma OneMoreHandle(via: map<Id, Connection>, targets: seq<Id>, handles: set<string>, h: string)
    requires OrderedKeys(targets, via)
    ensures OnHandles(via, handles + {h}) == OnHandles(via, handles) + Elems(OnHandle(via, targets, h))
  {
    OnHandleMeaning(via, targets, h);
  }

  /** Marks what hangs on each of the cut handles. */
  method MarkHandles(nodes: Nodes, ghost e: Edges, ghost id: Id, groups: map<string, seq<Id>>, cut: set<string>,
                     skipped: set<Id>)
    returns (skipped': set<Id>)
    requires Tells(nodes, e) && id in nodes && skipped <= nodes.Keys && Closed(e, skipped) && cut <= groups.Keys
    requires OrderedKeys(nodes[id].targets, nodes[id].via)
    requires forall h :: h in groups ==> groups[h] == OnHandle(nodes[id].via, nodes[id].targets, h)
    ensures skipped' <= nodes.Keys && Closed(e, skipped')
    ensures skipped' == skipped + Downstream(e, nodes.Keys, OnHandles(nodes[id].via, cut))
  {
    ghost var node := nodes[id];
    TargetsKnown(nodes, e, id);
    skipped' := skipped;
    var rest := cut;
    ghost var done: set<string> := {};
    assert Downstream(e, nodes.Keys, OnHandles(node.via, done)) == {};
    while rest != {}
      invariant rest <= cut && done + rest == cut
      invariant skipped' <= nodes.Keys && Closed(e, skipped')
      invariant skipped' == skipped + Downstream(e, nodes.Keys, OnHandles(node.via, done))
      decreases rest
    {
      var handle :| handle in rest;
      rest := rest - {handle};
      OnHandleMeaning(node.via, node.targets, handle);
      OneMoreHandle(node.via, node.targets, done, handle);
      DownstreamAdds(e, nodes.Keys, OnHandles(node.via, done), Elems(groups[handle]));
      skipped' := MarkAll(nodes, e, groups[handle], skipped');
      done := done + {handle};
    }
    assert done == cut;
  }

  /** Skips everything downstream of the branches that the output does not take. */
  method SelectBranches(nodes: Nodes, ghost e: Edges, id: Id, output: Value, skipped: set<Id>)
    returns (skipped': set<Id>)
    requires Tells(nodes, e) && id in nodes && skipped <= nodes.Keys && Closed(e, skipped)
    ensures skipped' <= nodes.Keys && Closed(e, skipped')
    ensures skipped' == skipped + Downstream(e, nodes.Keys, CutTargets(nodes[id], output))
    ensures
      skipped' == skipped + Downstream(e, nodes.Keys, set t | t in nodes[id].via && LeftOut(nodes[id], output, t))
  {
    LeftOutExactly(nodes[id], output);
    var groups := Group(nodes[id]);
    GroupKeys(nodes[id], groups);
    if |groups| <= 1 {
      assert Downstream(e, nodes.Keys, {}) == {};
      return skipped;
    }
    var cut := groups.Keys - Taken(groups.Keys, output);
    assert OnHandles(nodes[id].via, cut) == CutTargets(nodes[id], output);
    skipped' := MarkHandles(nodes, e, id, groups, cut, skipped);
  }

  lemma TargetsKnown(nodes: Nodes, e: Edges, id: Id)
    requires Tells(nodes, e) && id in nodes
    ensures forall t :: t in nodes[id].via ==> t in nodes && (id, t) in e
  {
  }
}
