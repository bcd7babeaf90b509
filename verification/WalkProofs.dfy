/** Branch skipping over a whole walk, and references that never dangle. */
module WalkProofs {
  import opened Graphs
  import opened Workflows
  import opened Resolver
  import opened References
  import opened Dag
  import opened Branches
  import opened Walk
  import Edit
  import EditProofs

  /** A graph with a topological order of all its nodes. */
  ghost predicate Sorted(nodes: Nodes, e: Edges, order: seq<Id>) {
    Tells(nodes, e) && Topological(e, order) && Elems(order) == nodes.Keys
  }

  /** The graph and the order of a walk. */
  lemma WalkIsSorted(wf: Workflow)
    requires Acyclic(EnabledEdges(wf))
    ensures Sorted(GraphOf(wf).nodes, EnabledEdges(wf), OrderOf(GraphOf(wf)))
    ensures GraphOf(wf).nodes.Keys == EnabledIds(wf.blocks)
    ensures CarriesLast(GraphOf(wf).nodes, wf.conns)
  {
    GraphIsBuilt(wf);
    OrderIsTopological(GraphOf(wf), EnabledEdges(wf));
  }

  /** After k blocks: exactly the earlier blocks that were not skipped have an output. */
  ghost predicate Tracked(order: seq<Id>, k: nat, outputs: map<Id, Value>, skipped: set<Id>)
    requires k <= |order|
  {
    && (forall i :: 0 <= i < k ==> (order[i] in outputs <==> order[i] !in skipped))
    && (forall id :: id in outputs ==> exists i :: 0 <= i < k && order[i] == id)
  }

  // ---- branch skipping ----

  /** Whatever a block cuts lies strictly later in the order, so nothing that ran is marked. */
  lemma CutsLater(nodes: Nodes, e: Edges, order: seq<Id>, k: nat, v: Value, x: Id)
    requires Sorted(nodes, e, order) && k < |order| && order[k] in nodes
    requires x in Downstream(e, nodes.Keys, CutTargets(nodes[order[k]], v))
    ensures forall i :: 0 <= i <= k ==> order[i] != x
  {
    var id := order[k];
    var t :| t in CutTargets(nodes[id], v) && (t == x || Reaches(e, t, x));
    assert t in nodes[id].via && (id, t) in e;
    EdgeReaches(e, id, t);
    if t != x {
      ReachesTransitive(e, id, t, x);
    }
    forall i | 0 <= i <= k
      ensures order[i] != x
    {
      if order[i] == x {
        assert forall a, b :: (a, b) in e ==> a in Elems(order) && b in Elems(order);
        TopologicalReaches(e, order, k, i);
      }
    }
  }

  /** A block that records its output keeps the skipped set closed and disjoint from what ran. */
  lemma RecordedKeeps(nodes: Nodes, e: Edges, order: seq<Id>, k: nat, s: State, branches: bool, r: StepResult)
    requires Sorted(nodes, e, order) && k < |order| && order[k] in nodes
    requires s.Going? && Closed(e, s.skipped) && Tracked(order, k, s.outputs, s.skipped) && order[k] !in s.skipped
    ensures
      var s' := Recorded(nodes, e, s, order[k], branches, r);
      s'.Going? ==> Closed(e, s'.skipped) && Tracked(order, k + 1, s'.outputs, s'.skipped)
  {
    if r.Returned? && branches {
      var cut := Downstream(e, nodes.Keys, CutTargets(nodes[order[k]], r.value));
      DownstreamClosed(nodes, e, s.skipped, CutTargets(nodes[order[k]], r.value));
      forall x | x in cut
        ensures forall i :: 0 <= i <= k ==> order[i] != x
      {
        CutsLater(nodes, e, order, k, r.value, x);
      }
    }
  }

  lemma SkippedKeeps(order: seq<Id>, k: nat, outputs: map<Id, Value>, skipped: set<Id>)
    requires Distinct(order) && k < |order| && Tracked(order, k, outputs, skipped)
    ensures order[k] in skipped ==> Tracked(order, k + 1, outputs, skipped)
  {
  }

  lemma VisitKeeps(c: Config, host: Host, nodes: Nodes, e: Edges, order: seq<Id>, k: nat, s: State)
    requires Sorted(nodes, e, order) && k < |order| && order[k] in nodes && nodes.Keys == EnabledIds(c.wf.blocks)
    requires s.Going? && Closed(e, s.skipped) && Tracked(order, k, s.outputs, s.skipped)
    ensures
      var s' := Visited(c, host, nodes, e, s, order[k]);
      s'.Going? ==> Closed(e, s'.skipped) && Tracked(order, k + 1, s'.outputs, s'.skipped)
  {
    var id := order[k];
    ByIdFinds(c.wf.blocks, id);
    var block := ById(c.wf.blocks, id).value;
    if id in s.skipped {
      SkippedKeeps(order, k, s.outputs, s.skipped);
    } else if block.kind in c.reg {
      var def := c.reg[block.kind];
      var params := ResolveValue(Fields(block.params), ContextOf(c, s.outputs)).value;
      match def.kind {
        case Trigger => RecordedKeeps(nodes, e, order, k, s, false, Returned(c.trigger));
        case Wait => RecordedKeeps(nodes, e, order, k, s, false, RunWait(c, host, block, params));
        case Compute => RecordedKeeps(nodes, e, order, k, s, true, RunCompute(host, def, block, params));
      }
    }
  }

  /** The skipped set is closed under successors, and of the passed blocks exactly those outside it have outputs. */
  ghost predicate OnTrack(e: Edges, order: seq<Id>, k: nat, s: State)
    requires k <= |order|
  {
    s.Going? ==> Closed(e, s.skipped) && Tracked(order, k, s.outputs, s.skipped)
  }

  lemma StaysOnTrack(c: Config, host: Host, nodes: Nodes, e: Edges, order: seq<Id>, k: nat, s: State, s': State)
    requires Sorted(nodes, e, order) && k < |order| && order[k] in nodes && nodes.Keys == EnabledIds(c.wf.blocks)
    requires OnTrack(e, order, k, s) && s' == if s.Going? then Visited(c, host, nodes, e, s, order[k]) else s
    ensures OnTrack(e, order, k + 1, s')
  {
    if s.Going? {
      VisitKeeps(c, host, nodes, e, order, k, s);
    }
  }

  /**
    * Throughout the walk the skipped set is closed under successors, and the blocks with an output
    * are exactly those already passed and not skipped: no block that ran is ever marked.
    */
  lemma {:induction false} WalkTracks(c: Config, host: Host, nodes: Nodes, e: Edges, order: seq<Id>, k: nat)
    requires Sorted(nodes, e, order) && k <= |order| && nodes.Keys == EnabledIds(c.wf.blocks)
    ensures OnTrack(e, order, k, StateAt(c, host, nodes, e, order, k))
  {
    if k > 0 {
      WalkTracks(c, host, nodes, e, order, k - 1);
      NextOnTrack(c, host, nodes, e, order, k - 1, StateAt(c, host, nodes, e, order, k - 1));
    }
  }

  lemma NextOnTrack(c: Config, host: Host, nodes: Nodes, e: Edges, order: seq<Id>, k: nat, s: State)
    requires Sorted(nodes, e, order) && k < |order| && nodes.Keys == EnabledIds(c.wf.blocks)
    requires s == StateAt(c, host, nodes, e, order, k) && OnTrack(e, order, k, s)
    ensures OnTrack(e, order, k + 1, StateAt(c, host, nodes, e, order, k + 1))
  {
    StateStep(c, host, nodes, e, order, k);
    StaysOnTrack(c, host, nodes, e, order, k, s, StateAt(c, host, nodes, e, order, k + 1));
  }

  lemma StateStep(c: Config, host: Host, nodes: Nodes, e: Edges, order: seq<Id>, k: nat)
    requires k < |order| && Elems(order) <= nodes.Keys
    ensures order[k] in nodes
    ensures
      var s := StateAt(c, host, nodes, e, order, k);
      StateAt(c, host, nodes, e, order, k + 1) == if s.Going? then Visited(c, host, nodes, e, s, order[k]) else s
  {
  }

  lemma {:induction false} ByIdFinds(blocks: seq<Block>, id: Id)
    ensures ById(blocks, id).Some? <==> id in Ids(blocks)
    ensures ById(blocks, id).Some? ==> ById(blocks, id).value in blocks && ById(blocks, id).value.id == id
  {
    if blocks != [] {
      var n := |blocks| - 1;
      ByIdFinds(blocks[..n], id);
      assert blocks == blocks[..n] + [blocks[n]];
    }
  }

  /** Every block about to run has all its transitive predecessors run already. */
  lemma PredecessorsRan(c: Config, host: Host, nodes: Nodes, e: Edges, order: seq<Id>, k: nat, u: Id)
    requires Sorted(nodes, e, order) && k < |order| && nodes.Keys == EnabledIds(c.wf.blocks)
    requires StateAt(c, host, nodes, e, order, k).Going? && order[k] !in StateAt(c, host, nodes, e, order, k).skipped
    requires Reaches(e, u, order[k])
    ensures u in StateAt(c, host, nodes, e, order, k).outputs
  {
    var s := StateAt(c, host, nodes, e, order, k);
    WalkTracks(c, host, nodes, e, order, k);
    var m := FirstStep(e, u, order[k]);
    assert u in Elems(order);
    var i :| 0 <= i < |order| && order[i] == u;
    assert forall a, b :: (a, b) in e ==> a in Elems(order) && b in Elems(order);
    TopologicalReaches(e, order, i, k);
    if u in s.skipped {
      ClosedReaches(e, s.skipped, u, order[k]);
    }
  }

  // ---- references never dangle ----

  /** With every block enabled and every endpoint known, the validator's graph is the graph that runs. */
  lemma SameGraph(wf: Workflow)
    requires EditProofs.AllEnabled(wf) && EditProofs.EndpointsExist(wf)
    ensures ReferenceEdges(Ids(wf.blocks), wf.conns) == EnabledEdges(wf) && EnabledIds(wf.blocks) == Ids(wf.blocks)
  {
    var ids := Ids(wf.blocks);
    assert EnabledIds(wf.blocks) == ids;
    forall p: (Id, Id)
      ensures p in ReferenceEdges(ids, wf.conns) <==> p in EnabledEdges(wf)
    {
      EdgesAmongMeaning(ids, wf.conns, p.0, p.1);
    }
  }

  /** Every validated reference of a block about to run means a block that has its output already. */
  lemma ValidatedTargetRan(c: Config, host: Host, nodes: Nodes, order: seq<Id>, k: nat, ref: Ref)
    requires EditProofs.Sound(c.wf) && EditProofs.AllEnabled(c.wf) && BlockErrors(c.wf, c.reg, c.wf.blocks) == []
    requires Sorted(nodes, EnabledEdges(c.wf), order) && nodes.Keys == EnabledIds(c.wf.blocks) && k < |order|
    requires
      var s := StateAt(c, host, nodes, EnabledEdges(c.wf), order, k);
      s.Going? && order[k] !in s.skipped
    requires order[k] in Ids(c.wf.blocks) && ById(c.wf.blocks, order[k]).Some?
    requires ref in Refs(Fields(ById(c.wf.blocks, order[k]).value.params)) && !IsAmbient(ref)
    ensures TargetAtValidation(c.wf.blocks, ref).Some?
    ensures
      var s := StateAt(c, host, nodes, EnabledEdges(c.wf), order, k);
      TargetAtValidation(c.wf.blocks, ref).value.id in s.outputs
  {
    var block := ById(c.wf.blocks, order[k]).value;
    ByIdFinds(c.wf.blocks, order[k]);
    NoBlockErrors(c.wf, c.reg, c.wf.blocks);
    assert Passes(c.wf, c.reg, block);
    assert RefError(c.wf, c.reg, block, ref).None?;
    SameGraph(c.wf);
    PredecessorsRan(c, host, nodes, EnabledEdges(c.wf), order, k, TargetAtValidation(c.wf.blocks, ref).value.id);
  }

  /**
    * A workflow edited from nothing whose last validation reports no error: whatever the tools and waits
    * return, each block that runs finds an output recorded for every block its parameters refer to,
    * and what it looks up are exactly the references the validator checked.
    */
  lemma ReferencesNeverDangle(ops: seq<Edit.EditOp>, tools: ToolRegistry, c: Config, host: Host, nodes: Nodes,
                              order: seq<Id>, k: nat)
    requires c.wf == Edit.Run(Edit.Batch(Workflow([], [], c.wf.variables), [], []), ops, c.reg, tools).wf
    requires Edit.FinalErrors(c.wf, c.reg) == []
    requires Sorted(nodes, EnabledEdges(c.wf), order) && nodes.Keys == EnabledIds(c.wf.blocks) && k < |order|
    requires
      var s := StateAt(c, host, nodes, EnabledEdges(c.wf), order, k);
      s.Going? && order[k] !in s.skipped
    ensures ById(c.wf.blocks, order[k]).Some?
    ensures
      var s := StateAt(c, host, nodes, EnabledEdges(c.wf), order, k);
      var params := Fields(ById(c.wf.blocks, order[k]).value.params);
      var looked := ResolveValue(params, ContextOf(c, s.outputs)).looked;
      && looked == Refs(params)
      && forall ref :: ref in looked && !IsAmbient(ref) ==>
           var target := TargetAtValidation(c.wf.blocks, ref);
           target.Some? && target.value.id in s.outputs
  {
    var start := Edit.Batch(Workflow([], [], c.wf.variables), [], []);
    EmptyIsSound(c.wf.variables);
    EditProofs.RunKeepsSound(start, ops, c.reg, tools);
    EditProofs.RunKeepsEnabledAndExposed(start, ops, c.reg, tools);
    SameGraph(c.wf);
    assert order[k] in Elems(order);
    ByIdFinds(c.wf.blocks, order[k]);
    var s := StateAt(c, host, nodes, EnabledEdges(c.wf), order, k);
    var params := Fields(ById(c.wf.blocks, order[k]).value.params);
    LooksUpExtractedRefs(params, ContextOf(c, s.outputs));
    forall ref | ref in Refs(params) && !IsAmbient(ref)
      ensures
        var target := TargetAtValidation(c.wf.blocks, ref);
        target.Some? && target.value.id in s.outputs
    {
      ValidatedTargetRan(c, host, nodes, order, k, ref);
    }
  }

  lemma EmptyIsSound(variables: Value)
    ensures EditProofs.Sound(Workflow([], [], variables))
  {
    forall v
      ensures !Reaches({}, v, v)
    {
      if Reaches({}, v, v) {
        var m := FirstStep({}, v, v);
      }
    }
  }

  // ---- names ----

  /**
    * At run time a validated reference finds the block that was validated exactly when it names it by an id
    * whose output is set, or the run-time name table maps its head to that block.
    */
  lemma ResolvesAsValidated(wf: Workflow, ctx: Context, ref: Ref)
    requires ctx.outputs.Keys <= Ids(wf.blocks) && TargetAtValidation(wf.blocks, ref).Some?
    ensures
      var target := TargetAtValidation(wf.blocks, ref).value.id;
      TargetAtRunTime(ref, ctx) == Some(target) <==>
        || (target == ref.head && Output(ctx, target) != Undefined)
        || (ref.head in ctx.idsByName && ctx.idsByName[ref.head] == target && target != "")
  {
    ByIdFinds(wf.blocks, ref.head);
    ByNameFinds(wf.blocks, ref.head);
  }

  lemma {:induction false} ByNameFinds(blocks: seq<Block>, name: string)
    ensures ByName(blocks, name).Some? ==>
      ByName(blocks, name).value in blocks && ByName(blocks, name).value.name == Some(name)
  {
    if blocks != [] {
      ByNameFinds(blocks[..|blocks| - 1], name);
      assert blocks == blocks[..|blocks| - 1] + [blocks[|blocks| - 1]];
    }
  }

  /** The slug of a later block's name hides an earlier block's own name from the walker, not from the validator. */
  lemma SlugHidesName(slug: string -> string, a: Block, b: Block)
    requires a.id != b.id && a.name == Some("x y") && b.name == Some("x_y") && slug("x y") == "x_y"
    requires slug("x_y") == "x_y"
    ensures ByName([b, a], "x_y") == Some(b)
    ensures IdsByName([b, a], slug)["x_y"] == a.id
  {
  }

  // ---- durable step names ----

  lemma StepNameIsOneToOne(a: Id, s: string, b: Id, t: string)
    requires s in {"run", "sleep", "wait"} && t in {"run", "sleep", "wait"} && StepName(a, s) == StepName(b, t)
    ensures a == b && s == t
  {
    var x, y := StepName(a, s), StepName(b, t);
    assert x[|x| - 1] == s[|s| - 1] && y[|y| - 1] == t[|t| - 1];
    assert x[6..|x| - |s| - 1] == a;
    assert y[6..|y| - |t| - 1] == b;
  }
}
