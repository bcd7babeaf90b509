/** What one block does in the in-memory executor, in terms of its tool and of what was executed before. */
module MemoryMeaning {
  import opened Graphs
  import opened Workflows
  import opened References
  import opened Dag
  import opened Branches
  import opened Walk
  import opened WalkProofs
  import opened WalkMeaning
  import opened Resumption
  import opened MemoryExecutor

  /** The block's tool may be called and is known, and this is what it does for the block. */
  ghost predicate ToolDoes(c: Config, tools: Tools, block: Block, seen: map<Id, Value>, r: StepResult) {
    && block.kind in c.reg && !c.reg[block.kind].kind.Trigger?
    && exists params ::
         && IsParams(c, block, seen, params) && tools.toolOf(block.kind, params) in c.reg[block.kind].access
         && tools.toolOf(block.kind, params) in tools.known
         && r == tools.execute(block.id, tools.toolOf(block.kind, params), tools.toolParams(block.kind, params))
  }

  /** The block cannot run at all: its kind is not registered, or its tool may not be called or is not known. */
  ghost predicate Refused(c: Config, tools: Tools, block: Block, seen: map<Id, Value>) {
    || block.kind !in c.reg
    || (!c.reg[block.kind].kind.Trigger? && exists params ::
          && IsParams(c, block, seen, params)
          && !(tools.toolOf(block.kind, params) in c.reg[block.kind].access
               && tools.toolOf(block.kind, params) in tools.known))
  }

  predicate Pauses(r: StepResult) {
    r.Returned? && FieldOf(r.value, "__paused") == Boolean(true)
  }

  /** One of the node's targets is on the error handle. */
  ghost predicate HasErrorBranch(node: Node) {
    exists t :: t in node.via && node.via[t].handle == Some("error")
  }

  /** The block's output is recorded, and what it leaves out is dropped. */
  ghost predicate Records(nodes: Nodes, e: Edges, s: Exec, id: Id, v: Value, s': Exec)
    requires s.Running? && id in nodes
  {
    s' == Running(s.outputs[id := v],
                  s.skipped + Downstream(e, nodes.Keys, set t | t in nodes[id].via && LeftOut(nodes[id], v, t)))
  }

  /** A block that has no output, is not skipped and is part of the workflow. */
  ghost predicate ToRun(c: Config, nodes: Nodes, s: Exec, id: Id) {
    s.Running? && id in nodes && id !in s.outputs && id !in s.skipped && ById(c.wf.blocks, id).Some?
  }

  /**
    * What a block that is to run leaves: a trigger its payload; a tool its value, or the pause it asks for, or, when it
    * throws, the error branch alone or the end of the run; a block that is refused ends it too.
    */
  ghost predicate Leaves(c: Config, tools: Tools, nodes: Nodes, e: Edges, s: Exec, id: Id, s': Exec)
    requires ToRun(c, nodes, s, id)
  {
    var block := ById(c.wf.blocks, id).value;
    || (block.kind in c.reg && c.reg[block.kind].kind.Trigger? && s' == Running(s.outputs[id := c.trigger], s.skipped))
    || (Refused(c, tools, block, s.outputs) && s'.Stopped? && s'.outputs == s.outputs)
    || exists r :: ToolDoes(c, tools, block, s.outputs, r) && ToolLeaves(nodes, e, s, id, r, s')
  }

  ghost predicate ToolLeaves(nodes: Nodes, e: Edges, s: Exec, id: Id, r: StepResult, s': Exec)
    requires s.Running? && id in nodes
  {
    match r
    case Returned(v) => if Pauses(r) then s' == Paused(id, s.outputs) else Records(nodes, e, s, id, v, s')
    case Threw(m) =>
      if HasErrorBranch(nodes[id]) then
        s' == Running(s.outputs, s.skipped + Downstream(e, nodes.Keys, NotOnError(nodes[id])))
      else s' == Stopped(m, s.outputs)
  }

  ghost function NotOnError(node: Node): set<Id> {
    set t | t in node.via && node.via[t].handle != Some("error")
  }

  lemma ToolMeans(nodes: Nodes, e: Edges, s: Exec, id: Id, r: StepResult)
    requires s.Running? && id in nodes
    ensures ToolLeaves(nodes, e, s, id, r, AfterTool(nodes, e, s, id, r))
  {
    assert OtherTargets(nodes[id], "error") == NotOnError(nodes[id]);
    if HasErrorBranch(nodes[id]) {
      var t :| t in nodes[id].via && nodes[id].via[t].handle == Some("error");
      assert HandleOf(nodes[id].via[t]) == "error";
    }
    if r.Returned? {
      LeftOutExactly(nodes[id], r.value);
    }
  }

  lemma TurnMeans(c: Config, tools: Tools, nodes: Nodes, e: Edges, s: Exec, id: Id)
    requires ToRun(c, nodes, s, id)
    ensures Leaves(c, tools, nodes, e, s, id, Turn(c, tools, nodes, e, s, id))
  {
    var block := ById(c.wf.blocks, id).value;
    ByIdFinds(c.wf.blocks, id);
    if block.kind in c.reg && !c.reg[block.kind].kind.Trigger? {
      var params := ParamsOf(c, block, s.outputs);
      var r := tools.execute(id, tools.toolOf(block.kind, params), tools.toolParams(block.kind, params));
      ToolMeans(nodes, e, s, id, r);
      if Chosen(tools, c.reg[block.kind], block, params).Returned? {
        assert ToolDoes(c, tools, block, s.outputs, r);
      }
    }
  }

  /** What a run in memory may do at each block of the order, from its seed on. */
  ghost predicate Steps(c: Config, tools: Tools, nodes: Nodes, e: Edges, order: seq<Id>, seed: map<Id, Value>,
                        on: seq<Exec>)
  {
    && |on| == |order| + 1 && on[0] == Running(seed, {})
    && forall k :: 0 <= k < |order| ==>
         if ToRun(c, nodes, on[k], order[k]) then Leaves(c, tools, nodes, e, on[k], order[k], on[k + 1])
         else on[k + 1] == on[k]
  }

  lemma {:induction false} ExecutionSteps(c: Config, tools: Tools, nodes: Nodes, e: Edges, order: seq<Id>,
                                          seed: map<Id, Value>, k: nat) returns (on: seq<Exec>)
    requires k <= |order|
    ensures Steps(c, tools, nodes, e, order[..k], seed, on)
    ensures on[k] == ExecAt(TurnOf(c, tools, nodes, e), order, seed, k)
  {
    if k == 0 {
      on := [Running(seed, {})];
    } else {
      on := ExecutionSteps(c, tools, nodes, e, order, seed, k - 1);
      var next := Turn(c, tools, nodes, e, on[k - 1], order[k - 1]);
      if ToRun(c, nodes, on[k - 1], order[k - 1]) {
        TurnMeans(c, tools, nodes, e, on[k - 1], order[k - 1]);
      }
      OneMoreStep(c, tools, nodes, e, order[..k], seed, on, next);
      on := on + [next];
    }
  }

  lemma OneMoreStep(c: Config, tools: Tools, nodes: Nodes, e: Edges, order: seq<Id>, seed: map<Id, Value>,
                    on: seq<Exec>, next: Exec)
    requires order != [] && Steps(c, tools, nodes, e, order[..|order| - 1], seed, on)
    requires
      var last := on[|order| - 1];
      if ToRun(c, nodes, last, order[|order| - 1]) then Leaves(c, tools, nodes, e, last, order[|order| - 1], next)
      else next == last
    ensures Steps(c, tools, nodes, e, order, seed, on + [next])
  {
    var on' := on + [next];
    forall k | 0 <= k < |order|
      ensures
        if ToRun(c, nodes, on'[k], order[k]) then Leaves(c, tools, nodes, e, on'[k], order[k], on'[k + 1])
        else on'[k + 1] == on'[k]
    {
      assert k < |order| - 1 ==> order[..|order| - 1][k] == order[k];
    }
  }

  /** An execution in memory is a sequence of such steps over the sorted blocks, and ends where they end. */
  lemma ExecutionExplained(c: Config, tools: Tools, seed: map<Id, Value>)
    requires Acyclic(EnabledEdges(c.wf))
    ensures
      var nodes, order := GraphOf(c.wf).nodes, OrderOf(GraphOf(c.wf));
      exists on ::
        && Steps(c, tools, nodes, EnabledEdges(c.wf), order, seed, on)
        && ExecutionOf(c, tools, seed) == Ended(on[|order|])
  {
    var nodes, e, order := GraphOf(c.wf).nodes, EnabledEdges(c.wf), OrderOf(GraphOf(c.wf));
    var on := ExecutionSteps(c, tools, nodes, e, order, seed, |order|);
    assert order[..|order|] == order;
  }
}
