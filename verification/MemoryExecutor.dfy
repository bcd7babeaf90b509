/** The in-memory executor that stops at a wait block and starts over from its outputs (executor/executor.memory.ts). */
module MemoryExecutor {
  import opened Graphs
  import opened Workflows
  import opened Resolver
  import opened References
  import opened Dag
  import opened Branches
  import opened Walk
  import opened Resumption

  /** Tool choice and tools, given the block they run for. */
  datatype Tools = Tools(
    toolOf: (string, Value) -> string,
    toolParams: (string, Value) -> Value,
    known: set<string>,
    execute: (Id, string, Value) -> StepResult)

  // ---- takeBranch ----

  ghost function OtherTargets(node: Node, handle: string): set<Id> {
    set t | t in node.via && HandleOf(node.via[t]) != handle
  }

  predicate HasHandle(node: Node, handle: string) {
    exists t :: t in node.via && HandleOf(node.via[t]) == handle
  }

  /** Keeps only the branches on one handle and tells whether there is one. */
  method TakeBranch(nodes: Nodes, ghost e: Edges, id: Id, handle: string, skipped: set<Id>)
    returns (any: bool, skipped': set<Id>)
    requires Tells(nodes, e) && id in nodes && skipped <= nodes.Keys && Closed(e, skipped)
    ensures any <==> HasHandle(nodes[id], handle)
    ensures Cut(e, nodes.Keys, skipped, OtherTargets(nodes[id], handle), skipped')
  {
    var node := nodes[id];
    assert OrderedKeys(node.targets, node.via);
    TargetsKnown(nodes, e, id);
    any, skipped' := false, skipped;
    CutNothing(e, nodes.Keys, skipped);
    for i := 0 to |node.targets|
      invariant Cut(e, nodes.Keys, skipped, OthersAmong(node, handle, i), skipped')
      invariant any <==> HasAmong(node, handle, i)
    {
      any, skipped' := TakeTarget(nodes, e, id, handle, i, any, skipped, skipped');
    }
    AllTargets(node, handle);
  }

  /** One target: on the handle it is kept, otherwise it and what it leads to is skipped. */
  method TakeTarget(nodes: Nodes, ghost e: Edges, id: Id, handle: string, i: nat, any: bool, ghost before: set<Id>,
                    skipped: set<Id>)
    returns (any': bool, skipped': set<Id>)
    requires Tells(nodes, e) && id in nodes && i < |nodes[id].targets| && OrderedKeys(nodes[id].targets, nodes[id].via)
    requires Cut(e, nodes.Keys, before, OthersAmong(nodes[id], handle, i), skipped)
    requires (any <==> HasAmong(nodes[id], handle, i))
    ensures Cut(e, nodes.Keys, before, OthersAmong(nodes[id], handle, i + 1), skipped')
    ensures (any' <==> HasAmong(nodes[id], handle, i + 1))
  {
    var target := nodes[id].targets[i];
    OneMoreTarget(nodes[id], handle, i);
    any', skipped' := any, skipped;
    if HandleOf(nodes[id].via[target]) == handle {
      any' := true;
    } else {
      TargetsKnown(nodes, e, id);
      skipped' := MarkBranch(nodes, e, target, skipped);
      CutMore(e, nodes.Keys, before, OthersAmong(nodes[id], handle, i), skipped, {target}, skipped');
    }
  }

  /** Those of the first n targets that hang on another handle. */
  ghost function OthersAmong(node: Node, handle: string, n: nat): set<Id>
    requires n <= |node.targets| && OrderedKeys(node.targets, node.via)
  {
    set t | t in node.targets[..n] && HandleOf(node.via[t]) != handle
  }

  /** Whether one of the first n targets hangs on the handle. */
  ghost predicate HasAmong(node: Node, handle: string, n: nat)
    requires n <= |node.targets| && OrderedKeys(node.targets, node.via)
  {
    exists k :: 0 <= k < n && HandleOf(node.via[node.targets[k]]) == handle
  }

  lemma AllTargets(node: Node, handle: string)
    requires OrderedKeys(node.targets, node.via)
    ensures OthersAmong(node, handle, |node.targets|) == OtherTargets(node, handle)
    ensures HasAmong(node, handle, |node.targets|) <==> HasHandle(node, handle)
  {
  }

  lemma OneMoreTarget(node: Node, handle: string, n: nat)
    requires n < |node.targets| && OrderedKeys(node.targets, node.via)
    ensures
      var t := node.targets[n];
      && OthersAmong(node, handle, n + 1)
        == OthersAmong(node, handle, n) + (if HandleOf(node.via[t]) != handle then {t} else {})
      && (HasAmong(node, handle, n + 1) <==> HasAmong(node, handle, n) || HandleOf(node.via[t]) == handle)
  {
  }

  // ---- execute ----

  function Chosen(tools: Tools, def: BlockDef, block: Block, params: Value): StepResult {
    var toolId := tools.toolOf(block.kind, params);
    if toolId !in def.access then Threw("Block " + block.kind + " not allowed to call tool " + toolId)
    else if toolId !in tools.known then Threw("Tool not found: " + toolId)
    else Returned(Text(toolId))
  }

  ghost function AfterTool(nodes: Nodes, e: Edges, s: Exec, id: Id, r: StepResult): Exec
    requires s.Running? && id in nodes
  {
    match r
    case Threw(m) =>
      if HasHandle(nodes[id], "error") then
        Running(s.outputs, s.skipped + Downstream(e, nodes.Keys, OtherTargets(nodes[id], "error")))
      else Stopped(m, s.outputs)
    case Returned(v) =>
      if IsPause(v) then Paused(id, s.outputs)
      else Running(s.outputs[id := v], s.skipped + Downstream(e, nodes.Keys, CutTargets(nodes[id], v)))
  }

  /** One turn of the loop; a run that has ended stays as it is. */
  ghost function Turn(c: Config, tools: Tools, nodes: Nodes, e: Edges, s: Exec, id: Id): Exec {
    if !s.Running? || id !in nodes || id in s.outputs || id in s.skipped then s
    else
      match ById(c.wf.blocks, id)
      case None => s
      case Some(block) =>
        if block.kind !in c.reg then Stopped("Unknown block type: " + block.kind, s.outputs)
        else
          var def := c.reg[block.kind];
          if def.kind.Trigger? then Running(s.outputs[id := c.trigger], s.skipped)
          else
            var params := ResolveValue(Fields(block.params), ContextOf(c, s.outputs)).value;
            match Chosen(tools, def, block, params)
            case Threw(m) => Stopped(m, s.outputs)
            case Returned(_) =>
              AfterTool(nodes, e, s, id,
                        tools.execute(id, tools.toolOf(block.kind, params), tools.toolParams(block.kind, params)))
  }

  ghost function TurnOf(c: Config, tools: Tools, nodes: Nodes, e: Edges): TurnFn {
    (s: Exec, id: Id) => Turn(c, tools, nodes, e, s, id)
  }

  method ExecuteBlock(c: Config, tools: Tools, nodes: Nodes, ghost e: Edges, idsByName: map<string, Id>, s: Exec,
                      id: Id) returns (s': Exec)
    requires Tells(nodes, e) && id in nodes && idsByName == IdsByName(c.wf.blocks, c.slug)
    requires s.Running? && s.skipped <= nodes.Keys && Closed(e, s.skipped)
    ensures s' == Turn(c, tools, nodes, e, s, id)
    ensures s'.Running? ==> s'.skipped <= nodes.Keys && Closed(e, s'.skipped)
  {
    if id in s.outputs || id in s.skipped {
      return s;
    }
    var found := ById(c.wf.blocks, id);
    if found.None? {
      return s;
    }
    var block := found.value;
    if block.kind !in c.reg {
      return Stopped("Unknown block type: " + block.kind, s.outputs);
    }
    var def := c.reg[block.kind];
    if def.kind.Trigger? {
      return Running(s.outputs[id := c.trigger], s.skipped);
    }
    var ctx := Context(s.outputs, c.trigger, c.env, if c.wf.variables == Undefined then Record([]) else c.wf.variables,
                       idsByName, c.stringify);
    var params := ResolveValue(Fields(block.params), ctx).value;
    var chosen := Chosen(tools, def, block, params);
    if chosen.Threw? {
      return Stopped(chosen.message, s.outputs);
    }
    var r := tools.execute(id, tools.toolOf(block.kind, params), tools.toolParams(block.kind, params));
    s' := FinishBlock(nodes, e, s, id, r);
  }

  method FinishBlock(nodes: Nodes, ghost e: Edges, s: Exec, id: Id, r: StepResult) returns (s': Exec)
    requires Tells(nodes, e) && id in nodes && s.Running? && s.skipped <= nodes.Keys && Closed(e, s.skipped)
    ensures s' == AfterTool(nodes, e, s, id, r)
    ensures s'.Running? ==> s'.skipped <= nodes.Keys && Closed(e, s'.skipped)
  {
    if r.Threw? {
      var any, rest := TakeBranch(nodes, e, id, "error", s.skipped);
      if !any {
        return Stopped(r.message, s.outputs);
      }
      return Running(s.outputs, rest);
    }
    if IsPause(r.value) {
      return Paused(id, s.outputs);
    }
    var skipped := SelectBranches(nodes, e, id, r.value, s.skipped);
    s' := Running(s.outputs[id := r.value], skipped);
  }

  /** A cycle is thrown before anything runs. */
  datatype Executed = CycleFound | Ended(exec: Exec)

  /** What running the sorted blocks of the workflow from seed outputs gives. */
  ghost function ExecutionOf(c: Config, tools: Tools, seed: map<Id, Value>): Executed {
    if !Acyclic(EnabledEdges(c.wf)) then CycleFound
    else
      var order := OrderOf(GraphOf(c.wf));
      Ended(ExecAt(TurnOf(c, tools, GraphOf(c.wf).nodes, EnabledEdges(c.wf)), order, seed, |order|))
  }

  /** Builds and sorts the graph and runs its blocks; it starts with nothing skipped. */
  method Execute(c: Config, tools: Tools, seed: map<Id, Value>) returns (r: Executed)
    ensures r == ExecutionOf(c, tools, seed)
  {
    var built := BuildDag(c.wf);
    if built.CycleError? {
      return CycleFound;
    }
    var sorted := TopoSort(built.dag, EnabledEdges(c.wf));
    var exec := ExecuteOrder(c, tools, built.dag.nodes, EnabledEdges(c.wf), sorted.value, seed);
    r := Ended(exec);
  }

  /** The loop over the sorted blocks. */
  method ExecuteOrder(c: Config, tools: Tools, nodes: Nodes, ghost e: Edges, order: seq<Id>, seed: map<Id, Value>)
    returns (r: Exec)
    requires Tells(nodes, e) && Elems(order) <= nodes.Keys
    ensures r == ExecAt(TurnOf(c, tools, nodes, e), order, seed, |order|)
  {
    var idsByName := IdsByName(c.wf.blocks, c.slug);
    r := Running(seed, {});
    for k := 0 to |order|
      invariant r == ExecAt(TurnOf(c, tools, nodes, e), order, seed, k)
      invariant r.Running? && r.skipped <= nodes.Keys && Closed(e, r.skipped)
    {
      assert order[k] in Elems(order);
      r := ExecuteBlock(c, tools, nodes, e, idsByName, r, order[k]);
      if !r.Running? {
        TurnIsLawful(c, tools, nodes, e);
        StaysEnded(TurnOf(c, tools, nodes, e), order, seed, k + 1);
        return;
      }
    }
  }

  /** What a caller brings along to execute or to resume. */
  datatype Setting = Setting(reg: BlockRegistry, env: map<string, string>, tools: Tools)

  /** The workflow and trigger of the snapshot in the caller's setting. */
  function Under(c: Config, x: Setting): Config {
    c.(reg := x.reg, env := x.env)
  }

  /** Restarts a paused run, in the caller's setting, with the awaited block's output added to the seed. */
  method Resume(c: Config, x: Setting, paused: Exec, payload: Value) returns (r: Executed)
    requires paused.Paused?
    ensures r == ExecutionOf(c.(reg := x.reg, env := x.env), x.tools, paused.outputs[paused.at := payload])
  {
    r := Execute(Under(c, x), x.tools, paused.outputs[paused.at := payload]);
  }

  lemma TurnIsLawful(c: Config, tools: Tools, nodes: Nodes, e: Edges)
    ensures Lawful(TurnOf(c, tools, nodes, e))
  {
    forall s: Exec, id: Id
      ensures TurnKeeps(s, id, TurnOf(c, tools, nodes, e)(s, id))
    {
      OneTurnKeeps(c, tools, nodes, e, s, id);
    }
  }

  lemma OneTurnKeeps(c: Config, tools: Tools, nodes: Nodes, e: Edges, s: Exec, id: Id)
    ensures TurnKeeps(s, id, Turn(c, tools, nodes, e, s, id))
  {
  }

  // ---- execute and resume ----

  /** Each execution in its own setting: the first one, then one for each resume. */
  ghost function PlanOf(c: Config, settings: nat -> Setting, nodes: Nodes, e: Edges, order: seq<Id>,
                        payload: Id -> Value): Plan
  {
    Plan((n: nat) => TurnOf(Under(c, settings(n)), settings(n).tools, nodes, e), order, payload)
  }

  /** What a block cuts when its tool fails: all that hangs on its other handles, if it has an error branch. */
  ghost function ErrorCut(wf: Workflow, nodes: Nodes, e: Edges, id: Id): set<Id> {
    if id in nodes && ById(wf.blocks, id).Some? && HasHandle(nodes[id], "error") then
      Downstream(e, nodes.Keys, OtherTargets(nodes[id], "error"))
    else {}
  }

  ghost function ShapeOf(wf: Workflow, nodes: Nodes, e: Edges): Shape {
    Shape((sk: set<Id>) => Closed(e, sk), (id: Id) => ErrorCut(wf, nodes, e, id))
  }

  lemma CutIsClosed(wf: Workflow, nodes: Nodes, e: Edges, sk: set<Id>, id: Id)
    requires Tells(nodes, e) && Closed(e, sk) && id in sk
    ensures ErrorCut(wf, nodes, e, id) <= sk
  {
    forall x | x in ErrorCut(wf, nodes, e, id)
      ensures x in sk
    {
      var t :| t in OtherTargets(nodes[id], "error") && (t == x || Reaches(e, t, x));
      assert (id, t) in e;
      if t != x {
        ClosedReaches(e, sk, t, x);
      }
    }
  }

  lemma TurnKeepsClosed(c: Config, tools: Tools, nodes: Nodes, e: Edges, s: Exec, id: Id)
    requires Tells(nodes, e)
    ensures KeepsClosed(ShapeOf(c.wf, nodes, e), s, Turn(c, tools, nodes, e, s, id))
  {
    var s' := Turn(c, tools, nodes, e, s, id);
    if s.Running? && s'.Running? && Closed(e, s.skipped) && id in nodes {
      forall roots
        ensures Closed(e, s.skipped + Downstream(e, nodes.Keys, roots))
      {
        DownstreamClosed(nodes, e, s.skipped, roots);
      }
    }
  }

  lemma TurnFailsOnto(c: Config, tools: Tools, nodes: Nodes, e: Edges, s: Exec, id: Id)
    ensures FailsOnto(ShapeOf(c.wf, nodes, e), s, id, Turn(c, tools, nodes, e, s, id))
  {
  }

  lemma TurnIsSame(c: Config, tools: Tools, nodes: Nodes, e: Edges, r: Exec, s: Exec, id: Id)
    requires s.Running? && Loosely(r, s, s.skipped) && id !in s.skipped
    ensures SameTurn(r, s, Turn(c, tools, nodes, e, r, id), Turn(c, tools, nodes, e, s, id))
  {
  }

  lemma TurnIsRegular(c: Config, tools: Tools, nodes: Nodes, e: Edges)
    requires Tells(nodes, e)
    ensures Regular(TurnOf(c, tools, nodes, e), ShapeOf(c.wf, nodes, e))
  {
    var f, g := TurnOf(c, tools, nodes, e), ShapeOf(c.wf, nodes, e);
    forall s: Exec, id: Id
      ensures FailsOnto(g, s, id, f(s, id)) && KeepsClosed(g, s, f(s, id))
    {
      TurnFailsOnto(c, tools, nodes, e, s, id);
      TurnKeepsClosed(c, tools, nodes, e, s, id);
    }
    forall r: Exec, s: Exec, id: Id | s.Running? && Loosely(r, s, s.skipped) && id !in s.skipped
      ensures SameTurn(r, s, f(r, id), f(s, id))
    {
      TurnIsSame(c, tools, nodes, e, r, s, id);
    }
  }

  lemma PlanIsLawful(c: Config, settings: nat -> Setting, nodes: Nodes, e: Edges, order: seq<Id>, payload: Id -> Value)
    ensures AllLawful(PlanOf(c, settings, nodes, e, order, payload))
  {
    forall n: nat
      ensures Lawful(PlanOf(c, settings, nodes, e, order, payload).turns(n))
    {
      TurnIsLawful(Under(c, settings(n)), settings(n).tools, nodes, e);
    }
  }

  lemma PlanIsRegular(c: Config, settings: nat -> Setting, nodes: Nodes, e: Edges, order: seq<Id>, payload: Id -> Value)
    requires Tells(nodes, e) && Distinct(order)
    ensures AllRegular(PlanOf(c, settings, nodes, e, order, payload), ShapeOf(c.wf, nodes, e))
  {
    var plan, g := PlanOf(c, settings, nodes, e, order, payload), ShapeOf(c.wf, nodes, e);
    PlanIsLawful(c, settings, nodes, e, order, payload);
    forall n: nat
      ensures Regular(plan.turns(n), g)
    {
      TurnIsRegular(Under(c, settings(n)), settings(n).tools, nodes, e);
    }
    forall sk, id | g.closed(sk) && id in sk
      ensures g.cut(id) <= sk
    {
      CutIsClosed(c.wf, nodes, e, sk, id);
    }
  }

  /** Execute and resume, in any settings, with any payloads, equals one uninterrupted run when every pause is clean. */
  lemma ExecuteThenResume(c: Config, settings: nat -> Setting, nodes: Nodes, e: Edges, order: seq<Id>,
                          payload: Id -> Value)
    requires Tells(nodes, e) && Distinct(order) && CleanPauses(PlanOf(c, settings, nodes, e, order, payload))
    ensures AllLawful(PlanOf(c, settings, nodes, e, order, payload))
    ensures
      var plan := PlanOf(c, settings, nodes, e, order, payload);
      Resumed(plan) == Uninterrupted(plan)
  {
    PlanIsRegular(c, settings, nodes, e, order, payload);
    ResumeEqualsUninterrupted(PlanOf(c, settings, nodes, e, order, payload), ShapeOf(c.wf, nodes, e));
  }

  /**
    * Execute and resume, in any settings and with any payloads, ends like one uninterrupted run exactly when no block
    * that a pause forgot does anything but fail onto its error branch, or each that first does stops the run as the
    * uninterrupted run is stopped.
    */
  lemma ResumeIsExact(c: Config, settings: nat -> Setting, nodes: Nodes, e: Edges, order: seq<Id>, payload: Id -> Value)
    requires Tells(nodes, e) && Distinct(order)
    ensures AllLawful(PlanOf(c, settings, nodes, e, order, payload))
    ensures
      var plan := PlanOf(c, settings, nodes, e, order, payload);
      SameOutcome(Resumed(plan), Uninterrupted(plan)) <==>
      forall k, i :: FirstRevived(plan, k, i) ==> Again(plan, k, i).Stopped? && Uninterrupted(plan) == Again(plan, k, i)
  {
    PlanIsRegular(c, settings, nodes, e, order, payload);
    EndsAlikeExactly(PlanOf(c, settings, nodes, e, order, payload), ShapeOf(c.wf, nodes, e));
  }

  // ---- which lost blocks are revived ----

  /** The block gets its tool run, the tool throws, and the block has an error branch. */
  ghost predicate FailsOntoBranch(c: Config, tools: Tools, nodes: Nodes, outputs: map<Id, Value>, id: Id) {
    var found := ById(c.wf.blocks, id);
    && id in nodes && HasHandle(nodes[id], "error") && found.Some?
    && found.value.kind in c.reg && !c.reg[found.value.kind].kind.Trigger?
    && var kind, def := found.value.kind, c.reg[found.value.kind];
       var params := ResolveValue(Fields(found.value.params), ContextOf(c, outputs)).value;
       && Chosen(tools, def, found.value, params).Returned?
       && tools.execute(id, tools.toolOf(kind, params), tools.toolParams(kind, params)).Threw?
  }

  lemma OnlyFailingLeavesNone(c: Config, tools: Tools, nodes: Nodes, e: Edges, s: Exec, id: Id)
    requires s.Running? && id in nodes && id !in s.outputs && id !in s.skipped && ById(c.wf.blocks, id).Some?
    ensures
      var s' := Turn(c, tools, nodes, e, s, id);
      s'.Running? && id !in s'.outputs <==> FailsOntoBranch(c, tools, nodes, s.outputs, id)
  {
  }

  /** A lost block leaves no output again exactly when its tool throws it onto an error branch. */
  lemma AgainWithout(c: Config, settings: nat -> Setting, nodes: Nodes, e: Edges, plan: Plan, k: nat, i: nat)
    requires plan == PlanOf(c, settings, nodes, e, plan.order, plan.payload) && AllLawful(plan) && Distinct(plan.order)
    requires PausesAt(plan, k) && i < |plan.order| && Lost(plan, k, i)
    requires plan.order[i] in nodes && ById(c.wf.blocks, plan.order[i]).Some?
    requires Restarted(plan, k, i).Running? && plan.order[i] !in Restarted(plan, k, i).skipped
    ensures
      var now, x := Again(plan, k, i), settings(StraightAt(plan, k).pauses + 1);
      now.Running? && plan.order[i] !in now.outputs <==>
      FailsOntoBranch(Under(c, x), x.tools, nodes, Restarted(plan, k, i).outputs, plan.order[i])
  {
    var x := settings(StraightAt(plan, k).pauses + 1);
    LostHasNone(plan, k, i);
    OnlyFailingLeavesNone(Under(c, x), x.tools, nodes, e, Restarted(plan, k, i), plan.order[i]);
  }

  /**
    * A block that a pause forgot is revived exactly when the resumed run gets to it and its tool does not throw it onto
    * an error branch.
    */
  lemma RevivedExactly(c: Config, settings: nat -> Setting, nodes: Nodes, e: Edges, plan: Plan, k: nat, i: nat)
    requires plan == PlanOf(c, settings, nodes, e, plan.order, plan.payload) && AllLawful(plan) && Distinct(plan.order)
    requires PausesAt(plan, k) && i < |plan.order|
    requires plan.order[i] in nodes && ById(c.wf.blocks, plan.order[i]).Some?
    ensures
      var r, x := Restarted(plan, k, i), settings(StraightAt(plan, k).pauses + 1);
      Revived(plan, k, i) <==>
        Lost(plan, k, i) && r.Running? && plan.order[i] !in r.skipped
        && !FailsOntoBranch(Under(c, x), x.tools, nodes, r.outputs, plan.order[i])
  {
    if Lost(plan, k, i) && Restarted(plan, k, i).Running? && plan.order[i] !in Restarted(plan, k, i).skipped {
      AgainWithout(c, settings, nodes, e, plan, k, i);
    }
  }
}
