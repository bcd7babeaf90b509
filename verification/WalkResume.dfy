/** Execute and resume in memory ends with the outputs of one uninterrupted walk that is fed the same payloads. */
module WalkResume {
  import opened Graphs
  import opened Workflows
  import opened Resolver
  import opened References
  import opened Dag
  import opened Walk
  import opened WalkProofs
  import opened Resumption
  import opened MemoryExecutor

  /**
    * At one block the two hosts are the same: tools give in memory what their durable step gives the walk,
    * and a wait pauses in memory and gives the walk the payload.
    */
  ghost predicate SameAt(c: Config, tools: Tools, host: Host, payload: Id -> Value, outputs: map<Id, Value>, id: Id) {
    match ById(c.wf.blocks, id)
    case None => true
    case Some(block) =>
      block.kind in c.reg ==>
        var def := c.reg[block.kind];
        var params := ResolveValue(Fields(block.params), ContextOf(c, outputs)).value;
        var toolId, toolParams := tools.toolOf(block.kind, params), tools.toolParams(block.kind, params);
        && tools.known == host.tools && toolId == host.toolOf(block.kind, params)
        && toolParams == host.toolParams(block.kind, params)
        && (def.kind.Compute? ==>
              tools.execute(id, toolId, toolParams) == host.run(StepName(id, "run"), toolId, toolParams))
        && (def.kind.Wait? ==>
              && Chosen(tools, def, block, params).Returned?
              && tools.execute(id, toolId, toolParams).Returned? && IsPause(tools.execute(id, toolId, toolParams).value)
              && RunWait(c, host, block, params) == Returned(payload(id)))
  }

  /** Each execution in memory has its own tools, and all are the walk's at every block that it visits. */
  ghost predicate SameHosts(c: Config, tools: nat -> Tools, host: Host, payload: Id -> Value, nodes: Nodes, e: Edges,
                            order: seq<Id>)
    requires Elems(order) <= nodes.Keys
  {
    forall k, n: nat
      {:trigger SameAt(c, tools(n), host, payload, StateAt(c, host, nodes, e, order, k).outputs, order[k])} ::
      0 <= k < |order| && StateAt(c, host, nodes, e, order, k).Going? ==>
        SameAt(c, tools(n), host, payload, StateAt(c, host, nodes, e, order, k).outputs, order[k])
  }

  ghost function WalkPlan(c: Config, tools: nat -> Tools, nodes: Nodes, e: Edges, order: seq<Id>,
                          payload: Id -> Value): Plan
  {
    PlanOf(c, Settings(c, tools), nodes, e, order, payload)
  }

  /** The walk's registry and environment each time, with that execution's tools. */
  ghost function Settings(c: Config, tools: nat -> Tools): nat -> Setting {
    (n: nat) => Setting(c.reg, c.env, tools(n))
  }

  lemma WalkPlanTurns(c: Config, tools: nat -> Tools, nodes: Nodes, e: Edges, order: seq<Id>, payload: Id -> Value,
                      n: nat)
    ensures WalkPlan(c, tools, nodes, e, order, payload).turns(n) == TurnOf(c, tools(n), nodes, e)
  {
    assert Under(c, Setting(c.reg, c.env, tools(n))) == c;
  }

  /** No branch is cut before a wait block. */
  ghost predicate NoCutBeforeWait(c: Config, host: Host, nodes: Nodes, e: Edges, order: seq<Id>)
    requires Elems(order) <= nodes.Keys
  {
    forall k {:trigger StateAt(c, host, nodes, e, order, k)} ::
      0 <= k < |order| && StateAt(c, host, nodes, e, order, k).Going? && IsWait(c, order[k])
      && order[k] !in StateAt(c, host, nodes, e, order, k).skipped ==>
      StateAt(c, host, nodes, e, order, k).skipped == {}
  }

  predicate IsWait(c: Config, id: Id) {
    match ById(c.wf.blocks, id)
    case None => false
    case Some(block) => block.kind in c.reg && c.reg[block.kind].kind.Wait?
  }

  /** One block: the memory executor does what the walk does, or pauses where the walk gets the payload. */
  lemma SameBlock(c: Config, tools: Tools, host: Host, payload: Id -> Value, nodes: Nodes, e: Edges, s: State, id: Id)
    requires s.Going? && id in nodes && id !in s.outputs && SameAt(c, tools, host, payload, s.outputs, id)
    requires Visited(c, host, nodes, e, s, id).Going?
    ensures
      var s', r' := Visited(c, host, nodes, e, s, id), Turn(c, tools, nodes, e, Running(s.outputs, s.skipped), id);
      if r'.Paused? then s' == Going(s.outputs[id := payload(id)], s.skipped) && r' == Paused(id, s.outputs)
      else r' == Running(s'.outputs, s'.skipped)
  {
    if id !in s.skipped && ById(c.wf.blocks, id).Some? {
      var block := ById(c.wf.blocks, id).value;
      ByIdFinds(c.wf.blocks, id);
      var def := c.reg[block.kind];
      var params := ResolveValue(Fields(block.params), ContextOf(c, s.outputs)).value;
      if def.kind.Compute? {
        SameCompute(tools, host, def, block, params);
      }
    }
  }

  lemma SameCompute(tools: Tools, host: Host, def: BlockDef, block: Block, params: Value)
    requires tools.known == host.tools && tools.toolOf(block.kind, params) == host.toolOf(block.kind, params)
    requires tools.toolParams(block.kind, params) == host.toolParams(block.kind, params)
    requires
      var toolId, toolParams := tools.toolOf(block.kind, params), tools.toolParams(block.kind, params);
      tools.execute(block.id, toolId, toolParams) == host.run(StepName(block.id, "run"), toolId, toolParams)
    requires RunCompute(host, def, block, params).Returned?
    ensures
      var r := RunCompute(host, def, block, params);
      && Chosen(tools, def, block, params).Returned? && !IsPause(r.value)
      && tools.execute(block.id, tools.toolOf(block.kind, params), tools.toolParams(block.kind, params)) == r
  {
  }

  lemma EarlierGoing(c: Config, host: Host, nodes: Nodes, e: Edges, order: seq<Id>, k: nat)
    requires 0 < k <= |order| && Elems(order) <= nodes.Keys && StateAt(c, host, nodes, e, order, k).Going?
    ensures StateAt(c, host, nodes, e, order, k - 1).Going?
  {
  }

  lemma NotYetOut(c: Config, host: Host, nodes: Nodes, e: Edges, order: seq<Id>, k: nat)
    requires Sorted(nodes, e, order) && k < |order| && nodes.Keys == EnabledIds(c.wf.blocks)
    requires StateAt(c, host, nodes, e, order, k).Going?
    ensures order[k] in nodes && order[k] !in StateAt(c, host, nodes, e, order, k).outputs
  {
    WalkTracks(c, host, nodes, e, order, k);
    assert order[k] in Elems(order);
  }

  /** The uninterrupted run in memory stands where the walk stands. */
  ghost predicate StandsWith(plan: Plan, k: nat, s: State)
    requires k <= |plan.order|
  {
    s.Going? ==> StraightAt(plan, k).exec == Running(s.outputs, s.skipped)
  }

  /** As far as the walk gets, the uninterrupted run in memory stands where the walk stands. */
  lemma {:induction false} StraightIsWalk(c: Config, tools: nat -> Tools, host: Host, payload: Id -> Value,
                                          nodes: Nodes, e: Edges, order: seq<Id>, k: nat)
    requires Sorted(nodes, e, order) && k <= |order| && nodes.Keys == EnabledIds(c.wf.blocks)
    requires SameHosts(c, tools, host, payload, nodes, e, order)
    ensures StandsWith(WalkPlan(c, tools, nodes, e, order, payload), k, StateAt(c, host, nodes, e, order, k))
  {
    if k > 0 {
      StraightIsWalk(c, tools, host, payload, nodes, e, order, k - 1);
      NextIsWalk(c, tools, host, payload, nodes, e, order, k);
    }
  }

  lemma NextIsWalk(c: Config, tools: nat -> Tools, host: Host, payload: Id -> Value, nodes: Nodes, e: Edges,
                   order: seq<Id>, k: nat)
    requires Sorted(nodes, e, order) && 0 < k <= |order| && nodes.Keys == EnabledIds(c.wf.blocks)
    requires SameHosts(c, tools, host, payload, nodes, e, order)
    requires StandsWith(WalkPlan(c, tools, nodes, e, order, payload), k - 1, StateAt(c, host, nodes, e, order, k - 1))
    ensures StandsWith(WalkPlan(c, tools, nodes, e, order, payload), k, StateAt(c, host, nodes, e, order, k))
  {
    if StateAt(c, host, nodes, e, order, k).Going? {
      EarlierGoing(c, host, nodes, e, order, k);
      var n := StraightAt(WalkPlan(c, tools, nodes, e, order, payload), k - 1).pauses;
      NotYetOut(c, host, nodes, e, order, k - 1);
      WalkPlanTurns(c, tools, nodes, e, order, payload, n);
      StateStep(c, host, nodes, e, order, k - 1);
      SameBlock(c, tools(n), host, payload, nodes, e, StateAt(c, host, nodes, e, order, k - 1), order[k - 1]);
    }
  }

  /** Only a wait pauses: a compute block whose tool pauses makes the walk fail. */
  lemma PausesAtWaits(c: Config, tools: Tools, host: Host, payload: Id -> Value, nodes: Nodes, e: Edges, s: State,
                      id: Id)
    requires s.Going? && id in nodes && id !in s.outputs && SameAt(c, tools, host, payload, s.outputs, id)
    requires Visited(c, host, nodes, e, s, id).Going?
    requires Turn(c, tools, nodes, e, Running(s.outputs, s.skipped), id).Paused?
    ensures IsWait(c, id)
  {
    var block := ById(c.wf.blocks, id).value;
    ByIdFinds(c.wf.blocks, id);
    var def := c.reg[block.kind];
    if def.kind.Compute? {
      SameCompute(tools, host, def, block, ResolveValue(Fields(block.params), ContextOf(c, s.outputs)).value);
    }
  }

  lemma {:induction false} AllGoing(c: Config, host: Host, nodes: Nodes, e: Edges, order: seq<Id>, k: nat, n: nat)
    requires k <= n <= |order| && Elems(order) <= nodes.Keys && StateAt(c, host, nodes, e, order, n).Going?
    ensures StateAt(c, host, nodes, e, order, k).Going?
    decreases n - k
  {
    if k < n {
      EarlierGoing(c, host, nodes, e, order, n);
      AllGoing(c, host, nodes, e, order, k, n - 1);
    }
  }

  lemma CleanWhereWalked(c: Config, tools: nat -> Tools, host: Host, payload: Id -> Value, nodes: Nodes, e: Edges,
                         order: seq<Id>, k: nat)
    requires Sorted(nodes, e, order) && k < |order| && nodes.Keys == EnabledIds(c.wf.blocks)
    requires SameHosts(c, tools, host, payload, nodes, e, order) && NoCutBeforeWait(c, host, nodes, e, order)
    requires StateAt(c, host, nodes, e, order, k + 1).Going?
    ensures CleanAt(WalkPlan(c, tools, nodes, e, order, payload), k)
  {
    EarlierGoing(c, host, nodes, e, order, k + 1);
    var s := StateAt(c, host, nodes, e, order, k);
    var n := StraightAt(WalkPlan(c, tools, nodes, e, order, payload), k).pauses;
    StraightIsWalk(c, tools, host, payload, nodes, e, order, k);
    WalkPlanTurns(c, tools, nodes, e, order, payload, n);
    NotYetOut(c, host, nodes, e, order, k);
    StateStep(c, host, nodes, e, order, k);
    if Turn(c, tools(n), nodes, e, Running(s.outputs, s.skipped), order[k]).Paused? {
      PausesAtWaits(c, tools(n), host, payload, nodes, e, s, order[k]);
      WalkTracks(c, host, nodes, e, order, k);
    }
  }

  lemma WalkIsClean(c: Config, tools: nat -> Tools, host: Host, payload: Id -> Value, nodes: Nodes, e: Edges,
                    order: seq<Id>)
    requires Sorted(nodes, e, order) && nodes.Keys == EnabledIds(c.wf.blocks)
    requires SameHosts(c, tools, host, payload, nodes, e, order) && NoCutBeforeWait(c, host, nodes, e, order)
    requires StateAt(c, host, nodes, e, order, |order|).Going?
    ensures CleanPauses(WalkPlan(c, tools, nodes, e, order, payload))
  {
    forall k: nat | k < |order|
      ensures CleanAt(WalkPlan(c, tools, nodes, e, order, payload), k)
    {
      AllGoing(c, host, nodes, e, order, k + 1, |order|);
      CleanWhereWalked(c, tools, host, payload, nodes, e, order, k);
    }
  }

  /**
    * When the walk succeeds and cuts no branch before a wait, executing in memory and resuming each pause with the
    * payload that the walk got ends with exactly the walk's outputs.
    */
  lemma ResumedIsWalk(c: Config, tools: nat -> Tools, host: Host, payload: Id -> Value, nodes: Nodes, e: Edges,
                      order: seq<Id>)
    requires Sorted(nodes, e, order) && nodes.Keys == EnabledIds(c.wf.blocks)
    requires SameHosts(c, tools, host, payload, nodes, e, order) && NoCutBeforeWait(c, host, nodes, e, order)
    requires StateAt(c, host, nodes, e, order, |order|).Going?
    ensures AllLawful(WalkPlan(c, tools, nodes, e, order, payload))
    ensures
      var s := StateAt(c, host, nodes, e, order, |order|);
      Resumed(WalkPlan(c, tools, nodes, e, order, payload)) == Running(s.outputs, s.skipped)
  {
    WalkIsClean(c, tools, host, payload, nodes, e, order);
    ExecuteThenResume(c, Settings(c, tools), nodes, e, order, payload);
    StraightIsWalk(c, tools, host, payload, nodes, e, order, |order|);
  }

  /**
    * When the walk succeeds, executing in memory and resuming each pause with the payload that the walk got ends with
    * the walk's outputs exactly when no block that a pause forgot is revived.
    */
  lemma ResumedIsWalkExactly(c: Config, tools: nat -> Tools, host: Host, payload: Id -> Value, nodes: Nodes, e: Edges,
                             order: seq<Id>)
    requires Sorted(nodes, e, order) && nodes.Keys == EnabledIds(c.wf.blocks)
    requires SameHosts(c, tools, host, payload, nodes, e, order) && StateAt(c, host, nodes, e, order, |order|).Going?
    ensures AllLawful(WalkPlan(c, tools, nodes, e, order, payload))
    ensures
      var plan := WalkPlan(c, tools, nodes, e, order, payload);
      Resumed(plan).Running? && Resumed(plan).outputs == StateAt(c, host, nodes, e, order, |order|).outputs
      <==> forall k, i :: !Revived(plan, k, i)
  {
    var plan := WalkPlan(c, tools, nodes, e, order, payload);
    ResumeIsExact(c, Settings(c, tools), nodes, e, order, payload);
    StraightIsWalk(c, tools, host, payload, nodes, e, order, |order|);
    SomeRevived(plan);
  }
}
