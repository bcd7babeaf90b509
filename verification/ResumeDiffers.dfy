/** A workflow that ends differently when it is paused and resumed in memory: a branch that was cut runs after all. */
module ResumeDiffers {
  import opened Graphs
  import opened Workflows
  import opened References
  import opened Dag
  import opened Branches
  import opened Walk
  import opened WalkProofs
  import opened Resumption
  import opened MemoryExecutor

  function Plain(id: Id, kind: string): Block {
    Block(id, kind, None, true, [])
  }

  function Def(kind: BlockKind, tool: string): BlockDef {
    BlockDef(kind, [], {}, [tool])
  }

  /** The check c takes x when it is true and the approval p when it is false. */
  const FORKED := Workflow(
    [Plain("c", "check"), Plain("x", "task"), Plain("p", "human_approval")],
    [Connection("c", "x", Some("true"), None), Connection("c", "p", Some("false"), None)],
    Undefined)

  const KINDS :=
    map["check" := Def(Compute, "check"), "task" := Def(Compute, "task"),
        "human_approval" := Def(Wait, "human_approval")]

  function Setup(): Config {
    Config(FORKED, KINDS, Null, map[], (s: string) => s, (v: Value) => "", (v: Value) => "", (v: Value) => None)
  }

  function RunTool(tool: string): StepResult {
    if tool == "check" then Returned(Record([("result", Boolean(false))]))
    else if tool == "human_approval" then Returned(Record([("__paused", Boolean(true))]))
    else Returned(Null)
  }

  /** Each kind of block calls the tool of its name; the check is false. */
  function Toolbox(): Tools {
    Tools((kind: string, v: Value) => kind, (kind: string, v: Value) => v, {"check", "task", "human_approval"},
          (id: Id, tool: string, v: Value) => RunTool(tool))
  }

  const EDGES: Edges := {("c", "x"), ("c", "p")}

  lemma ForkedEdges()
    ensures EnabledEdges(FORKED) == EDGES && EnabledIds(FORKED.blocks) == {"c", "x", "p"} && Acyclic(EDGES)
  {
    var conns := FORKED.conns;
    assert EnabledIds(FORKED.blocks) == {"c", "x", "p"} by {
      assert FORKED.blocks[0].id == "c" && FORKED.blocks[1].id == "x" && FORKED.blocks[2].id == "p";
    }
    assert conns[..1][..0] == [] && conns[..1] == [conns[0]];
    var ids := EnabledIds(FORKED.blocks);
    assert EdgesAmong(ids, conns[..1]) == {("c", "x")};
    assert EdgesAmong(ids, conns) == EDGES;
    TopologicalAcyclic(EDGES, ["c", "x", "p"]);
  }

  /** In the graph as it is built, c has one target on each handle, and x has none. */
  lemma ForkedNodes(nodes: Nodes)
    requires Tells(nodes, EDGES) && CarriesLast(nodes, FORKED.conns) && nodes.Keys == {"c", "x", "p"}
    ensures nodes["c"].via.Keys == {"x", "p"} && HandleOf(nodes["c"].via["x"]) == "true"
    ensures HandleOf(nodes["c"].via["p"]) == "false"
    ensures nodes["x"].via == map[] && nodes["p"].via == map[]
  {
    assert ("c", "x") in EDGES && ("c", "p") in EDGES;
    forall b | b in nodes["c"].via
      ensures b in {"x", "p"}
    {
      assert ("c", b) in EDGES;
    }
    forall b
      ensures b !in nodes["x"].via && b !in nodes["p"].via
    {
      assert ("x", b) !in EDGES && ("p", b) !in EDGES;
    }
    var conns := FORKED.conns;
    assert conns[..1][0] == conns[0];
    assert LastBetween(conns, "c", "p") == Some(conns[1]) && LastBetween(conns[..1], "c", "x") == Some(conns[0]);
    assert LastBetween(conns, "c", "x") == Some(conns[0]);
  }

  lemma ChecksFalse()
    ensures Taken({"true", "false"}, RunTool("check").value) == {"false"}
  {
    var output := RunTool("check").value;
    assert FieldOf(output, "result") == Boolean(false) && FieldOf(output, "branch") == Undefined;
  }

  lemma TargetX(node: Node)
    requires node.via.Keys == {"x", "p"} && HandleOf(node.via["x"]) == "true" && HandleOf(node.via["p"]) == "false"
    ensures CutTargets(node, RunTool("check").value) == {"x"}
  {
    assert Handles(node) == {"true", "false"} by {
      assert "x" in node.via && "p" in node.via;
    }
    ChecksFalse();
  }

  lemma DownstreamOfX()
    ensures Downstream(EDGES, {"c", "x", "p"}, {"x"}) == {"x"}
  {
    forall b | Reaches(EDGES, "x", b)
      ensures false
    {
      var m := FirstStep(EDGES, "x", b);
    }
  }

  /** The output of c cuts x and nothing else. */
  lemma CutsX(nodes: Nodes)
    requires Tells(nodes, EDGES) && CarriesLast(nodes, FORKED.conns) && nodes.Keys == {"c", "x", "p"}
    ensures Downstream(EDGES, nodes.Keys, CutTargets(nodes["c"], RunTool("check").value)) == {"x"}
  {
    ForkedNodes(nodes);
    TargetX(nodes["c"]);
    DownstreamOfX();
  }

  /** A graph of the forked workflow with its edges, in any order that is topological. */
  ghost predicate Laid(nodes: Nodes, order: seq<Id>) {
    Sorted(nodes, EDGES, order) && CarriesLast(nodes, FORKED.conns) && nodes.Keys == {"c", "x", "p"}
  }

  ghost function Steps(nodes: Nodes): TurnFn {
    TurnOf(Setup(), Toolbox(), nodes, EDGES)
  }

  const CHECKED := map["c" := RunTool("check").value]

  lemma BlocksFound()
    ensures ById(FORKED.blocks, "c") == Some(Plain("c", "check"))
    ensures ById(FORKED.blocks, "x") == Some(Plain("x", "task"))
    ensures ById(FORKED.blocks, "p") == Some(Plain("p", "human_approval"))
  {
    var blocks := FORKED.blocks;
    assert blocks[..2] == [blocks[0], blocks[1]] && blocks[..2][..1] == [blocks[0]];
    assert ById(blocks[..1], "c") == Some(blocks[0]) && ById(blocks[..2], "x") == Some(blocks[1]);
  }

  /** c cuts x. */
  lemma CheckTurn(nodes: Nodes)
    requires Tells(nodes, EDGES) && CarriesLast(nodes, FORKED.conns) && nodes.Keys == {"c", "x", "p"}
    ensures Steps(nodes)(Running(map[], {}), "c") == Running(CHECKED, {"x"})
  {
    CutsX(nodes);
    CheckRuns(nodes);
  }

  lemma CheckRuns(nodes: Nodes)
    requires "c" in nodes
    ensures
      Steps(nodes)(Running(map[], {}), "c")
      == Running(CHECKED, {} + Downstream(EDGES, nodes.Keys, CutTargets(nodes["c"], RunTool("check").value)))
  {
    BlocksFound();
    assert !IsPause(RunTool("check").value);
    assert AfterTool(nodes, EDGES, Running(map[], {}), "c", RunTool("check")).outputs == CHECKED;
  }

  lemma ApprovalPauses(nodes: Nodes, outputs: map<Id, Value>, skipped: set<Id>)
    requires "p" in nodes && "p" !in outputs && "p" !in skipped
    ensures Steps(nodes)(Running(outputs, skipped), "p") == Paused("p", outputs)
  {
    BlocksFound();
    assert IsPause(RunTool("human_approval").value);
  }

  lemma TaskReturns(nodes: Nodes, outputs: map<Id, Value>, skipped: set<Id>)
    requires "x" in nodes && "x" !in outputs && "x" !in skipped
    ensures "x" in Steps(nodes)(Running(outputs, skipped), "x").outputs
  {
    BlocksFound();
    assert !IsPause(Null);
  }

  lemma CheckComesFirst(nodes: Nodes, order: seq<Id>)
    requires Laid(nodes, order)
    ensures |order| == 3 && order[0] == "c" && {order[1], order[2]} == {"x", "p"}
  {
    assert Elems(order) == {"c", "x", "p"};
    DistinctSize(order);
    assert order[0] in Elems(order) && order[1] in Elems(order) && order[2] in Elems(order);
    assert "c" in Elems(order);
    var i :| 0 <= i < 3 && order[i] == "c";
    forall j | 0 <= j < 3 && j != i
      ensures (order[i], order[j]) in EDGES
    {
      assert order[j] in Elems(order) && order[j] != order[i];
    }
    SourceFirst(EDGES, order, i);
  }

  /** A node with an edge to every other one comes first. */
  lemma SourceFirst(e: Edges, order: seq<Id>, i: nat)
    requires Topological(e, order) && i < |order|
    requires forall j :: 0 <= j < |order| && j != i ==> (order[i], order[j]) in e
    ensures order[i] == order[0]
  {
  }

  ghost predicate OneEach(order: seq<Id>, p: nat, i: nat) {
    1 <= p < 3 && i == 3 - p && |order| == 3 && order[0] == "c" && order[p] == "p" && order[i] == "x"
  }

  ghost function Always(): nat -> Setting {
    (n: nat) => Setting(KINDS, map[], Toolbox())
  }

  ghost function ForkedPlan(nodes: Nodes, order: seq<Id>, payload: Id -> Value): Plan {
    PlanOf(Setup(), Always(), nodes, EDGES, order, payload)
  }

  lemma ForkedTurns(nodes: Nodes, order: seq<Id>, payload: Id -> Value, n: nat)
    ensures ForkedPlan(nodes, order, payload).turns(n) == Steps(nodes)
  {
    assert Under(Setup(), Always()(n)) == Setup();
  }

  /** The pause is met with x cut, and none before. */
  lemma GetsToPause(nodes: Nodes, order: seq<Id>, payload: Id -> Value, p: nat, i: nat)
    requires Laid(nodes, order) && OneEach(order, p, i)
    ensures
      var plan := ForkedPlan(nodes, order, payload);
      StraightAt(plan, p) == Course(Running(CHECKED, {"x"}), 0) && NoneRevivedBefore(plan, p)
  {
    var plan := ForkedPlan(nodes, order, payload);
    CheckTurn(nodes);
    ForkedTurns(nodes, order, payload, 0);
    PlanIsLawful(Setup(), Always(), nodes, EDGES, order, payload);
    FirstThenSkip(plan, Running(CHECKED, {"x"}), p);
  }

  /** After the first block, skipped ones change nothing. */
  lemma FirstThenSkip(plan: Plan, s: Exec, p: nat)
    requires AllLawful(plan) && 1 <= p < 3 && |plan.order| == 3 && s.Running?
    requires plan.turns(0)(Running(map[], {}), plan.order[0]) == s && (p == 2 ==> plan.order[1] in s.skipped)
    ensures StraightAt(plan, p) == Course(s, 0) && NoneRevivedBefore(plan, p)
  {
    assert StraightAt(plan, 1) == Course(s, 0);
    TurnKeepsLaw(plan, 0, s, plan.order[1]);
    assert !PausesAt(plan, 0) && (p == 2 ==> !PausesAt(plan, 1));
  }

  /** The resumed run passes over c and p. */
  lemma GetsToX(nodes: Nodes, order: seq<Id>, seed: map<Id, Value>, p: nat, i: nat)
    requires OneEach(order, p, i) && "c" in seed && "p" in seed
    ensures ExecAt(Steps(nodes), order, seed, i) == Running(seed, {})
  {
    OneTurnKeeps(Setup(), Toolbox(), nodes, EDGES, Running(seed, {}), "c");
    OneTurnKeeps(Setup(), Toolbox(), nodes, EDGES, Running(seed, {}), "p");
    assert ExecAt(Steps(nodes), order, seed, 1) == Running(seed, {});
  }

  /** The block that was cut comes back with an output. */
  lemma ComesBack(plan: Plan, p: nat, i: nat, s: Exec)
    requires p < |plan.order| && i < |plan.order| && StraightAt(plan, p) == Course(s, 0) && s.Running?
    requires plan.turns(0)(s, plan.order[p]).Paused? && plan.order[i] in s.skipped && plan.order[i] !in s.outputs
    requires Restarted(plan, p, i) == Running(SeedAfter(plan, p), {})
    requires plan.order[i] in plan.turns(1)(Running(SeedAfter(plan, p), {}), plan.order[i]).outputs
    ensures Revived(plan, p, i) && plan.order[i] in Again(plan, p, i).outputs
  {
  }

  lemma XIsRevived(nodes: Nodes, order: seq<Id>, payload: Id -> Value, p: nat, i: nat)
    requires Laid(nodes, order) && OneEach(order, p, i)
    ensures
      var plan := ForkedPlan(nodes, order, payload);
      Revived(plan, p, i) && "x" in Again(plan, p, i).outputs
  {
    var seed := CHECKED["p" := payload("p")];
    GetsToPause(nodes, order, payload, p, i);
    ForkedTurns(nodes, order, payload, 0);
    ForkedTurns(nodes, order, payload, 1);
    GetsToX(nodes, order, seed, p, i);
    ApprovalPauses(nodes, CHECKED, {"x"});
    TaskReturns(nodes, seed, {});
    ComesBack(ForkedPlan(nodes, order, payload), p, i, Running(CHECKED, {"x"}));
  }

  lemma EachDiffers(nodes: Nodes, order: seq<Id>, payload: Id -> Value, p: nat, i: nat)
    requires Laid(nodes, order) && OneEach(order, p, i)
    ensures
      var plan := ForkedPlan(nodes, order, payload);
      AllLawful(plan) && "x" in Resumed(plan).outputs && "x" !in Uninterrupted(plan).outputs
  {
    var plan, g := ForkedPlan(nodes, order, payload), ShapeOf(FORKED, nodes, EDGES);
    GetsToPause(nodes, order, payload, p, i);
    XIsRevived(nodes, order, payload, p, i);
    PlanIsRegular(Setup(), Always(), nodes, EDGES, order, payload);
    RevivedStays(plan, g, p, i);
  }

  lemma RevivedStays(plan: Plan, g: Shape, p: nat, i: nat)
    requires AllRegular(plan, g) && NoneRevivedBefore(plan, p) && Revived(plan, p, i)
    requires plan.order[i] in Again(plan, p, i).outputs
    ensures plan.order[i] in Resumed(plan).outputs && plan.order[i] !in Uninterrupted(plan).outputs
  {
    RevivedBlockShows(plan, g, p, i);
    LostForGood(plan, p, i, |plan.order|);
  }

  lemma LaidDiffers(nodes: Nodes, order: seq<Id>, payload: Id -> Value)
    requires Laid(nodes, order)
    ensures
      var plan := ForkedPlan(nodes, order, payload);
      AllLawful(plan) && "x" in Resumed(plan).outputs && "x" !in Uninterrupted(plan).outputs
  {
    CheckComesFirst(nodes, order);
    var p := if order[2] == "p" then 2 else 1;
    assert order[p] in {"x", "p"} && order[3 - p] in {"x", "p"};
    EachDiffers(nodes, order, payload, p, 3 - p);
  }

  /**
    * Executed in memory and resumed with any payload, the forked workflow ends with an output for x, which its check
    * had cut; the uninterrupted run ends without.
    */
  lemma ForkedResumeDiffers(payload: Id -> Value)
    ensures
      var plan := ForkedPlan(GraphOf(FORKED).nodes, OrderOf(GraphOf(FORKED)), payload);
      AllLawful(plan) && "x" in Resumed(plan).outputs && "x" !in Uninterrupted(plan).outputs
  {
    ForkedEdges();
    WalkIsSorted(FORKED);
    LaidDiffers(GraphOf(FORKED).nodes, OrderOf(GraphOf(FORKED)), payload);
  }
}
