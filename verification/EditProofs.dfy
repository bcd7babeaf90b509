/** What every edit operation keeps, and when it is skipped. */
module EditProofs {
  import opened Graphs
  import opened Workflows
  import opened References
  import opened Edit

  ghost predicate UniqueIds(blocks: seq<Block>) {
    forall i, j :: 0 <= i < j < |blocks| ==> blocks[i].id != blocks[j].id
  }

  ghost predicate EndpointsExist(wf: Workflow) {
    forall c :: c in wf.conns ==> c.source in Ids(wf.blocks) && c.target in Ids(wf.blocks)
  }

  ghost predicate DistinctConnections(conns: seq<Connection>) {
    forall i, j :: 0 <= i < j < |conns| ==>
      conns[i].source != conns[j].source || conns[i].target != conns[j].target || conns[i].handle != conns[j].handle
  }

  ghost predicate Sound(wf: Workflow) {
    && UniqueIds(wf.blocks)
    && EndpointsExist(wf)
    && Acyclic(EnabledEdges(wf))
  }

  ghost predicate AllEnabled(wf: Workflow) {
    forall b :: b in wf.blocks ==> b.enabled
  }

  /** No block carries a field that its definition does not expose to edits. */
  ghost predicate OnlyExposed(wf: Workflow, reg: BlockRegistry, tools: ToolRegistry) {
    forall b :: b in wf.blocks ==> BlockExposed(b, reg, tools)
  }

  ghost predicate BlockExposed(b: Block, reg: BlockRegistry, tools: ToolRegistry) {
    b.kind in reg && forall p :: p in b.params ==> p.key in Exposed(reg[b.kind], tools)
  }

  // ---- sub-lists keep their edges ----

  lemma {:induction false} EdgesShrink(ids: set<Id>, jds: set<Id>, conns: seq<Connection>, more: seq<Connection>)
    requires ids <= jds && forall c :: c in conns ==> c in more
    ensures EdgesAmong(ids, conns) <= EdgesAmong(jds, more)
  {
    forall p | p in EdgesAmong(ids, conns)
      ensures p in EdgesAmong(jds, more)
    {
      EdgesAmongMeaning(ids, conns, p.0, p.1);
      EdgesAmongMeaning(jds, more, p.0, p.1);
    }
  }

  lemma {:induction false} WithoutMeaning(conns: seq<Connection>, id: Id)
    ensures forall c :: c in Without(conns, id) <==> c in conns && c.source != id && c.target != id
    ensures DistinctConnections(conns) ==> DistinctConnections(Without(conns, id))
  {
    if conns != [] {
      var n := |conns| - 1;
      WithoutMeaning(conns[..n], id);
      assert conns == conns[..n] + [conns[n]];
    }
  }

  lemma RemoveAt<T>(s: seq<T>, i: nat)
    requires i < |s|
    ensures forall x :: x in s[..i] + s[i + 1..] ==> x in s
    ensures forall j :: 0 <= j < |s| && j != i ==> s[j] in s[..i] + s[i + 1..]
  {
  }

  // ---- each operation keeps a sound workflow sound ----

  lemma AddKeeps(wf: Workflow, op: EditOp, reg: BlockRegistry, tools: ToolRegistry)
    requires op.Add? && Sound(wf) && AddOutcome(wf, op, reg, tools).Changed?
    ensures Sound(AddOutcome(wf, op, reg, tools).wf)
  {
    var wf' := AddOutcome(wf, op, reg, tools).wf;
    var b := wf'.blocks[|wf.blocks|];
    assert wf'.blocks == wf.blocks + [b];
    assert Ids(wf'.blocks) == Ids(wf.blocks) + {op.id};
    forall i | 0 <= i < |wf.blocks|
      ensures wf.blocks[i].id != op.id
    {
      assert wf.blocks[i] in wf.blocks;
    }
    assert EnabledIds(wf'.blocks) == EnabledIds(wf.blocks) + {op.id};
    NewIdNoEdges(wf, op.id);
    assert EnabledEdges(wf') <= EnabledEdges(wf);
    AcyclicSubgraph(EnabledEdges(wf'), EnabledEdges(wf));
  }

  /** A new id is the end of no connection, so it brings no edge. */
  lemma NewIdNoEdges(wf: Workflow, id: Id)
    requires EndpointsExist(wf) && id !in Ids(wf.blocks)
    ensures EdgesAmong(EnabledIds(wf.blocks) + {id}, wf.conns) <= EnabledEdges(wf)
  {
    var ids := EnabledIds(wf.blocks);
    forall p | p in EdgesAmong(ids + {id}, wf.conns)
      ensures p in EdgesAmong(ids, wf.conns)
    {
      EdgesAmongMeaning(ids + {id}, wf.conns, p.0, p.1);
      EdgesAmongMeaning(ids, wf.conns, p.0, p.1);
    }
  }

  lemma ChangeKeeps(wf: Workflow, op: EditOp, reg: BlockRegistry, tools: ToolRegistry)
    requires op.Change? && Sound(wf) && ChangeOutcome(wf, op, reg, tools).Changed?
    ensures Sound(ChangeOutcome(wf, op, reg, tools).wf)
  {
    var i := Find(wf.blocks, op.id);
    var wf' := ChangeOutcome(wf, op, reg, tools).wf;
    assert wf'.blocks == wf.blocks[i := wf'.blocks[i]];
    SameIds(wf.blocks, wf'.blocks);
  }

  /** Blocks that keep id and enabled flag at every place draw the same graph. */
  lemma SameIds(a: seq<Block>, b: seq<Block>)
    requires |a| == |b| && forall i :: 0 <= i < |a| ==> a[i].id == b[i].id && a[i].enabled == b[i].enabled
    ensures Ids(a) == Ids(b) && EnabledIds(a) == EnabledIds(b)
  {
  }

  lemma DeletedIds(blocks: seq<Block>, i: nat)
    requires i < |blocks| && UniqueIds(blocks)
    ensures Ids(blocks[..i] + blocks[i + 1..]) == Ids(blocks) - {blocks[i].id}
    ensures EnabledIds(blocks[..i] + blocks[i + 1..]) <= EnabledIds(blocks)
    ensures UniqueIds(blocks[..i] + blocks[i + 1..])
  {
  }

  lemma DeleteKeeps(wf: Workflow, op: EditOp)
    requires op.Delete? && Sound(wf) && DeleteOutcome(wf, op).Changed?
    ensures Sound(DeleteOutcome(wf, op).wf)
  {
    var wf' := DeleteOutcome(wf, op).wf;
    DeletedIds(wf.blocks, Find(wf.blocks, op.id));
    DeletedEndpoints(wf, op.id, wf');
    WithoutMeaning(wf.conns, op.id);
    EdgesShrink(EnabledIds(wf'.blocks), EnabledIds(wf.blocks), wf'.conns, wf.conns);
    AcyclicSubgraph(EnabledEdges(wf'), EnabledEdges(wf));
  }

  lemma DeletedEndpoints(wf: Workflow, id: Id, wf': Workflow)
    requires EndpointsExist(wf) && Ids(wf'.blocks) == Ids(wf.blocks) - {id} && wf'.conns == Without(wf.conns, id)
    ensures EndpointsExist(wf')
  {
    WithoutMeaning(wf.conns, id);
  }

  lemma ConnectKeeps(wf: Workflow, op: EditOp)
    requires op.Connect? && Sound(wf) && ConnectOutcome(wf, op).Changed?
    ensures Sound(ConnectOutcome(wf, op).wf)
  {
  }

  lemma DisconnectKeeps(wf: Workflow, op: EditOp)
    requires op.Disconnect? && Sound(wf) && DisconnectOutcome(wf, op).Changed?
    ensures Sound(DisconnectOutcome(wf, op).wf)
  {
    var wf' := DisconnectOutcome(wf, op).wf;
    RemoveAt(wf.conns, FindEdge(wf.conns, op.id, op.target));
    EdgesShrink(EnabledIds(wf.blocks), EnabledIds(wf.blocks), wf'.conns, wf.conns);
    AcyclicSubgraph(EnabledEdges(wf'), EnabledEdges(wf));
  }

  /** Unique ids, existing endpoints and an acyclic enabled graph survive every operation. */
  lemma OpKeepsSound(wf: Workflow, op: EditOp, reg: BlockRegistry, tools: ToolRegistry)
    requires Sound(wf)
    ensures var out := OpOutcome(wf, op, reg, tools); out.Changed? ==> Sound(out.wf)
  {
    if OpOutcome(wf, op, reg, tools).Changed? {
      match op {
        case Add(_, _, _, _) => AddKeeps(wf, op, reg, tools);
        case Change(_, _, _) => ChangeKeeps(wf, op, reg, tools);
        case Delete(_) => DeleteKeeps(wf, op);
        case Connect(_, _, _, _) => ConnectKeeps(wf, op);
        case Disconnect(_, _) => DisconnectKeeps(wf, op);
      }
    }
  }

  /** Any list of operations keeps the workflow sound, so the final graph check never fails. */
  lemma {:induction false} RunKeepsSound(b: Batch, ops: seq<EditOp>, reg: BlockRegistry, tools: ToolRegistry)
    requires Sound(b.wf)
    ensures Sound(Run(b, ops, reg, tools).wf)
    ensures FinalErrors(Run(b, ops, reg, tools).wf, reg)
      == BlockErrors(Run(b, ops, reg, tools).wf, reg, Run(b, ops, reg, tools).wf.blocks)
  {
    if ops != [] {
      var n := |ops| - 1;
      RunKeepsSound(b, ops[..n], reg, tools);
      OpKeepsSound(Run(b, ops[..n], reg, tools).wf, ops[n], reg, tools);
    }
    SoundHasNoCycleError(Run(b, ops, reg, tools).wf, reg);
  }

  lemma SoundHasNoCycleError(wf: Workflow, reg: BlockRegistry)
    requires Sound(wf)
    ensures FinalErrors(wf, reg) == BlockErrors(wf, reg, wf.blocks)
  {
  }

  // ---- enabled blocks and exposed fields ----

  lemma AddKeepsExposed(wf: Workflow, op: EditOp, reg: BlockRegistry, tools: ToolRegistry)
    requires op.Add? && AllEnabled(wf) && OnlyExposed(wf, reg, tools) && AddOutcome(wf, op, reg, tools).Changed?
    ensures
      var wf' := AddOutcome(wf, op, reg, tools).wf;
      AllEnabled(wf') && OnlyExposed(wf', reg, tools)
  {
    KeptIsExposed(op.params, Exposed(reg[op.kind], tools));
  }

  lemma ChangeKeepsExposed(wf: Workflow, op: EditOp, reg: BlockRegistry, tools: ToolRegistry)
    requires op.Change? && AllEnabled(wf) && OnlyExposed(wf, reg, tools) && ChangeOutcome(wf, op, reg, tools).Changed?
    ensures
      var wf' := ChangeOutcome(wf, op, reg, tools).wf;
      AllEnabled(wf') && OnlyExposed(wf', reg, tools)
  {
    var i := Find(wf.blocks, op.id);
    var wf' := ChangeOutcome(wf, op, reg, tools).wf;
    var old', b := wf.blocks[i], wf'.blocks[i];
    assert old' in wf.blocks;
    assert wf'.blocks == wf.blocks[i := b];
    if op.update.Some? {
      KeptIsExposed(Merged(old'.params, op.update.value), Exposed(reg[b.kind], tools));
    } else {
      assert b.params == old'.params;
    }
    assert forall x :: x in wf'.blocks ==> x == b || x in wf.blocks;
  }

  lemma OpKeepsEnabledAndExposed(wf: Workflow, op: EditOp, reg: BlockRegistry, tools: ToolRegistry)
    requires AllEnabled(wf) && OnlyExposed(wf, reg, tools)
    ensures
      var out := OpOutcome(wf, op, reg, tools);
      out.Changed? ==> AllEnabled(out.wf) && OnlyExposed(out.wf, reg, tools)
  {
    if OpOutcome(wf, op, reg, tools).Changed? {
      match op {
        case Add(_, _, _, _) => AddKeepsExposed(wf, op, reg, tools);
        case Change(_, _, _) => ChangeKeepsExposed(wf, op, reg, tools);
        case Delete(id) => RemoveAt(wf.blocks, Find(wf.blocks, id));
        case Connect(_, _, _, _) =>
        case Disconnect(_, _) =>
      }
    }
  }

  /** From an empty workflow, edits alone never disable a block nor set a field hidden from them. */
  lemma {:induction false} RunKeepsEnabledAndExposed(b: Batch, ops: seq<EditOp>, reg: BlockRegistry,
                                                     tools: ToolRegistry)
    requires AllEnabled(b.wf) && OnlyExposed(b.wf, reg, tools)
    ensures AllEnabled(Run(b, ops, reg, tools).wf) && OnlyExposed(Run(b, ops, reg, tools).wf, reg, tools)
  {
    if ops != [] {
      var n := |ops| - 1;
      RunKeepsEnabledAndExposed(b, ops[..n], reg, tools);
      OpKeepsEnabledAndExposed(Run(b, ops[..n], reg, tools).wf, ops[n], reg, tools);
    }
  }

  // ---- connections ----

  lemma {:induction false} AppendEdge(ids: set<Id>, conns: seq<Connection>, c: Connection)
    ensures EdgesAmong(ids, conns + [c]) ==
      EdgesAmong(ids, conns) + if c.source in ids && c.target in ids then {(c.source, c.target)} else {}
  {
  }

  /** Between enabled blocks, connect reports a cycle exactly when the target already leads to the source. */
  lemma ConnectReportsCycle(wf: Workflow, op: EditOp)
    requires op.Connect? && Acyclic(EnabledEdges(wf))
    requires op.id in Ids(wf.blocks) && op.target in Ids(wf.blocks)
    requires !HasConnection(wf.conns, op.id, op.target, op.handle)
    ensures ConnectOutcome(wf, op) == Skipped(CycleIntroduced) <==>
      && op.id in EnabledIds(wf.blocks) && op.target in EnabledIds(wf.blocks)
      && (op.id == op.target || Reaches(EnabledEdges(wf), op.target, op.id))
  {
    AppendEdge(EnabledIds(wf.blocks), wf.conns, NewConnection(op));
    AddEdgeAcyclic(EnabledEdges(wf), op.id, op.target);
    assert EnabledEdges(wf) + {} == EnabledEdges(wf);
  }

  /**
    * A new connection repeats an old one exactly when its empty handle is stored as absent beside one without a handle.
    */
  lemma ConnectKeepsDistinct(wf: Workflow, op: EditOp)
    requires op.Connect? && DistinctConnections(wf.conns) && ConnectOutcome(wf, op).Changed?
    ensures DistinctConnections(ConnectOutcome(wf, op).wf.conns) <==>
      !(op.handle == Some("") && HasConnection(wf.conns, op.id, op.target, None))
  {
  }

  /** The other operations never make two connections alike. */
  lemma OpKeepsDistinct(wf: Workflow, op: EditOp, reg: BlockRegistry, tools: ToolRegistry)
    requires DistinctConnections(wf.conns) && (op.Connect? ==> op.handle != Some(""))
    ensures var out := OpOutcome(wf, op, reg, tools); out.Changed? ==> DistinctConnections(out.wf.conns)
  {
    match op {
      case Connect(_, _, _, _) =>
        if ConnectOutcome(wf, op).Changed? {
          ConnectKeepsDistinct(wf, op);
        }
      case Delete(id) => WithoutMeaning(wf.conns, id);
      case _ =>
    }
  }

  /** Two blocks connected without a handle and again with an empty one end up with the same connection twice. */
  lemma EmptyHandleDuplicates(wf: Workflow, c: Connection)
    requires Sound(wf) && c in wf.conns && c.handle.None? && c.condition.None?
    requires !HasConnection(wf.conns, c.source, c.target, Some(""))
    ensures ConnectOutcome(wf, Connect(c.source, c.target, Some(""), None)) == Changed(wf.(conns := wf.conns + [c]), [])
  {
    var i :| 0 <= i < |wf.conns| && wf.conns[i] == c;
    AppendEdge(EnabledIds(wf.blocks), wf.conns, c);
    EdgesAmongMeaning(EnabledIds(wf.blocks), wf.conns, c.source, c.target);
    assert EdgesAmong(EnabledIds(wf.blocks), wf.conns + [c]) == EnabledEdges(wf);
  }

  // ---- batches ----

  type BatchStep = (Batch, EditOp) -> Batch

  ghost function Folded(step: BatchStep, b: Batch, ops: seq<EditOp>): Batch {
    if ops == [] then b else step(Folded(step, b, ops[..|ops| - 1]), ops[|ops| - 1])
  }

  lemma {:induction false} FoldsCompose(step: BatchStep, b: Batch, xs: seq<EditOp>, ys: seq<EditOp>)
    ensures Folded(step, b, xs + ys) == Folded(step, Folded(step, b, xs), ys)
  {
    if ys == [] {
      assert xs + ys == xs;
    } else {
      var n := |ys| - 1;
      FoldsCompose(step, b, xs, ys[..n]);
      var zs := xs + ys;
      assert zs[..|zs| - 1] == xs + ys[..n] && zs[|zs| - 1] == ys[n];
    }
  }

  ghost function StepOf(reg: BlockRegistry, tools: ToolRegistry): BatchStep {
    (b: Batch, op: EditOp) => After(b, op, OpOutcome(b.wf, op, reg, tools))
  }

  lemma {:induction false} RunFolds(b: Batch, ops: seq<EditOp>, reg: BlockRegistry, tools: ToolRegistry)
    ensures Run(b, ops, reg, tools) == Folded(StepOf(reg, tools), b, ops)
  {
    if ops != [] {
      RunFolds(b, ops[..|ops| - 1], reg, tools);
    }
  }

  /** Two batches in turn give the workflow and the reports of their concatenation. */
  lemma BatchesCompose(b: Batch, xs: seq<EditOp>, ys: seq<EditOp>, reg: BlockRegistry, tools: ToolRegistry)
    ensures Run(b, xs + ys, reg, tools) == Run(Run(b, xs, reg, tools), ys, reg, tools)
  {
    RunFolds(b, xs + ys, reg, tools);
    RunFolds(b, xs, reg, tools);
    RunFolds(Run(b, xs, reg, tools), ys, reg, tools);
    FoldsCompose(StepOf(reg, tools), b, xs, ys);
  }

  lemma AfterShifts(b: Batch, clean: Batch, op: EditOp, out: Outcome)
    ensures
      var next := After(clean, op, out);
      After(Batch(clean.wf, b.skipped + clean.skipped, b.errors + clean.errors), op, out)
        == Batch(next.wf, b.skipped + next.skipped, b.errors + next.errors)
  {
  }

  /** Reports made before a batch do not influence what it does. */
  lemma {:induction false} RunFromClean(b: Batch, ops: seq<EditOp>, reg: BlockRegistry, tools: ToolRegistry)
    ensures
      var clean := Run(Batch(b.wf, [], []), ops, reg, tools);
      Run(b, ops, reg, tools) == Batch(clean.wf, b.skipped + clean.skipped, b.errors + clean.errors)
  {
    if ops != [] {
      var n := |ops| - 1;
      RunFromClean(b, ops[..n], reg, tools);
      var clean := Run(Batch(b.wf, [], []), ops[..n], reg, tools);
      AfterShifts(b, clean, ops[n], OpOutcome(clean.wf, ops[n], reg, tools));
    }
  }

  /** Applying two batches through applyOperations loses nothing against applying them as one. */
  lemma TwoCallsAreOne(wf: Workflow, xs: seq<EditOp>, ys: seq<EditOp>, reg: BlockRegistry, tools: ToolRegistry)
    ensures
      var first := Run(Batch(wf, [], []), xs, reg, tools);
      var second := Run(Batch(first.wf, [], []), ys, reg, tools);
      var both := Run(Batch(wf, [], []), xs + ys, reg, tools);
      && both.wf == second.wf && both.skipped == first.skipped + second.skipped
      && both.errors == first.errors + second.errors
  {
    BatchesCompose(Batch(wf, [], []), xs, ys, reg, tools);
    RunFromClean(Run(Batch(wf, [], []), xs, reg, tools), ys, reg, tools);
  }

  // ---- reports ----

  lemma {:induction false} ReportsStay(b: Batch, ops: seq<EditOp>, k: nat, reg: BlockRegistry, tools: ToolRegistry)
    requires k <= |ops|
    ensures
      var mid, end := Run(b, ops[..k], reg, tools), Run(b, ops, reg, tools);
      mid.skipped <= end.skipped && mid.errors <= end.errors
    decreases |ops|
  {
    if k < |ops| {
      ReportsStay(b, ops[..|ops| - 1], k, reg, tools);
      assert ops[..|ops| - 1][..k] == ops[..k];
    } else {
      assert ops[..k] == ops;
    }
  }

  /**
    * Each operation is either reported as skipped, with its reason, and changes nothing, or makes its change and
    * reports its errors; reports stay in the order of the operations.
    */
  lemma EveryOpIsReported(b: Batch, ops: seq<EditOp>, k: nat, reg: BlockRegistry, tools: ToolRegistry)
    requires k < |ops|
    ensures
      var before, after, end :=
        Run(b, ops[..k], reg, tools), Run(b, ops[..k + 1], reg, tools), Run(b, ops, reg, tools);
      && after.skipped <= end.skipped && after.errors <= end.errors
      && match OpOutcome(before.wf, ops[k], reg, tools)
         case Skipped(reason) => after == Batch(before.wf, before.skipped + [Skip(reason, ops[k])], before.errors)
         case Changed(wf, errs) => after == Batch(wf, before.skipped, before.errors + errs)
  {
    ReportsStay(b, ops, k + 1, reg, tools);
    OneMoreOp(b, ops[..k + 1], reg, tools);
    assert ops[..k + 1][..k] == ops[..k];
  }

  lemma OneMoreOp(b: Batch, ops: seq<EditOp>, reg: BlockRegistry, tools: ToolRegistry)
    requires ops != []
    ensures
      var before := Run(b, ops[..|ops| - 1], reg, tools);
      Run(b, ops, reg, tools)
      == After(before, ops[|ops| - 1], OpOutcome(before.wf, ops[|ops| - 1], reg, tools))
  {
  }

  /** The whole-graph checks report a cycle exactly when there is one, and the errors that references deserve. */
  lemma FinalErrorsMean(wf: Workflow, reg: BlockRegistry, err: ValidationError)
    ensures err in Edit.FinalErrors(wf, reg) <==>
      (err.GraphInvalid? && !Acyclic(EnabledEdges(wf))) || Deserved(wf, reg, wf.blocks, err)
  {
    ErrorsAreDeserved(wf, reg, wf.blocks, err);
  }
}
