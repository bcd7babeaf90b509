/**
  * Concurrent patches of one stored workflow: read, apply, conditional write (routes/workflows.ts, store/workflows.ts).
  */
module Versions {
  import opened Workflows
  import opened Edit
  import EditProofs
  import StepNames

  /** A patch on its way: before and after it has read the row. */
  datatype Patch =
    | Asked(ops: seq<EditOp>, ifMatch: Option<int>)
    | HasRead(ops: seq<EditOp>, ifMatch: Option<int>, wf: Workflow, version: nat)

  /**
    * The row, and the patches in flight; version n of the workflow is the n-th ever stored.
    * For each accepted patch its operations and the version it had read are kept on record.
    */
  datatype Server =
    Server(stored: seq<Workflow>, accepted: seq<seq<EditOp>>, bases: seq<nat>, patches: map<string, Patch>)

  datatype Step = Ask(id: string, ops: seq<EditOp>, ifMatch: Option<int>) | Read(id: string) | Write(id: string)

  datatype Registries = Registries(blocks: BlockRegistry, tools: ToolRegistry)

  ghost function ApplyOps(wf: Workflow, ops: seq<EditOp>, reg: Registries): Workflow {
    Run(Batch(wf, [], []), ops, reg.blocks, reg.tools).wf
  }

  datatype Update = Updated(version: nat) | VersionMismatch(current: nat)

  /** The stored row of a workflow. */
  class WorkflowRow {
    var workflow: Workflow
    var version: nat

    constructor (workflow: Workflow)
      ensures this.workflow == workflow && version == 1
    {
      this.workflow, version := workflow, 1;
    }

    /** Writes only when the caller names no version or the current one. */
    method Update(wf: Workflow, expectedVersion: Option<int>) returns (r: Update)
      modifies this
      ensures r
        == if expectedVersion.Some? && expectedVersion.value != old(version) then VersionMismatch(old(version))
           else Updated(old(version) + 1)
      ensures r.Updated? ==> workflow == wf && version == r.version
      ensures r.VersionMismatch? ==> workflow == old(workflow) && version == old(version)
    {
      if expectedVersion.Some? && version != expectedVersion.value {
        return VersionMismatch(version);
      }
      workflow, version := wf, version + 1;
      r := Updated(version);
    }
  }

  ghost function After(s: Server, step: Step, reg: Registries): Server
    requires s.stored != []
  {
    match step
    case Ask(id, ops, ifMatch) => s.(patches := s.patches[id := Asked(ops, ifMatch)])
    case Read(id) =>
      if id in s.patches && s.patches[id].Asked? then
        var p := s.patches[id];
        s.(patches := s.patches[id := HasRead(p.ops, p.ifMatch, s.stored[|s.stored| - 1], |s.stored|)])
      else s
    case Write(id) =>
      if id in s.patches && s.patches[id].HasRead? then
        var p := s.patches[id];
        if p.ifMatch.Some? && p.ifMatch.value != |s.stored| then s.(patches := s.patches - {id})
        else Server(s.stored + [ApplyOps(p.wf, p.ops, reg)], s.accepted + [p.ops], s.bases + [p.version],
                    s.patches - {id})
      else s
  }

  /** The client names a version, and not one that does not exist yet. */
  predicate Seen(s: Server, step: Step) {
    step.Ask? ==> step.ifMatch.Some? && step.ifMatch.value <= |s.stored|
  }

  ghost predicate AllSeen(s: Server, steps: seq<Step>, reg: Registries)
    requires s.stored != []
    decreases |steps|
  {
    steps == [] || (Seen(s, steps[0]) && AllSeen(After(s, steps[0], reg), steps[1..], reg))
  }

  ghost function AfterAll(s: Server, steps: seq<Step>, reg: Registries): (s': Server)
    requires s.stored != []
    ensures s'.stored != []
    decreases |steps|
  {
    if steps == [] then s else AfterAll(After(s, steps[0], reg), steps[1..], reg)
  }

  /** A patch read a version that exists, and no older one than it names. */
  ghost predicate PatchOk(s: Server, p: Patch) {
    && p.ifMatch.Some?
    && match p
       case Asked(_, v) => v.value <= |s.stored|
       case HasRead(_, v, wf, n) => 1 <= n <= |s.stored| && wf == s.stored[n - 1] && v.value <= n
  }

  /** Every accepted patch had read the version directly before the one it stored. */
  ghost predicate Serial(s: Server) {
    |s.bases| == |s.accepted| && forall k :: 0 <= k < |s.bases| ==> s.bases[k] == k + 1
  }

  /** Each version was made from the one before it by the operations accepted with it. */
  ghost predicate Chained(s: Server, reg: Registries) {
    && |s.stored| == |s.accepted| + 1 && Serial(s)
    && forall k :: 0 <= k < |s.accepted| ==> s.stored[k + 1] == ApplyOps(s.stored[k], s.accepted[k], reg)
  }

  ghost predicate Orderly(s: Server, reg: Registries) {
    Chained(s, reg) && forall id :: id in s.patches ==> PatchOk(s, s.patches[id])
  }

  lemma StepKeepsOrderly(s: Server, step: Step, reg: Registries)
    requires Orderly(s, reg) && Seen(s, step)
    ensures Orderly(After(s, step, reg), reg)
  {
    if step.Write? {
      WriteKeepsOrderly(s, step.id, reg);
    } else {
      assert Chained(After(s, step, reg), reg);
    }
  }

  lemma WriteKeepsOrderly(s: Server, id: string, reg: Registries)
    requires Orderly(s, reg)
    ensures Orderly(After(s, Write(id), reg), reg)
  {
    var s' := After(s, Write(id), reg);
    forall other | other in s'.patches
      ensures PatchOk(s', s'.patches[other])
    {
      StillOk(s, s', s.patches[other]);
    }
    if s' != s && s'.stored != s.stored {
      AcceptedIsChained(s, s.patches[id], reg);
    }
  }

  lemma StillOk(s: Server, s': Server, p: Patch)
    requires PatchOk(s, p) && s.stored <= s'.stored
    ensures PatchOk(s', p)
  {
  }

  /** A patch that names the current version had read it. */
  lemma AcceptedIsChained(s: Server, p: Patch, reg: Registries)
    requires Chained(s, reg) && PatchOk(s, p) && p.HasRead? && p.ifMatch.value == |s.stored|
    ensures p.version == |s.stored|
    ensures
      var next := ApplyOps(p.wf, p.ops, reg);
      Chained(Server(s.stored + [next], s.accepted + [p.ops], s.bases + [p.version], s.patches), reg)
  {
  }

  ghost function Concat(batches: seq<seq<EditOp>>): seq<EditOp> {
    if batches == [] then [] else Concat(batches[..|batches| - 1]) + batches[|batches| - 1]
  }

  /** Every version is the first one with all batches accepted since applied as one. */
  lemma {:induction false} VersionIsAllBatches(s: Server, k: nat, reg: Registries)
    requires Chained(s, reg) && k <= |s.accepted|
    ensures s.stored[k] == ApplyOps(s.stored[0], Concat(s.accepted[..k]), reg)
  {
    if k > 0 {
      VersionIsAllBatches(s, k - 1, reg);
      assert s.accepted[..k][..k - 1] == s.accepted[..k - 1];
      EditProofs.TwoCallsAreOne(s.stored[0], Concat(s.accepted[..k - 1]), s.accepted[k - 1], reg.blocks, reg.tools);
    }
  }

  /**
    * No lost updates: whatever the interleaving of patches that name versions they have seen, the stored workflow is
    * the first one with the operations of every accepted patch applied, in the order they were accepted.
    */
  lemma {:induction false} NoLostUpdates(s: Server, steps: seq<Step>, reg: Registries)
    requires Orderly(s, reg) && AllSeen(s, steps, reg)
    ensures
      var s' := AfterAll(s, steps, reg);
      && Orderly(s', reg) && s.stored <= s'.stored && |s'.stored| == |s'.accepted| + 1
      && s'.stored[|s'.stored| - 1] == ApplyOps(s'.stored[0], Concat(s'.accepted), reg)
    decreases |steps|
  {
    if steps == [] {
      VersionIsAllBatches(s, |s.accepted|, reg);
      assert s.accepted[..|s.accepted|] == s.accepted;
    } else {
      StepKeepsOrderly(s, steps[0], reg);
      NoLostUpdates(After(s, steps[0], reg), steps[1..], reg);
    }
  }

  /** An accepted write of a patch that names version v stores the operations applied to version v, as version v + 1. */
  lemma AcceptedNamesItsBase(s: Server, id: string, reg: Registries)
    requires Orderly(s, reg) && id in s.patches && s.patches[id].HasRead?
    ensures
      var p, s' := s.patches[id], After(s, Write(id), reg);
      if p.ifMatch.value == |s.stored| then
        s'.stored == s.stored + [ApplyOps(s.stored[p.ifMatch.value - 1], p.ops, reg)]
      else s'.stored == s.stored
  {
  }

  /** A write is accepted exactly when its patch names no version or the current one, and stores what the patch made. */
  lemma AcceptedExactly(s: Server, id: string, reg: Registries)
    requires s.stored != [] && id in s.patches && s.patches[id].HasRead?
    ensures
      var p, s' := s.patches[id], After(s, Write(id), reg);
      && id !in s'.patches && (forall other :: other != id && other in s.patches ==>
           other in s'.patches && s'.patches[other] == s.patches[other])
      && if p.ifMatch.None? || p.ifMatch.value == |s.stored| then
           && s'.stored == s.stored + [Run(Batch(p.wf, [], []), p.ops, reg.blocks, reg.tools).wf]
           && s'.accepted == s.accepted + [p.ops] && s'.bases == s.bases + [p.version]
         else s'.stored == s.stored && s'.accepted == s.accepted && s'.bases == s.bases
  {
  }

  // ---- a version that does not exist yet ----

  lemma {:induction false} Joined(s: Server, a: seq<Step>, b: seq<Step>, reg: Registries)
    requires s.stored != [] && AllSeen(s, a, reg) && AllSeen(AfterAll(s, a, reg), b, reg)
    ensures AllSeen(s, a + b, reg) && AfterAll(s, a + b, reg) == AfterAll(AfterAll(s, a, reg), b, reg)
    decreases |a|
  {
    if a == [] {
      assert a + b == b;
    } else {
      Joined(After(s, a[0], reg), a[1..], b, reg);
      assert (a + b)[1..] == a[1..] + b;
    }
  }

  lemma OneStep(s: Server, step: Step, reg: Registries)
    requires s.stored != [] && Seen(s, step)
    ensures AllSeen(s, [step], reg) && AfterAll(s, [step], reg) == After(s, step, reg)
  {
    assert [step][1..] == [];
    assert AllSeen(After(s, step, reg), [], reg);
  }

  /** Somebody else reads the current version, names it, and writes. */
  function Others(id: string, ops: seq<EditOp>, version: nat): seq<Step> {
    [Ask(id, ops, Some(version)), Read(id), Write(id)]
  }

  lemma OthersAccepted(s: Server, id: string, ops: seq<EditOp>, reg: Registries)
    requires s.stored != [] && id !in s.patches
    ensures
      var n := |s.stored|;
      && AllSeen(s, Others(id, ops, n), reg)
      && AfterAll(s, Others(id, ops, n), reg)
         == Server(s.stored + [ApplyOps(s.stored[n - 1], ops, reg)], s.accepted + [ops], s.bases + [n], s.patches)
  {
    var n, steps := |s.stored|, Others(id, ops, |s.stored|);
    var s1 := After(s, steps[0], reg);
    var s2 := After(s1, steps[1], reg);
    var s3 := After(s2, steps[2], reg);
    assert s3.patches == s.patches;
    assert AllSeen(s3, [], reg) && AfterAll(s3, [], reg) == s3;
    assert AllSeen(s2, [Write(id)], reg) && AfterAll(s2, [Write(id)], reg) == s3;
    assert AllSeen(s1, [Read(id), Write(id)], reg) && AfterAll(s1, [Read(id), Write(id)], reg) == s3;
    assert steps[1..] == [Read(id), Write(id)];
  }

  /** Some number of patches of others are accepted one after the other; the patch in flight stays. */
  lemma {:induction false} OthersGoFirst(s: Server, id: string, ops: seq<EditOp>, count: nat, reg: Registries)
    returns (steps: seq<Step>)
    requires s.stored != [] && id !in s.patches
    ensures AllSeen(s, steps, reg)
    ensures
      var s' := AfterAll(s, steps, reg);
      && s'.patches == s.patches && |s'.stored| == |s.stored| + count && |s'.bases| == |s.bases| + count
      && s'.accepted == s.accepted + seq(count, i => ops)
    decreases count
  {
    steps := [];
    if count == 0 {
      assert s.accepted + seq(count, i => ops) == s.accepted;
    } else {
      var rest := OthersGoFirst(s, id, ops, count - 1, reg);
      var s1 := AfterAll(s, rest, reg);
      OthersAccepted(s1, id, ops, reg);
      Joined(s, rest, Others(id, ops, |s1.stored|), reg);
      steps := rest + Others(id, ops, |s1.stored|);
      assert s.accepted + seq(count - 1, i => ops) + [ops] == s.accepted + seq(count, i => ops);
    }
  }

  /**
    * A patch that names no version, or one that does not exist yet, can lose others' updates: whatever the operations,
    * some orderly patches of others are accepted after it read, and then it is, on top of what it had read.
    */
  lemma UnseenVersionLosesUpdates(s: Server, id: string, mine: seq<EditOp>, ifMatch: Option<int>, other: string,
                                  theirs: seq<EditOp>, reg: Registries)
    returns (steps: seq<Step>, count: nat)
    requires s.stored != [] && id !in s.patches && other !in s.patches && id != other
    requires !Seen(s, Ask(id, mine, ifMatch))
    ensures AllSeen(After(s, Ask(id, mine, ifMatch), reg), steps, reg) && count >= 1
    ensures
      var s' := AfterAll(After(s, Ask(id, mine, ifMatch), reg), steps, reg);
      && s'.accepted == s.accepted + seq(count, i => theirs) + [mine] && |s'.stored| == |s.stored| + count + 1
      && s'.stored[|s'.stored| - 1] == ApplyOps(s.stored[|s.stored| - 1], mine, reg)
      && |s'.bases| == |s.bases| + count + 1 && s'.bases[|s'.bases| - 1] == |s.stored|
  {
    count := if ifMatch.None? then 1 else ifMatch.value - |s.stored|;
    var s1 := After(s, Ask(id, mine, ifMatch), reg);
    var s2 := After(s1, Read(id), reg);
    var rest := OthersGoFirst(s2, other, theirs, count, reg);
    var s3 := AfterAll(s2, rest, reg);
    assert s3.patches[id] == HasRead(mine, ifMatch, s.stored[|s.stored| - 1], |s.stored|);
    OneStep(s3, Write(id), reg);
    Joined(s2, rest, [Write(id)], reg);
    steps := [Read(id)] + (rest + [Write(id)]);
    assert steps[1..] == rest + [Write(id)];
  }

  /**
    * A new patch is safe exactly when it names a version, and one that exists when it is asked for: then, whatever
    * orderly clients do next, every accepted patch had read the version directly before the one it stored.
    */
  lemma SafeExactlyWhenSeen(s: Server, id: string, ops: seq<EditOp>, ifMatch: Option<int>, reg: Registries)
    requires Orderly(s, reg) && id !in s.patches
    ensures
      var asked := After(s, Ask(id, ops, ifMatch), reg);
      Seen(s, Ask(id, ops, ifMatch)) <==>
      forall steps :: AllSeen(asked, steps, reg) ==> Serial(AfterAll(asked, steps, reg))
  {
    var asked := After(s, Ask(id, ops, ifMatch), reg);
    if Seen(s, Ask(id, ops, ifMatch)) {
      StepKeepsOrderly(s, Ask(id, ops, ifMatch), reg);
      forall steps | AllSeen(asked, steps, reg)
        ensures Serial(AfterAll(asked, steps, reg))
      {
        NoLostUpdates(asked, steps, reg);
      }
    } else {
      var other := StepNames.Resolved(s.patches.Keys + {id}, "");
      var steps, count := UnseenVersionLosesUpdates(s, id, ops, ifMatch, other, [], reg);
      var s' := AfterAll(asked, steps, reg);
      assert !Serial(s');
    }
  }
}
