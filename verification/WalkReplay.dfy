/**
  * The walker as the function of a durable run (runner/runtime-workflow.ts): its step names are never suffixed, a step
  * error ends it, and a completed run holds the outputs of one walk whose steps return what the tables store.
  */
module WalkReplay {
  import opened Graphs
  import opened Workflows
  import opened Resolver
  import opened References
  import opened Dag
  import opened Branches
  import opened Walk
  import opened WalkProofs
  import opened StepNames
  import Retry
  import Store
  import Replay
  import ReplaySafety
  import ReplayProofs
  import ReplayTraces
  import ReplayDeterminism
  import StepResults
  import RunResults

  // ---- the step call of a block ----

  /** One second, doubling up to a hundred, ten tries. */
  const STEP_POLICY := Retry.Policy(1000, 2.0, 100000, 10)

  function Accept(v: Value): Option<Value> {
    Some(v)
  }

  function Wait(kind: Store.StepKind, name: string, signal: string): Replay.Action {
    Replay.Step(kind, name, signal, Null, Replay.TERMINAL_POLICY, Accept)
  }

  function WaitCall(c: Config, block: Block, params: Value): Option<Replay.Action> {
    if block.kind == "wait_duration" then
      if UnitMs(c.asText(FieldOf(params, "unit"))).None? then None
      else Some(Wait(Store.SleepStep, StepName(block.id, "sleep"), ""))
    else if block.kind == "wait_for_event" then
      Some(Wait(Store.SignalWait, StepName(block.id, "wait"), c.asText(FieldOf(params, "eventName"))))
    else if block.kind == "human_approval" then
      var given := FieldOf(params, "resumeToken");
      var token := if Absent(given) then "tok_" + block.id else c.asText(given);
      Some(Wait(Store.SignalWait, StepName(block.id, "wait"), "human_approval:" + token))
    else None
  }

  function ComputeCall(host: Host, def: BlockDef, block: Block, params: Value): Option<Replay.Action> {
    var toolId := host.toolOf(block.kind, params);
    if toolId !in def.access || toolId !in host.tools then None
    else Some(Replay.Step(Store.FunctionStep, StepName(block.id, "run"), "", Null, STEP_POLICY, Accept))
  }

  /** The step call that a block makes, if it gets to one. */
  function CallOf(c: Config, host: Host, s: State, id: Id): Option<Replay.Action>
    requires s.Going?
  {
    if id in s.skipped then None
    else
      match ById(c.wf.blocks, id)
      case None => None
      case Some(block) =>
        if block.kind !in c.reg || c.reg[block.kind].kind.Trigger? then None
        else
          var def := c.reg[block.kind];
          var params := ResolveValue(Fields(block.params), ContextOf(c, s.outputs)).value;
          if def.kind.Wait? then WaitCall(c, block, params) else ComputeCall(host, def, block, params)
  }

  /** The step API's answer to a signal wait: nothing after its time, otherwise an envelope of the data. */
  function AsSignal(v: Value): SignalResult {
    if v == Null then TimedOut else Delivered(FieldOf(v, "data"))
  }

  // ---- where the walk stands ----

  /**
    * A walk of one workflow: its graph and order, its tools, the clock's reading after each sleep,
    * the step call of each block, and what visiting it does.
    */
  datatype Walker = Walker(
    c: Config,
    host: Host,
    clock: string -> Value,
    nodes: Nodes,
    e: Edges,
    order: seq<Id>,
    call: (State, Id) -> Option<Replay.Action>,
    visit: (Host, State, Id) -> State)

  ghost function CallFn(c: Config, host: Host): (State, Id) -> Option<Replay.Action> {
    (s: State, id: Id) => if s.Going? then CallOf(c, host, s, id) else None
  }

  ghost function VisitFn(c: Config, nodes: Nodes, e: Edges): (Host, State, Id) -> State {
    (h: Host, s: State, id: Id) => if s.Going? && id in nodes then Visited(c, h, nodes, e, s, id) else s
  }

  /** The calls and visits are those of the workflow's blocks. */
  ghost predicate Fits(wk: Walker) {
    wk.call == CallFn(wk.c, wk.host) && wk.visit == VisitFn(wk.c, wk.nodes, wk.e)
  }

  ghost predicate Proper(wk: Walker) {
    Fits(wk) && Sorted(wk.nodes, wk.e, wk.order) && wk.nodes.Keys == EnabledIds(wk.c.wf.blocks)
  }

  /** A host whose steps all return v. */
  function Answering(wk: Walker, v: Value): Host {
    wk.host.(run := (n: string, tool: string, p: Value) => Returned(v),
             sleep := (n: string, d: Duration) => Returned(wk.clock(n)),
             waitForSignal := (n: string, signal: string, d: Option<Duration>) => AsSignal(v))
  }

  /** Before the k-th block of the order, or broken off by a step's error. */
  datatype Stand = At(k: nat, s: State) | Broken

  ghost predicate Calling(wk: Walker, st: Stand) {
    st.At? && st.s.Going? && st.k < |wk.order| && wk.call(st.s, wk.order[st.k]).Some?
  }

  /** Goes on to the next block that calls a step. */
  ghost function Quiet(wk: Walker, k: nat, s: State): (st: Stand)
    requires k <= |wk.order|
    ensures st.At? && k <= st.k <= |wk.order| && (st.s.Going? && !Calling(wk, st) ==> st.k == |wk.order|)
    decreases |wk.order| - k
  {
    if s.Raised? || k == |wk.order| || wk.call(s, wk.order[k]).Some? then At(k, s)
    else Quiet(wk, k + 1, wk.visit(wk.host, s, wk.order[k]))
  }

  ghost function Answered(wk: Walker, st: Stand, out: Replay.Outcome): (st': Stand)
    requires Calling(wk, st)
    ensures st'.At? ==> st.k < st'.k <= |wk.order| && (st'.s.Going? && !Calling(wk, st') ==> st'.k == |wk.order|)
  {
    match out
    case Raised(_) => Broken
    case Returned(v) => Quiet(wk, st.k + 1, NextState(wk, st, v))
  }

  /** The block that called has got its answer. */
  ghost function NextState(wk: Walker, st: Stand, v: Value): State
    requires Calling(wk, st)
  {
    wk.visit(Answering(wk, v), st.s, wk.order[st.k])
  }

  /** Where the walk stands after its steps gave these outcomes. */
  ghost function StandAfter(wk: Walker, outs: seq<Replay.Outcome>): (st: Stand)
    ensures st.At? ==> st.k <= |wk.order| && (st.s.Going? && !Calling(wk, st) ==> st.k == |wk.order|)
  {
    if outs == [] then Quiet(wk, 0, Going(map[], {}))
    else
      var before := StandAfter(wk, outs[..|outs| - 1]);
      if Calling(wk, before) then Answered(wk, before, outs[|outs| - 1]) else before
  }

  // ---- the function of the run ----

  /** The outputs in the order of the blocks. */
  function Listed(order: seq<Id>, outputs: map<Id, Value>): seq<(string, Value)> {
    if order == [] then []
    else (if order[0] in outputs then [(order[0], outputs[order[0]])] else []) + Listed(order[1..], outputs)
  }

  /** Each output is listed under the id of its block, and nothing else is. */
  lemma {:induction false} ListedTells(order: seq<Id>, outputs: map<Id, Value>, id: Id)
    ensures Lookup(Listed(order, outputs), id) == if id in order && id in outputs then Some(outputs[id]) else None
  {
    if order != [] {
      var rest := Listed(order[1..], outputs);
      ListedTells(order[1..], outputs, id);
      assert order == [order[0]] + order[1..];
      if order[0] in outputs {
        assert Listed(order, outputs)[1..] == rest;
      } else {
        assert Listed(order, outputs) == rest;
      }
    }
  }

  function ResultOf(order: seq<Id>, outputs: map<Id, Value>): Value {
    Record([("outputs", Record(Listed(order, outputs)))])
  }

  ghost function ActionAt(wk: Walker, st: Stand): Replay.Action {
    match st
    case Broken => Replay.Propagate
    case At(_, Raised(m)) => Replay.Throw(Replay.Message(m))
    case At(k, Going(outputs, _)) =>
      if Calling(wk, st) then wk.call(st.s, wk.order[k]).value
      else Replay.Finish(ResultOf(wk.order, outputs))
  }

  ghost function WalkerFn(wk: Walker): Replay.WorkflowFn {
    (outs: seq<Replay.Outcome>) => ActionAt(wk, StandAfter(wk, outs))
  }

  ghost function WalkerOf(c: Config, host: Host, clock: string -> Value): (wk: Walker)
    requires Acyclic(EnabledEdges(c.wf))
    ensures Proper(wk)
  {
    WalkIsSorted(c.wf);
    var nodes, e := GraphOf(c.wf).nodes, EnabledEdges(c.wf);
    Walker(c, host, clock, nodes, e, OrderOf(GraphOf(c.wf)), CallFn(c, host), VisitFn(c, nodes, e))
  }

  /** The function that the runtime registers, for a run with this workflow as its input. */
  ghost function RuntimeFn(c: Config, host: Host, clock: string -> Value): Replay.WorkflowFn {
    if Acyclic(EnabledEdges(c.wf)) then WalkerFn(WalkerOf(c, host, clock))
    else (outs: seq<Replay.Outcome>) => Replay.Throw(Replay.Message("Workflow contains a cycle"))
  }

  lemma CallsAreSteps(wk: Walker, st: Stand)
    requires Fits(wk)
    ensures ActionAt(wk, st).Step? <==> Calling(wk, st)
    ensures Calling(wk, st) ==> exists suffix ::
      suffix in {"run", "sleep", "wait"} && ActionAt(wk, st).base == StepName(wk.order[st.k], suffix)
  {
    if Calling(wk, st) {
      ByIdFinds(wk.c.wf.blocks, wk.order[st.k]);
    }
  }

  // ---- a step error ends it ----

  lemma {:induction false} RaisedBreaks(wk: Walker, outs: seq<Replay.Outcome>, k: nat)
    requires k < |outs| && outs[k].Raised?
    ensures !Calling(wk, StandAfter(wk, outs))
  {
    if k < |outs| - 1 {
      RaisedBreaks(wk, outs[..|outs| - 1], k);
    }
  }

  /** After a step error the walk calls no further step. */
  lemma WalkerIsStraight(c: Config, host: Host, clock: string -> Value)
    ensures ReplayDeterminism.Straight(RuntimeFn(c, host, clock))
  {
    if Acyclic(EnabledEdges(c.wf)) {
      var wk := WalkerOf(c, host, clock);
      forall outs: seq<Replay.Outcome>, k: nat | k < |outs| && outs[k].Raised?
        ensures !WalkerFn(wk)(outs).Step?
      {
        RaisedBreaks(wk, outs, k);
        CallsAreSteps(wk, StandAfter(wk, outs));
      }
    }
  }

  // ---- step names ----

  /** From one call to the next the walk has moved on in the order. */
  lemma {:induction false} CallsMoveOn(wk: Walker, outs: seq<Replay.Outcome>, i: nat, j: nat)
    requires i < j <= |outs| && Calling(wk, StandAfter(wk, outs[..j]))
    ensures Calling(wk, StandAfter(wk, outs[..i])) && StandAfter(wk, outs[..i]).k < StandAfter(wk, outs[..j]).k
  {
    var before := outs[..j - 1];
    assert outs[..j][..j - 1] == before;
    assert Calling(wk, StandAfter(wk, before));
    if i < j - 1 {
      CallsMoveOn(wk, outs, i, j - 1);
    }
  }

  lemma BasesDiffer(wk: Walker, outs: seq<Replay.Outcome>, i: nat, j: nat)
    requires Proper(wk) && ReplayTraces.Calls(WalkerFn(wk), outs) && i < j < |outs|
    ensures WalkerFn(wk)(outs[..i]).base != WalkerFn(wk)(outs[..j]).base
  {
    var a, b := StandAfter(wk, outs[..i]), StandAfter(wk, outs[..j]);
    assert WalkerFn(wk)(outs[..j]).Step?;
    CallsAreSteps(wk, a);
    CallsAreSteps(wk, b);
    CallsMoveOn(wk, outs, i, j);
    var x :| x in {"run", "sleep", "wait"} && ActionAt(wk, a).base == StepName(wk.order[a.k], x);
    var y :| y in {"run", "sleep", "wait"} && ActionAt(wk, b).base == StepName(wk.order[b.k], y);
    if ActionAt(wk, a).base == ActionAt(wk, b).base {
      StepNameIsOneToOne(wk.order[a.k], x, wk.order[b.k], y);
    }
  }

  /** The runtime never suffixes a step name of a walk: each is the key of its block, and no two are the same. */
  lemma WalkerKeysAreNeverSuffixed(wk: Walker, outs: seq<Replay.Outcome>, k: nat)
    requires Proper(wk) && ReplayTraces.Calls(WalkerFn(wk), outs) && k < |outs|
    ensures Distinct(ReplayTraces.NamesAlong(WalkerFn(wk), outs))
    ensures
      var st := StandAfter(wk, outs[..k]);
      && Calling(wk, st)
      && ReplayTraces.NamesAlong(WalkerFn(wk), outs)[k] == ActionAt(wk, st).base
      && exists suffix ::
           suffix in {"run", "sleep", "wait"} && ActionAt(wk, st).base == StepName(wk.order[st.k], suffix)
  {
    var fn := WalkerFn(wk);
    var bases := ReplayTraces.BasesAlong(fn, outs);
    forall i, j | 0 <= i < j < |bases|
      ensures bases[i] != bases[j]
    {
      BasesDiffer(wk, outs, i, j);
    }
    ReplayTraces.NamesAlongResolve(fn, outs);
    DistinctNamesStay(bases);
    assert fn(outs[..k]).Step?;
    CallsAreSteps(wk, StandAfter(wk, outs[..k]));
  }

  // ---- the call is what the block asks of its host ----

  /** The hosts answer the step call alike. */
  ghost predicate AnswerAlike(h: Host, h': Host, call: Replay.Action)
    requires call.Step?
  {
    match call.kind
    case FunctionStep => forall tool, p :: h.run(call.base, tool, p) == h'.run(call.base, tool, p)
    case SleepStep => forall d :: h.sleep(call.base, d) == h'.sleep(call.base, d)
    case SignalWait =>
      forall d :: h.waitForSignal(call.base, call.target, d) == h'.waitForSignal(call.base, call.target, d)
    case _ => false
  }

  /** A block asks its host for nothing but the answer to its step call: that kind, that name and that signal. */
  lemma AsksWhatItCalls(c: Config, h: Host, h': Host, nodes: Nodes, e: Edges, s: State, id: Id)
    requires s.Going? && id in nodes
    requires h.toolOf == h'.toolOf && h.toolParams == h'.toolParams && h.tools == h'.tools
    requires
      var call := CallOf(c, h, s, id);
      call.Some? ==> call.value.Step? && AnswerAlike(h, h', call.value)
    ensures Visited(c, h, nodes, e, s, id) == Visited(c, h', nodes, e, s, id)
  {
    if id !in s.skipped && ById(c.wf.blocks, id).Some? {
      var block := ById(c.wf.blocks, id).value;
      ByIdFinds(c.wf.blocks, id);
      if block.kind in c.reg && c.reg[block.kind].kind.Wait? {
        WaitsForItsCall(c, h, h', block, ResolveValue(Fields(block.params), ContextOf(c, s.outputs)).value);
      }
    }
  }

  lemma WaitsForItsCall(c: Config, h: Host, h': Host, block: Block, params: Value)
    requires
      var call := WaitCall(c, block, params);
      call.Some? ==> AnswerAlike(h, h', call.value)
    ensures RunWait(c, h, block, params) == RunWait(c, h', block, params)
  {
  }

  // ---- a replayed walk is a walk ----

  /** The host has the walker's tools, and gives for a step call what the runtime gave. */
  ghost predicate Recalls(wk: Walker, h: Host, fn: Replay.WorkflowFn, outs: seq<Replay.Outcome>) {
    && SameTools(wk, h)
    && forall k {:trigger outs[k]} :: 0 <= k < |outs| && outs[k].Returned? ==>
         Gives(wk, h, ReplayTraces.NamesAlong(fn, outs)[k], outs[k].value)
  }

  ghost predicate Gives(wk: Walker, h: Host, name: string, v: Value) {
    && (forall tool, p :: h.run(name, tool, p) == Returned(v))
    && (forall d :: h.sleep(name, d) == Returned(wk.clock(name)))
    && (forall signal, d :: h.waitForSignal(name, signal, d) == AsSignal(v))
  }

  ghost predicate SameTools(wk: Walker, h: Host) {
    h.toolOf == wk.host.toolOf && h.toolParams == wk.host.toolParams && h.tools == wk.host.tools
  }

  /** A block that calls no step does the same under the host. */
  ghost predicate AgreesWithoutCall(wk: Walker, h: Host) {
    forall s: State, id {:trigger wk.visit(h, s, id)} ::
      s.Going? && wk.call(s, id).None? ==> wk.visit(h, s, id) == wk.visit(wk.host, s, id)
  }

  lemma SameWithoutCall(wk: Walker, h: Host)
    requires Fits(wk) && SameTools(wk, h)
    ensures AgreesWithoutCall(wk, h)
  {
    forall s: State, id | s.Going? && wk.call(s, id).None?
      ensures wk.visit(h, s, id) == wk.visit(wk.host, s, id)
    {
      if id in wk.nodes {
        VisitedWithoutCall(wk.c, wk.host, h, wk.nodes, wk.e, s, id);
      }
    }
  }

  lemma VisitedWithoutCall(c: Config, host: Host, h: Host, nodes: Nodes, e: Edges, s: State, id: Id)
    requires s.Going? && id in nodes && CallOf(c, host, s, id).None?
    requires h.toolOf == host.toolOf && h.toolParams == host.toolParams && h.tools == host.tools
    ensures Visited(c, h, nodes, e, s, id) == Visited(c, host, nodes, e, s, id)
  {
  }

  /** A block that calls a step does the same under any host that answers this call alike. */
  lemma SameAnswer(wk: Walker, h: Host, s: State, id: Id, v: Value)
    requires Fits(wk) && SameTools(wk, h) && s.Going? && wk.call(s, id).Some?
    requires Gives(wk, h, wk.call(s, id).value.base, v)
    ensures wk.visit(h, s, id) == wk.visit(Answering(wk, v), s, id)
  {
    if id in wk.nodes {
      VisitedAnswered(wk.c, wk.host, h, Answering(wk, v), wk.nodes, wk.e, s, id);
    }
  }

  lemma VisitedAnswered(c: Config, host: Host, h: Host, g: Host, nodes: Nodes, e: Edges, s: State, id: Id)
    requires s.Going? && id in nodes && CallOf(c, host, s, id).Some?
    requires h.toolOf == g.toolOf == host.toolOf && h.toolParams == g.toolParams == host.toolParams
    requires h.tools == g.tools == host.tools
    requires
      var name := CallOf(c, host, s, id).value.base;
      && (forall tool, p :: h.run(name, tool, p) == g.run(name, tool, p))
      && (forall d :: h.sleep(name, d) == g.sleep(name, d))
      && (forall signal, d :: h.waitForSignal(name, signal, d) == g.waitForSignal(name, signal, d))
    ensures Visited(c, h, nodes, e, s, id) == Visited(c, g, nodes, e, s, id)
  {
  }

  /** The walk under the host, after the first k blocks. */
  ghost function Trace(wk: Walker, h: Host, k: nat): State
    requires k <= |wk.order|
  {
    if k == 0 then Going(map[], {})
    else
      var s := Trace(wk, h, k - 1);
      if s.Going? then wk.visit(h, s, wk.order[k - 1]) else s
  }

  lemma {:induction false} TraceIsWalk(wk: Walker, h: Host, k: nat)
    requires Proper(wk) && k <= |wk.order|
    ensures Trace(wk, h, k) == StateAt(wk.c, h, wk.nodes, wk.e, wk.order, k)
  {
    if k > 0 {
      TraceIsWalk(wk, h, k - 1);
      StateStep(wk.c, h, wk.nodes, wk.e, wk.order, k - 1);
    }
  }

  lemma {:induction false} QuietIsWalk(wk: Walker, h: Host, k: nat, s: State)
    requires AgreesWithoutCall(wk, h) && k <= |wk.order| && s == Trace(wk, h, k)
    ensures
      var st := Quiet(wk, k, s);
      st.s == Trace(wk, h, st.k)
    decreases |wk.order| - k
  {
    if s.Going? && k < |wk.order| && wk.call(s, wk.order[k]).None? {
      assert Trace(wk, h, k + 1) == wk.visit(h, s, wk.order[k]);
      QuietIsWalk(wk, h, k + 1, wk.visit(wk.host, s, wk.order[k]));
    }
  }

  /** Each call that was answered gets the same answer from the host. */
  ghost predicate AgreesOnCalls(wk: Walker, h: Host, outs: seq<Replay.Outcome>) {
    forall k: nat {:trigger outs[k]} :: k < |outs| && outs[k].Returned? ==>
      var st := StandAfter(wk, outs[..k]);
      Calling(wk, st) ==> wk.visit(h, st.s, wk.order[st.k]) == NextState(wk, st, outs[k].value)
  }

  lemma CallsAgree(wk: Walker, h: Host, outs: seq<Replay.Outcome>)
    requires Proper(wk) && ReplayTraces.Calls(WalkerFn(wk), outs) && Recalls(wk, h, WalkerFn(wk), outs)
    ensures AgreesOnCalls(wk, h, outs)
  {
    forall k: nat | k < |outs| && outs[k].Returned?
      ensures
        var st := StandAfter(wk, outs[..k]);
        Calling(wk, st) ==> wk.visit(h, st.s, wk.order[st.k]) == NextState(wk, st, outs[k].value)
    {
      var st := StandAfter(wk, outs[..k]);
      WalkerKeysAreNeverSuffixed(wk, outs, k);
      SameAnswer(wk, h, st.s, wk.order[st.k], outs[k].value);
    }
  }

  /** As far as its steps have answered, the replayed walk stands where the walk does under a host that agrees. */
  lemma {:induction false} Retraces(wk: Walker, h: Host, outs: seq<Replay.Outcome>, j: nat)
    requires AgreesWithoutCall(wk, h) && AgreesOnCalls(wk, h, outs) && j <= |outs|
    ensures
      var st := StandAfter(wk, outs[..j]);
      st.At? ==> st.s == Trace(wk, h, st.k)
  {
    if j == 0 {
      QuietIsWalk(wk, h, 0, Going(map[], {}));
    } else {
      Retraces(wk, h, outs, j - 1);
      RetracesAnswer(wk, h, outs, j - 1);
    }
  }

  lemma RetracesAnswer(wk: Walker, h: Host, outs: seq<Replay.Outcome>, j: nat)
    requires AgreesWithoutCall(wk, h) && AgreesOnCalls(wk, h, outs) && j < |outs|
    requires
      var st := StandAfter(wk, outs[..j]);
      st.At? ==> st.s == Trace(wk, h, st.k)
    ensures
      var st := StandAfter(wk, outs[..j + 1]);
      st.At? ==> st.s == Trace(wk, h, st.k)
  {
    assert outs[..j + 1][..j] == outs[..j];
    var st := StandAfter(wk, outs[..j]);
    if Calling(wk, st) && outs[j].Returned? {
      QuietIsWalk(wk, h, st.k + 1, NextState(wk, st, outs[j].value));
    }
  }

  lemma RetracesWalk(wk: Walker, h: Host, outs: seq<Replay.Outcome>)
    requires Proper(wk) && ReplayTraces.Calls(WalkerFn(wk), outs) && Recalls(wk, h, WalkerFn(wk), outs)
    ensures
      var st := StandAfter(wk, outs);
      st.At? ==> st.s == StateAt(wk.c, h, wk.nodes, wk.e, wk.order, st.k)
  {
    SameWithoutCall(wk, h);
    CallsAgree(wk, h, outs);
    Retraces(wk, h, outs, |outs|);
    assert outs[..|outs|] == outs;
    var st := StandAfter(wk, outs);
    if st.At? {
      TraceIsWalk(wk, h, st.k);
    }
  }

  /** When the replayed walk finishes, its result is the outputs of the walk. */
  lemma FinishIsWalk(c: Config, host: Host, clock: string -> Value, h: Host, outs: seq<Replay.Outcome>, result: Value)
    requires Acyclic(EnabledEdges(c.wf))
    requires
      var wk := WalkerOf(c, host, clock);
      && ReplayTraces.Calls(WalkerFn(wk), outs) && Recalls(wk, h, WalkerFn(wk), outs)
      && RunResults.ReturnsAfter(WalkerFn(wk), outs, result)
    ensures WalkOf(c, h).Outputs? && result == ResultOf(OrderOf(GraphOf(c.wf)), WalkOf(c, h).outputs)
  {
    var wk := WalkerOf(c, host, clock);
    RetracesWalk(wk, h, outs);
    CallsAreSteps(wk, StandAfter(wk, outs));
  }

// ---- the clock ----

  /** The two walks stand before one block with the same branches cut, unless one of them has been refused. */
  ghost predicate Alike(a: Stand, b: Stand) {
    a.At? && b.At? && a.s.Going? && b.s.Going? ==> a.k == b.k && a.s.skipped == b.s.skipped
  }

  ghost predicate CutAlike(s: State, u: State) {
    s.Going? && u.Going? ==> s.skipped == u.skipped
  }

  /** With the same branches cut, a block that calls no step cuts alike, or is refused where the other one calls. */
  ghost predicate MovesAlike(wk: Walker) {
    forall s: State, u: State, id {:trigger wk.call(s, id), wk.call(u, id)} ::
      s.Going? && u.Going? && CutAlike(s, u) && id in wk.order && wk.call(s, id).None? ==>
        var s' := wk.visit(wk.host, s, id);
        if wk.call(u, id).Some? then s'.Raised? else CutAlike(s', wk.visit(wk.host, u, id))
  }

  /** What a step returns decides which branches are cut; what its block was given does not. */
  ghost predicate AnswersAlike(wk: Walker, v: Walker) {
    forall s: State, u: State, id, out
      {:trigger wk.visit(Answering(wk, out), s, id), v.visit(Answering(v, out), u, id)} ::
      s.Going? && u.Going? && CutAlike(s, u) && id in wk.order && wk.call(s, id).Some? && v.call(u, id).Some? ==>
        CutAlike(wk.visit(Answering(wk, out), s, id), v.visit(Answering(v, out), u, id))
  }

  lemma VisitsAlike(wk: Walker)
    requires Proper(wk)
    ensures MovesAlike(wk)
  {
    forall s: State, u: State, id | s.Going? && u.Going? && CutAlike(s, u) && id in wk.order && wk.call(s, id).None?
      ensures
        var s' := wk.visit(wk.host, s, id);
        if wk.call(u, id).Some? then s'.Raised? else CutAlike(s', wk.visit(wk.host, u, id))
    {
      assert id in Elems(wk.order);
      QuietVisitsAlike(wk.c, wk.host, wk.nodes, wk.e, s, u, id);
    }
  }

  lemma QuietVisitsAlike(c: Config, host: Host, nodes: Nodes, e: Edges, s: State, u: State, id: Id)
    requires s.Going? && u.Going? && s.skipped == u.skipped && id in nodes && CallOf(c, host, s, id).None?
    ensures
      var s' := Visited(c, host, nodes, e, s, id);
      if CallOf(c, host, u, id).Some? then s'.Raised? else CutAlike(s', Visited(c, host, nodes, e, u, id))
  {
  }

  lemma AnsweredAlike(wk: Walker, v: Walker)
    requires Proper(wk) && v == wk.(clock := v.clock)
    ensures AnswersAlike(wk, v)
  {
    forall s: State, u: State, id, out
      | s.Going? && u.Going? && CutAlike(s, u) && id in wk.order && wk.call(s, id).Some? && v.call(u, id).Some?
      ensures CutAlike(wk.visit(Answering(wk, out), s, id), v.visit(Answering(v, out), u, id))
    {
      assert id in Elems(wk.order);
      AnsweredVisitsAlike(wk.c, wk.host, Answering(wk, out), Answering(v, out), wk.nodes, wk.e, s, u, id, out);
    }
  }

  lemma AnsweredVisitsAlike(c: Config, host: Host, h: Host, g: Host, nodes: Nodes, e: Edges, s: State, u: State, id: Id,
                            out: Value)
    requires s.Going? && u.Going? && s.skipped == u.skipped && id in nodes
    requires CallOf(c, host, s, id).Some? && CallOf(c, host, u, id).Some?
    requires forall name, tool, p :: h.run(name, tool, p) == g.run(name, tool, p) == Returned(out)
    ensures CutAlike(Visited(c, h, nodes, e, s, id), Visited(c, g, nodes, e, u, id))
  {
  }

  lemma {:induction false} QuietAlike(wk: Walker, v: Walker, k: nat, s: State, u: State)
    requires MovesAlike(wk) && v == wk.(clock := v.clock) && k <= |wk.order| && Alike(At(k, s), At(k, u))
    ensures Alike(Quiet(wk, k, s), Quiet(v, k, u))
    decreases |wk.order| - k
  {
    if s.Going? && u.Going? && k < |wk.order| {
      var id := wk.order[k];
      if wk.call(s, id).None? && wk.call(u, id).None? {
        QuietAlike(wk, v, k + 1, wk.visit(wk.host, s, id), wk.visit(wk.host, u, id));
      }
    }
  }

  lemma {:induction false} StandsAlike(wk: Walker, v: Walker, outs: seq<Replay.Outcome>)
    requires MovesAlike(wk) && AnswersAlike(wk, v) && v == wk.(clock := v.clock)
    ensures Alike(StandAfter(wk, outs), StandAfter(v, outs))
  {
    if outs == [] {
      QuietAlike(wk, v, 0, Going(map[], {}), Going(map[], {}));
    } else {
      var before, out := outs[..|outs| - 1], outs[|outs| - 1];
      StandsAlike(wk, v, before);
      var a, b := StandAfter(wk, before), StandAfter(v, before);
      if Calling(wk, a) && Calling(v, b) && out.Returned? {
        QuietAlike(wk, v, a.k + 1, NextState(wk, a, out.value), NextState(v, b, out.value));
      }
    }
  }

  /**
    * Whatever the clock reads after a sleep, and so whatever later blocks are given, two passes that have got the same
    * answers and call a step call it for one block, under one name.
    */
  lemma ClockKeepsKeys(wk: Walker, v: Walker, outs: seq<Replay.Outcome>)
    requires Proper(wk) && v == wk.(clock := v.clock) && WalkerFn(wk)(outs).Step? && WalkerFn(v)(outs).Step?
    ensures StandAfter(wk, outs).At? && StandAfter(v, outs).At? && StandAfter(wk, outs).k == StandAfter(v, outs).k
    ensures WalkerFn(wk)(outs).base == WalkerFn(v)(outs).base && WalkerFn(wk)(outs).kind == WalkerFn(v)(outs).kind
  {
    VisitsAlike(wk);
    AnsweredAlike(wk, v);
    StandsAlike(wk, v, outs);
    CallsAreSteps(wk, StandAfter(wk, outs));
    CallsAreSteps(v, StandAfter(v, outs));
    var k, a, b := StandAfter(wk, outs).k, StandAfter(wk, outs).s, StandAfter(v, outs).s;
    SameKey(wk.c, wk.host, a, b, wk.order[k]);
  }

  lemma SameKey(c: Config, host: Host, s: State, u: State, id: Id)
    requires s.Going? && u.Going? && CallOf(c, host, s, id).Some? && CallOf(c, host, u, id).Some?
    ensures CallOf(c, host, s, id).value.base == CallOf(c, host, u, id).value.base
    ensures CallOf(c, host, s, id).value.kind == CallOf(c, host, u, id).value.kind
  {
  }

  // ---- passes that read different clocks ----

  /** What the clock reads after each sleep, in the pass of each claim. */
  type Clocks = nat -> (string -> Value)

  /** In every pass the run's function walks the workflow, whatever the clock reads then. */
  ghost predicate WalksBy(fns: Replay.Family, c: Config, host: Host, clocks: Clocks) {
    forall n: nat :: fns(n) == RuntimeFn(c, host, clocks(n))
  }

  ghost predicate SomeStep(c: Config, host: Host, clocks: Clocks, outs: seq<Replay.Outcome>) {
    exists n: nat :: RuntimeFn(c, host, clocks(n))(outs).Step?
  }

  /** The call that some pass makes after these outcomes. */
  ghost function SomeCall(c: Config, host: Host, clocks: Clocks, outs: seq<Replay.Outcome>): Replay.Action {
    if SomeStep(c, host, clocks, outs) then
      var n: nat :| RuntimeFn(c, host, clocks(n))(outs).Step?;
      RuntimeFn(c, host, clocks(n))(outs)
    else Replay.Finish(Null)
  }

  ghost function KeyOf(c: Config, host: Host, clocks: Clocks): Replay.WorkflowFn {
    (outs: seq<Replay.Outcome>) => SomeCall(c, host, clocks, outs)
  }

  lemma CallsAlike(c: Config, host: Host, a: string -> Value, b: string -> Value, outs: seq<Replay.Outcome>)
    requires RuntimeFn(c, host, a)(outs).Step? && RuntimeFn(c, host, b)(outs).Step?
    ensures RuntimeFn(c, host, a)(outs).base == RuntimeFn(c, host, b)(outs).base
    ensures RuntimeFn(c, host, a)(outs).kind == RuntimeFn(c, host, b)(outs).kind
  {
    ClockKeepsKeys(WalkerOf(c, host, a), WalkerOf(c, host, b), outs);
  }

  lemma KeyNamesCalls(c: Config, host: Host, clocks: Clocks, n: nat)
    ensures ReplayDeterminism.Keyed(RuntimeFn(c, host, clocks(n)), KeyOf(c, host, clocks))
  {
    forall outs | RuntimeFn(c, host, clocks(n))(outs).Step?
      ensures
        var action, call := RuntimeFn(c, host, clocks(n))(outs), SomeCall(c, host, clocks, outs);
        call.Step? && call.kind == action.kind && call.base == action.base
    {
      assert SomeStep(c, host, clocks, outs);
      var m: nat :| RuntimeFn(c, host, clocks(m))(outs).Step? &&
                    SomeCall(c, host, clocks, outs) == RuntimeFn(c, host, clocks(m))(outs);
      CallsAlike(c, host, clocks(n), clocks(m), outs);
    }
  }

  lemma KeyIsStraight(c: Config, host: Host, clocks: Clocks)
    ensures ReplayDeterminism.Straight(KeyOf(c, host, clocks))
  {
    forall outs: seq<Replay.Outcome>, k: nat | k < |outs| && outs[k].Raised?
      ensures !SomeCall(c, host, clocks, outs).Step?
    {
      if SomeStep(c, host, clocks, outs) {
        var n: nat :| RuntimeFn(c, host, clocks(n))(outs).Step?;
        WalkerIsStraight(c, host, clocks(n));
      }
    }
  }

  /** Runs of the walker are straight: their passes name their calls alike although each reads its own clock. */
  lemma WalkerRunsAreStraight(fns: Replay.Family, c: Config, host: Host, clocks: Clocks)
    requires WalksBy(fns, c, host, clocks)
    ensures ReplayDeterminism.StraightRun(fns) && ReplayDeterminism.SteadyRun(fns)
  {
    var key := KeyOf(c, host, clocks);
    KeyIsStraight(c, host, clocks);
    forall n: nat
      ensures ReplayDeterminism.Keyed(fns(n), key)
    {
      KeyNamesCalls(c, host, clocks, n);
    }
    assert ReplayDeterminism.KeyedBy(fns, key) && ReplayDeterminism.Steady(key);
  }

  // ---- completed runs ----

  /** The walker's tools, and for each step call the output that the tables store. */
  ghost function StoredHost(t: Store.Tables, run: Id, host: Host, clock: string -> Value): Host {
    host.(run := (n: string, tool: string, p: Value) => Returned(StoredOutput(t, run, n)),
          sleep := (n: string, d: Duration) => Returned(clock(n)),
          waitForSignal := (n: string, signal: string, d: Option<Duration>) => AsSignal(StoredOutput(t, run, n)))
  }

  ghost function StoredOutput(t: Store.Tables, run: Id, step: string): (v: Value)
    ensures (exists output :: RunResults.Stored(t, run, step, output)) ==> RunResults.Stored(t, run, step, v)
  {
    if output :| RunResults.Stored(t, run, step, output) then output else Null
  }

  lemma StoredIsOne(t: Store.Tables, run: Id, step: string, v: Value)
    requires ReplaySafety.OneOutput(t, run) && RunResults.Stored(t, run, step, v)
    ensures StoredOutput(t, run, step) == v
  {
    var w := StoredOutput(t, run, step);
    var a :| ReplayProofs.Done(t, a, run, step) && t.attempts[a].output == v;
    var b :| ReplayProofs.Done(t, b, run, step) && t.attempts[b].output == w;
  }

  /**
    * From empty tables, over every interleaving of workers, crashes, clients and the clock: a completed run of the
    * runtime's workflow holds the outputs of one walk of its blocks in which every step returned its stored output and
    * the clock read what it read in the pass of the run's last claim.
    */
  lemma CompletedRunsAreWalks(env: Replay.Env, now: Retry.Time, labels: seq<Replay.Label>, run: Id, c: Config,
                              host: Host, clocks: Clocks)
    requires Replay.Runs(env, Replay.Initial(now), labels) && WalksBy(env.fns(run), c, host, clocks)
    ensures
      var t := Replay.After(env, Replay.Initial(now), labels).t;
      run in t.runs && t.runs[run].status == Store.Completed ==>
        t.runs[run].attempts >= 0 && IsWalk(t, run, c, host, clocks(t.runs[run].attempts))
  {
    var t := Replay.After(env, Replay.Initial(now), labels).t;
    WalkerRunsAreStraight(env.fns(run), c, host, clocks);
    ReplayDeterminism.SteadyRunsKeepOutputs(env, now, labels, run);
    RunResults.CompletedRunsAreExplained(env, now, labels);
    if run in t.runs && t.runs[run].status == Store.Completed {
      assert RunResults.LastPassReturns(env, t, run);
      ResultIsWalk(t, run, c, host, clocks(t.runs[run].attempts));
    }
  }

  /** The run's output is that of the walk whose steps return their stored outputs, under the clock. */
  ghost predicate IsWalk(t: Store.Tables, run: Id, c: Config, host: Host, clock: string -> Value)
    requires run in t.runs
  {
    var walked := WalkOf(c, StoredHost(t, run, host, clock));
    walked.Outputs? && t.runs[run].output == ResultOf(OrderOf(GraphOf(c.wf)), walked.outputs)
  }

  lemma ResultIsWalk(t: Store.Tables, run: Id, c: Config, host: Host, clock: string -> Value)
    requires run in t.runs && ReplaySafety.OneOutput(t, run)
    requires RunResults.Explained(t, run, RuntimeFn(c, host, clock), t.runs[run].output)
    ensures IsWalk(t, run, c, host, clock)
  {
    var fn, h := RuntimeFn(c, host, clock), StoredHost(t, run, host, clock);
    var outs: seq<Replay.Outcome> :|
      RunResults.Explains(t, run, fn, outs) && RunResults.ReturnsAfter(fn, outs, t.runs[run].output);
    var wk := WalkerOf(c, host, clock);
    forall k | 0 <= k < |outs| && outs[k].Returned?
      ensures Gives(wk, h, ReplayTraces.NamesAlong(fn, outs)[k], outs[k].value)
    {
      StoredIsOne(t, run, ReplayTraces.NamesAlong(fn, outs)[k], outs[k].value);
    }
    FinishIsWalk(c, host, clock, h, outs, t.runs[run].output);
  }

  // ---- references in a durable run ----

  /** A block that is about to call its step finds an output for each block its parameters refer to. */
  ghost predicate SeesReferences(wk: Walker, outs: seq<Replay.Outcome>) {
    var st := StandAfter(wk, outs);
    WalkerFn(wk)(outs).Step? ==>
      && Calling(wk, st) && ById(wk.c.wf.blocks, wk.order[st.k]).Some?
      && forall ref :: ref in Refs(Fields(ById(wk.c.wf.blocks, wk.order[st.k]).value.params)) && !IsAmbient(ref) ==>
           var target := TargetAtValidation(wk.c.wf.blocks, ref);
           target.Some? && target.value.id in st.s.outputs
  }

  /** Edited from nothing, and the last validation reports no error. */
  ghost predicate Accepted(wf: Workflow, reg: BlockRegistry, ops: seq<Edit.EditOp>, tools: ToolRegistry) {
    && wf == Edit.Run(Edit.Batch(Workflow([], [], wf.variables), [], []), ops, reg, tools).wf
    && Edit.FinalErrors(wf, reg) == []
  }

  lemma RecalledSeesReferences(wk: Walker, h: Host, outs: seq<Replay.Outcome>, ops: seq<Edit.EditOp>,
                               tools: ToolRegistry)
    requires Proper(wk) && wk.e == EnabledEdges(wk.c.wf) && Accepted(wk.c.wf, wk.c.reg, ops, tools)
    requires ReplayTraces.Calls(WalkerFn(wk), outs) && Recalls(wk, h, WalkerFn(wk), outs)
    ensures SeesReferences(wk, outs)
  {
    if WalkerFn(wk)(outs).Step? {
      var st := StandAfter(wk, outs);
      CallsAreSteps(wk, st);
      RetracesWalk(wk, h, outs);
      assert wk.order[st.k] !in st.s.skipped;
      ReferencesNeverDangle(ops, tools, wk.c, h, wk.nodes, wk.order, st.k);
      LooksUpExtractedRefs(Fields(ById(wk.c.wf.blocks, wk.order[st.k]).value.params), ContextOf(wk.c, st.s.outputs));
    }
  }

  /**
    * For a workflow that the final checks accepted: in every pass that workers can reach, a block that calls its step
    * finds an output for each block its parameters refer to.
    */
  lemma PassesNeverDangle(env: Replay.Env, now: Retry.Time, labels: seq<Replay.Label>, w: Id, c: Config, host: Host,
                          clocks: Clocks, ops: seq<Edit.EditOp>, tools: ToolRegistry)
    requires Replay.Runs(env, Replay.Initial(now), labels) && Acyclic(EnabledEdges(c.wf))
    requires Accepted(c.wf, c.reg, ops, tools)
    requires
      var s := Replay.After(env, Replay.Initial(now), labels);
      w in s.passes && WalksBy(env.fns(s.passes[w].run), c, host, clocks)
    ensures
      var p := Replay.After(env, Replay.Initial(now), labels).passes[w];
      SeesReferences(WalkerOf(c, host, clocks(p.claims)), p.outs)
  {
    var p := Replay.After(env, Replay.Initial(now), labels).passes[w];
    var wk := WalkerOf(c, host, clocks(p.claims));
    var h := PassRecalls(env, now, labels, w, c, host, clocks, wk);
    RecalledSeesReferences(wk, h, p.outs, ops, tools);
  }

  /** A pass over a run of the walker has been given stored outputs only. */
  lemma PassRecalls(env: Replay.Env, now: Retry.Time, labels: seq<Replay.Label>, w: Id, c: Config, host: Host,
                    clocks: Clocks, wk: Walker) returns (h: Host)
    requires Replay.Runs(env, Replay.Initial(now), labels) && Acyclic(EnabledEdges(c.wf))
    requires
      var s := Replay.After(env, Replay.Initial(now), labels);
      && w in s.passes && WalksBy(env.fns(s.passes[w].run), c, host, clocks)
      && wk == WalkerOf(c, host, clocks(s.passes[w].claims))
    ensures
      var outs := Replay.After(env, Replay.Initial(now), labels).passes[w].outs;
      ReplayTraces.Calls(WalkerFn(wk), outs) && Recalls(wk, h, WalkerFn(wk), outs)
  {
    var s := Replay.After(env, Replay.Initial(now), labels);
    var p := s.passes[w];
    h := StoredHost(s.t, p.run, wk.host, wk.clock);
    ReplaySafety.NothingRunsYet(now);
    StepResults.StaysReady(env, Replay.Initial(now), labels);
    RunResults.PassIsExplained(s.t, w, p, WalkerFn(wk));
    WalkerRunsAreStraight(env.fns(p.run), c, host, clocks);
    ReplayDeterminism.SteadyRunsKeepOutputs(env, now, labels, p.run);
    StoredIsGiven(s.t, p.run, wk, p.outs);
  }

  lemma StoredIsGiven(t: Store.Tables, run: Id, wk: Walker, outs: seq<Replay.Outcome>)
    requires Proper(wk) && ReplaySafety.OneOutput(t, run) && RunResults.Explains(t, run, WalkerFn(wk), outs)
    ensures Recalls(wk, StoredHost(t, run, wk.host, wk.clock), WalkerFn(wk), outs)
  {
    forall k | 0 <= k < |outs| && outs[k].Returned?
      ensures Gives(wk, StoredHost(t, run, wk.host, wk.clock), ReplayTraces.NamesAlong(WalkerFn(wk), outs)[k],
                    outs[k].value)
    {
      StoredIsOne(t, run, ReplayTraces.NamesAlong(WalkerFn(wk), outs)[k], outs[k].value);
    }
  }
}
