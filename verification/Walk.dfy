/** The workflow walker: blocks run in topological order, unless a branch choice skipped them (runner/walk.ts). */
module Walk {
  import opened Graphs
  import opened Workflows
  import opened Resolver
  import opened References
  import opened Dag
  import opened Branches
  import opened StepNames

  /** The outcome of a durable step or of a tool. */
  datatype StepResult = Returned(value: Value) | Threw(message: string)

  datatype SignalResult = Delivered(data: Value) | TimedOut | Interrupted(message: string)

  /** A length of time as it is written into a step call; NaNSeconds comes of parameters that are not numbers. */
  datatype Duration = Seconds(n: int) | NaNSeconds

  /**
    * Everything the walker calls and does not define: tool choice, tools and the durable step API.
    * A sleep that ends gives the clock's reading.
    */
  datatype Host = Host(
    toolOf: (string, Value) -> string,
    toolParams: (string, Value) -> Value,
    tools: set<string>,
    run: (string, string, Value) -> StepResult,
    sleep: (string, Duration) -> StepResult,
    waitForSignal: (string, string, Option<Duration>) -> SignalResult)

  /** asText and asNumber are String and Number; None is not a number. */
  datatype Config = Config(
    wf: Workflow,
    reg: BlockRegistry,
    trigger: Value,
    env: map<string, string>,
    slug: string -> string,
    stringify: Value -> string,
    asText: Value -> string,
    asNumber: Value -> Option<real>)

  /** blockIdsByName: each name and its slug, later blocks replacing earlier ones; empty names are left out. */
  function IdsByName(blocks: seq<Block>, slug: string -> string): map<string, Id> {
    if blocks == [] then map[]
    else
      var b := blocks[|blocks| - 1];
      var m := IdsByName(blocks[..|blocks| - 1], slug);
      if b.name.Some? && b.name.value != "" then m[b.name.value := b.id][slug(b.name.value) := b.id] else m
  }

  function ContextOf(c: Config, outputs: map<Id, Value>): Context {
    Context(outputs, c.trigger, c.env, if c.wf.variables == Undefined then Record([]) else c.wf.variables,
            IdsByName(c.wf.blocks, c.slug), c.stringify)
  }

  function StepName(id: Id, suffix: string): string {
    "block." + id + "." + suffix
  }

  predicate IsPause(v: Value) {
    FieldOf(v, "__paused") == Boolean(true)
  }

  // ---- running one block ----

  /** How many milliseconds a unit has. */
  function UnitMs(unit: string): Option<real> {
    if unit in {"ms", "milliseconds"} then Some(1.0)
    else if unit in {"s", "seconds"} then Some(1000.0)
    else if unit in {"m", "minutes"} then Some(60000.0)
    else if unit in {"h", "hours"} then Some(3600000.0)
    else if unit in {"d", "days"} then Some(86400000.0)
    else if unit in {"w", "weeks"} then Some(604800000.0)
    else None
  }

  function Ceil(x: real): int {
    -(-x).Floor
  }

  /** Math.max(1, Math.ceil(ms / 1000)) */
  function SleepSeconds(duration: Option<real>, unitMs: real): Duration {
    if duration.None? then NaNSeconds
    else
      var n := Ceil(duration.value * unitMs / 1000.0);
      Seconds(if n < 1 then 1 else n)
  }

  /** A sleep lasts at least as long as asked and at least a second, and less than a second longer than either. */
  lemma SleepCoversDuration(duration: real, unitMs: real)
    ensures
      var asked, slept := duration * unitMs, SleepSeconds(Some(duration), unitMs);
      && slept.Seconds? && slept.n >= 1 && 1000.0 * slept.n as real >= asked
      && (slept.n == 1 || 1000.0 * (slept.n - 1) as real < asked)
  {
    var x := duration * unitMs / 1000.0;
    assert Ceil(x) as real >= x && (Ceil(x) - 1) as real < x;
  }

  function HoursInSeconds(hours: Option<real>): Duration {
    if hours.None? then NaNSeconds else Seconds(Ceil(hours.value * 3600.0))
  }

  /** A value that counts as given in a JavaScript condition. */
  predicate Truthy(v: Value) {
    match v
    case Undefined => false
    case Null => false
    case Boolean(b) => b
    case Number(n) => n != 0
    case Text(s) => s != ""
    case _ => true
  }

  predicate Absent(v: Value) {
    v == Undefined || v == Null
  }

  /** The fields of a value spread into an object. */
  function Spread(v: Value): seq<(string, Value)> {
    match v
    case Record(fields) => fields
    case List(items) => seq(|items|, i requires 0 <= i < |items| => (Decimal(i), items[i]))
    case Text(s) => seq(|s|, i requires 0 <= i < |s| => (Decimal(i), Text([s[i]])))
    case _ => []
  }

  /** A field set in an object: in the place of the one of that name, or last. */
  function Put(fields: seq<(string, Value)>, key: string, v: Value): (r: seq<(string, Value)>)
    ensures Lookup(r, key) == Some(v)
    ensures forall other :: other != key ==> Lookup(r, other) == Lookup(fields, other)
  {
    if fields == [] then [(key, v)]
    else if fields[0].0 == key then [(key, v)] + fields[1..]
    else [fields[0]] + Put(fields[1..], key, v)
  }

  function RunWait(c: Config, host: Host, block: Block, params: Value): StepResult {
    if block.kind == "wait_duration" then RunSleep(c, host, block, params)
    else if block.kind == "wait_for_event" then
      var hours := FieldOf(params, "timeoutHours");
      var timeout := if Truthy(hours) then Some(HoursInSeconds(c.asNumber(hours))) else None;
      match host.waitForSignal(StepName(block.id, "wait"), c.asText(FieldOf(params, "eventName")), timeout)
      case Delivered(data) => Returned(Record([("data", if Absent(data) then Null else data),
                                               ("timedOut", Boolean(false))]))
      case TimedOut => Returned(Record([("data", Null), ("timedOut", Boolean(true))]))
      case Interrupted(m) => Threw(m)
    else if block.kind == "human_approval" then
      var given, hours := FieldOf(params, "resumeToken"), FieldOf(params, "timeoutHours");
      var token := if Absent(given) then "tok_" + block.id else c.asText(given);
      var timeout := HoursInSeconds(if Absent(hours) then Some(168.0) else c.asNumber(hours));
      match host.waitForSignal(StepName(block.id, "wait"), "human_approval:" + token, Some(timeout))
      case Delivered(data) => Returned(Record(Put(Spread(data), "_timedOut", Boolean(false))))
      case TimedOut => Returned(Record([("_timedOut", Boolean(true))]))
      case Interrupted(m) => Threw(m)
    else Threw("unsupported wait block type: " + block.kind)
  }

  function RunSleep(c: Config, host: Host, block: Block, params: Value): StepResult {
    var unit := c.asText(FieldOf(params, "unit"));
    match UnitMs(unit)
    case None => Threw("unsupported duration unit: " + unit)
    case Some(unitMs) =>
      match host.sleep(StepName(block.id, "sleep"), SleepSeconds(c.asNumber(FieldOf(params, "duration")), unitMs))
      case Returned(now) => Returned(Record([("resumedAt", now)]))
      case Threw(m) => Threw(m)
  }

  function RunCompute(host: Host, def: BlockDef, block: Block, params: Value): StepResult {
    var toolId := host.toolOf(block.kind, params);
    if toolId !in def.access then Threw("block " + block.kind + " not allowed to call tool " + toolId)
    else if toolId !in host.tools then Threw("tool not found: " + toolId)
    else
      var out := host.run(StepName(block.id, "run"), toolId, host.toolParams(block.kind, params));
      if out.Returned? && IsPause(out.value) then Threw("Compute block '" + block.id + "' returned __paused.")
      else out
  }

  // ---- the walk ----

  datatype State = Going(outputs: map<Id, Value>, skipped: set<Id>) | Raised(message: string)

  ghost function Recorded(nodes: Nodes, e: Edges, s: State, id: Id, branches: bool, r: StepResult): State
    requires s.Going? && id in nodes
  {
    match r
    case Threw(m) => Raised(m)
    case Returned(v) =>
      Going(s.outputs[id := v],
            if branches then s.skipped + Downstream(e, nodes.Keys, CutTargets(nodes[id], v)) else s.skipped)
  }

  /** One turn of the loop: skip the block, or run it and record its output. */
  ghost function Visited(c: Config, host: Host, nodes: Nodes, e: Edges, s: State, id: Id): State
    requires s.Going? && id in nodes
  {
    if id in s.skipped then s
    else
      match ById(c.wf.blocks, id)
      case None => s
      case Some(block) =>
        if block.kind !in c.reg then Raised("unknown block type at runtime: " + block.kind)
        else
          var def := c.reg[block.kind];
          if def.kind.Trigger? then Going(s.outputs[id := c.trigger], s.skipped)
          else
            var params := ResolveValue(Fields(block.params), ContextOf(c, s.outputs)).value;
            if def.kind.Wait? then Recorded(nodes, e, s, id, false, RunWait(c, host, block, params))
            else Recorded(nodes, e, s, id, true, RunCompute(host, def, block, params))
  }

  /** The walk after the first k blocks of the order. */
  ghost function StateAt(c: Config, host: Host, nodes: Nodes, e: Edges, order: seq<Id>, k: nat): State
    requires k <= |order| && Elems(order) <= nodes.Keys
  {
    if k == 0 then Going(map[], {})
    else
      var s := StateAt(c, host, nodes, e, order, k - 1);
      assert order[k - 1] in Elems(order);
      if s.Going? then Visited(c, host, nodes, e, s, order[k - 1]) else s
  }

  method VisitBlock(c: Config, host: Host, nodes: Nodes, ghost e: Edges, idsByName: map<string, Id>, s: State, id: Id)
    returns (s': State)
    requires Tells(nodes, e) && id in nodes && idsByName == IdsByName(c.wf.blocks, c.slug)
    requires s.Going? && s.skipped <= nodes.Keys && Closed(e, s.skipped)
    ensures s' == Visited(c, host, nodes, e, s, id)
    ensures s'.Going? ==> s'.skipped <= nodes.Keys && Closed(e, s'.skipped)
  {
    if id in s.skipped {
      return s;
    }
    var found := ById(c.wf.blocks, id);
    if found.None? {
      return s;
    }
    var block := found.value;
    if block.kind !in c.reg {
      return Raised("unknown block type at runtime: " + block.kind);
    }
    var def := c.reg[block.kind];
    if def.kind.Trigger? {
      return Going(s.outputs[id := c.trigger], s.skipped);
    }
    var ctx := Context(s.outputs, c.trigger, c.env, if c.wf.variables == Undefined then Record([]) else c.wf.variables,
                       idsByName, c.stringify);
    var params := ResolveValue(Fields(block.params), ctx).value;
    var r := if def.kind.Wait? then RunWait(c, host, block, params) else RunCompute(host, def, block, params);
    if r.Threw? {
      return Raised(r.message);
    }
    var skipped := s.skipped;
    if def.kind.Compute? {
      skipped := SelectBranches(nodes, e, id, r.value, skipped);
    }
    s' := Going(s.outputs[id := r.value], skipped);
  }

  datatype Walked = Outputs(outputs: map<Id, Value>) | Failed(message: string)

  function Result(s: State): Walked {
    match s
    case Going(outputs, _) => Outputs(outputs)
    case Raised(m) => Failed(m)
  }

  /** The loop over the sorted blocks. */
  method WalkOrder(c: Config, host: Host, nodes: Nodes, ghost e: Edges, order: seq<Id>) returns (r: Walked)
    requires Tells(nodes, e) && Elems(order) <= nodes.Keys
    ensures r == Result(StateAt(c, host, nodes, e, order, |order|))
  {
    var idsByName := IdsByName(c.wf.blocks, c.slug);
    var s := Going(map[], {});
    for k := 0 to |order|
      invariant s == StateAt(c, host, nodes, e, order, k)
      invariant s.Going? && s.skipped <= nodes.Keys && Closed(e, s.skipped)
    {
      assert order[k] in Elems(order);
      s := VisitBlock(c, host, nodes, e, idsByName, s, order[k]);
      if s.Raised? {
        StaysRaised(c, host, nodes, e, order, k + 1);
        return Failed(s.message);
      }
    }
    r := Outputs(s.outputs);
  }

  /** What a walk gives: the blocks of the graph are visited in the order of its sort. */
  ghost function WalkOf(c: Config, host: Host): Walked {
    if !Acyclic(EnabledEdges(c.wf)) then Failed("Workflow contains a cycle")
    else
      GraphIsBuilt(c.wf);
      OrderIsTopological(GraphOf(c.wf), EnabledEdges(c.wf));
      var order := OrderOf(GraphOf(c.wf));
      Result(StateAt(c, host, GraphOf(c.wf).nodes, EnabledEdges(c.wf), order, |order|))
  }

  method WalkWorkflow(c: Config, host: Host) returns (r: Walked)
    ensures r == WalkOf(c, host)
  {
    var built := BuildDag(c.wf);
    if built.CycleError? {
      return Failed("Workflow contains a cycle");
    }
    var sorted := TopoSort(built.dag, EnabledEdges(c.wf));
    r := WalkOrder(c, host, built.dag.nodes, EnabledEdges(c.wf), sorted.value);
  }

  lemma {:induction false} StaysRaised(c: Config, host: Host, nodes: Nodes, e: Edges, order: seq<Id>, k: nat)
    requires k <= |order| && Elems(order) <= nodes.Keys && StateAt(c, host, nodes, e, order, k).Raised?
    ensures StateAt(c, host, nodes, e, order, |order|) == StateAt(c, host, nodes, e, order, k)
    decreases |order| - k
  {
    if k < |order| {
      StaysRaised(c, host, nodes, e, order, k + 1);
    }
  }
}
