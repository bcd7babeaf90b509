/** What a walk of the blocks leaves: each output from its block, each missing one from a branch that was not taken. */
module WalkMeaning {
  import opened Graphs
  import opened Workflows
  import opened Resolver
  import opened References
  import opened Dag
  import opened Branches
  import opened Walk
  import opened WalkProofs

  // ---- what a wait gives ----

  /** The least whole number of seconds that covers the milliseconds, and at least one. */
  ghost predicate CoversMs(seconds: int, ms: real) {
    seconds >= 1 && 1000.0 * seconds as real >= ms && (seconds == 1 || 1000.0 * (seconds - 1) as real < ms)
  }

  /** The least whole number of seconds that covers the hours. */
  ghost predicate CoversHours(seconds: int, hours: real) {
    seconds as real >= hours * 3600.0 && (seconds - 1) as real < hours * 3600.0
  }

  /** The time a wait is given; a number that cannot be read gives no number of seconds. */
  ghost predicate TimeoutFor(timeout: Duration, hours: Option<real>) {
    if hours.None? then timeout == NaNSeconds else timeout.Seconds? && CoversHours(timeout.n, hours.value)
  }

  /** A minute has 60 seconds, an hour 60 minutes, a day 24 hours, a week 7 days; each unit has a short name. */
  lemma UnitsFit()
    ensures UnitMs("ms") == UnitMs("milliseconds") == Some(1.0) && UnitMs("s") == UnitMs("seconds") == Some(1000.0)
    ensures UnitMs("m") == UnitMs("minutes") == Some(60.0 * 1000.0)
    ensures UnitMs("h") == UnitMs("hours") == Some(60.0 * 60.0 * 1000.0)
    ensures UnitMs("d") == UnitMs("days") == Some(24.0 * 60.0 * 60.0 * 1000.0)
    ensures UnitMs("w") == UnitMs("weeks") == Some(7.0 * 24.0 * 60.0 * 60.0 * 1000.0)
  {
  }

  /** The length of a sleep; a duration that is not a number gives no number of seconds. */
  ghost predicate SleepFor(d: Duration, duration: Option<real>, unitMs: real) {
    if duration.None? then d == NaNSeconds else d.Seconds? && CoversMs(d.n, duration.value * unitMs)
  }

  /** The sleep is the duration in its unit; the output tells when it ended. */
  ghost predicate SleepGives(c: Config, host: Host, block: Block, params: Value, v: Value) {
    var unit := UnitMs(c.asText(FieldOf(params, "unit")));
    unit.Some? && exists d ::
      && SleepFor(d, c.asNumber(FieldOf(params, "duration")), unit.value)
      && host.sleep("block." + block.id + ".sleep", d).Returned?
      && v == Record([("resumedAt", host.sleep("block." + block.id + ".sleep", d).value)])
  }

  /** The delivered data, null if there are none, and whether the time ran out. */
  ghost predicate EventGives(c: Config, host: Host, block: Block, params: Value, v: Value) {
    var hours := FieldOf(params, "timeoutHours");
    exists timeout: Option<Duration> ::
      && (if Truthy(hours) then timeout.Some? && TimeoutFor(timeout.value, c.asNumber(hours)) else timeout.None?)
      && match host.waitForSignal("block." + block.id + ".wait", c.asText(FieldOf(params, "eventName")), timeout)
         case Delivered(data) =>
           && v.Record? && FieldOf(v, "timedOut") == Boolean(false)
           && FieldOf(v, "data") == (if data == Undefined then Null else data) && |v.fields| == 2
         case TimedOut =>
           v.Record? && FieldOf(v, "timedOut") == Boolean(true) && FieldOf(v, "data") == Null && |v.fields| == 2
         case Interrupted(_) => false
  }

  /** The fields of the approval, and whether the time ran out, whatever the approval itself says of that. */
  ghost predicate ApprovalGives(c: Config, host: Host, block: Block, params: Value, v: Value) {
    var hours, given := FieldOf(params, "timeoutHours"), FieldOf(params, "resumeToken");
    var token := if given == Undefined || given == Null then "tok_" + block.id else c.asText(given);
    exists timeout ::
      && TimeoutFor(timeout, if hours == Undefined || hours == Null then Some(7.0 * 24.0) else c.asNumber(hours))
      && match host.waitForSignal("block." + block.id + ".wait", "human_approval:" + token, Some(timeout))
         case Delivered(data) =>
           && v.Record? && FieldOf(v, "_timedOut") == Boolean(false)
           && forall key :: key != "_timedOut" && data.Record? ==> FieldOf(v, key) == FieldOf(data, key)
         case TimedOut => v == Record([("_timedOut", Boolean(true))])
         case Interrupted(_) => false
  }

  ghost predicate WaitGives(c: Config, host: Host, block: Block, params: Value, v: Value) {
    if block.kind == "wait_duration" then SleepGives(c, host, block, params, v)
    else if block.kind == "wait_for_event" then EventGives(c, host, block, params, v)
    else block.kind == "human_approval" && ApprovalGives(c, host, block, params, v)
  }

  lemma StepNamed(id: Id)
    ensures StepName(id, "run") == "block." + id + ".run" && StepName(id, "sleep") == "block." + id + ".sleep"
    ensures StepName(id, "wait") == "block." + id + ".wait"
  {
  }

  lemma CeilCovers(x: real)
    ensures Ceil(x) as real >= x && (Ceil(x) - 1) as real < x
  {
  }

  lemma HoursCover(hours: Option<real>)
    ensures TimeoutFor(HoursInSeconds(hours), hours)
  {
    if hours.Some? {
      CeilCovers(hours.value * 3600.0);
    }
  }

  lemma SleepIsFor(duration: Option<real>, unitMs: real)
    ensures SleepFor(SleepSeconds(duration, unitMs), duration, unitMs)
  {
    if duration.Some? {
      SleepCoversDuration(duration.value, unitMs);
    }
  }

  lemma SleepMeans(c: Config, host: Host, block: Block, params: Value)
    requires RunSleep(c, host, block, params).Returned?
    ensures SleepGives(c, host, block, params, RunSleep(c, host, block, params).value)
  {
    StepNamed(block.id);
    var unit := UnitMs(c.asText(FieldOf(params, "unit"))).value;
    var x := c.asNumber(FieldOf(params, "duration"));
    var d := SleepSeconds(x, unit);
    SleepIsFor(x, unit);
    assert host.sleep("block." + block.id + ".sleep", d).Returned?;
  }

  lemma EventMeans(c: Config, host: Host, block: Block, params: Value)
    requires block.kind == "wait_for_event" && RunWait(c, host, block, params).Returned?
    ensures EventGives(c, host, block, params, RunWait(c, host, block, params).value)
  {
    var hours := FieldOf(params, "timeoutHours");
    StepNamed(block.id);
    HoursCover(c.asNumber(hours));
    var timeout := if Truthy(hours) then Some(HoursInSeconds(c.asNumber(hours))) else None;
    var sig := host.waitForSignal("block." + block.id + ".wait", c.asText(FieldOf(params, "eventName")), timeout);
    var v := RunWait(c, host, block, params).value;
    TwoFields(v, "data", "timedOut");
  }

  lemma TwoFields(v: Value, a: string, b: string)
    requires v.Record? && |v.fields| == 2 && v.fields[0].0 == a && v.fields[1].0 == b && a != b
    ensures FieldOf(v, a) == v.fields[0].1 && FieldOf(v, b) == v.fields[1].1
  {
    assert v.fields[1..][0] == v.fields[1];
  }

  lemma ApprovalMeans(c: Config, host: Host, block: Block, params: Value)
    requires block.kind == "human_approval" && RunWait(c, host, block, params).Returned?
    ensures ApprovalGives(c, host, block, params, RunWait(c, host, block, params).value)
  {
    var hours := FieldOf(params, "timeoutHours");
    var given := if hours == Undefined || hours == Null then Some(7.0 * 24.0) else c.asNumber(hours);
    StepNamed(block.id);
    HoursCover(given);
  }

  lemma WaitMeans(c: Config, host: Host, block: Block, params: Value)
    requires RunWait(c, host, block, params).Returned?
    ensures WaitGives(c, host, block, params, RunWait(c, host, block, params).value)
  {
    if block.kind == "wait_duration" {
      SleepMeans(c, host, block, params);
    } else if block.kind == "wait_for_event" {
      EventMeans(c, host, block, params);
    } else {
      ApprovalMeans(c, host, block, params);
    }
  }

  // ---- what a block gives ----

  predicate Called(b: Block, slug: string -> string, name: string) {
    b.name.Some? && b.name.value != "" && (b.name.value == name || slug(b.name.value) == name)
  }

  /** The last of the blocks that is called so, if any is. */
  ghost predicate LastCalled(blocks: seq<Block>, slug: string -> string, name: string, id: Option<Id>) {
    match id
    case None => forall i :: 0 <= i < |blocks| ==> !Called(blocks[i], slug, name)
    case Some(id) =>
      exists i ::
        && 0 <= i < |blocks| && blocks[i].id == id && Called(blocks[i], slug, name)
        && forall j :: i < j < |blocks| ==> !Called(blocks[j], slug, name)
  }

  /** The table has each name and slug of a block, for the last block that has it. */
  ghost predicate NameTable(blocks: seq<Block>, slug: string -> string, names: map<string, Id>) {
    forall name :: LastCalled(blocks, slug, name, if name in names then Some(names[name]) else None)
  }

  lemma OneMoreCalled(blocks: seq<Block>, slug: string -> string, name: string, id: Option<Id>)
    requires blocks != [] && LastCalled(blocks[..|blocks| - 1], slug, name, id)
    ensures
      var last := blocks[|blocks| - 1];
      LastCalled(blocks, slug, name, if Called(last, slug, name) then Some(last.id) else id)
  {
    var n := |blocks| - 1;
    forall i | 0 <= i < n
      ensures blocks[..n][i] == blocks[i]
    {
    }
  }

  lemma {:induction false} NamesTabled(blocks: seq<Block>, slug: string -> string)
    ensures NameTable(blocks, slug, IdsByName(blocks, slug))
  {
    if blocks != [] {
      var before := IdsByName(blocks[..|blocks| - 1], slug);
      NamesTabled(blocks[..|blocks| - 1], slug);
      forall name
        ensures LastCalled(blocks, slug, name,
                           if name in IdsByName(blocks, slug) then Some(IdsByName(blocks, slug)[name]) else None)
      {
        OneMoreCalled(blocks, slug, name, if name in before then Some(before[name]) else None);
      }
    }
  }

  /** The block's parameters, resolved where these outputs are known. */
  ghost predicate IsParams(c: Config, block: Block, seen: map<Id, Value>, params: Value) {
    exists names, vars ::
      && NameTable(c.wf.blocks, c.slug, names)
      && vars == (if c.wf.variables == Undefined then Record([]) else c.wf.variables)
      && params == ResolveValue(Fields(block.params), Context(seen, c.trigger, c.env, vars, names, c.stringify)).value
  }

  ghost function ParamsOf(c: Config, block: Block, seen: map<Id, Value>): (params: Value)
    ensures IsParams(c, block, seen, params)
  {
    NamesTabled(c.wf.blocks, c.slug);
    ResolveValue(Fields(block.params), ContextOf(c, seen)).value
  }

  /** What a tool returns under the block's own step name; it may be called, is known, and does not pause. */
  ghost predicate ToolGives(host: Host, def: BlockDef, block: Block, params: Value, v: Value) {
    var tool := host.toolOf(block.kind, params);
    && tool in def.access && tool in host.tools && FieldOf(v, "__paused") != Boolean(true)
    && host.run("block." + block.id + ".run", tool, host.toolParams(block.kind, params)) == Returned(v)
  }

  ghost predicate BlockGives(c: Config, host: Host, block: Block, seen: map<Id, Value>, v: Value) {
    && block.kind in c.reg
    && match c.reg[block.kind].kind
       case Trigger => v == c.trigger
       case Wait => WaitGives(c, host, block, ParamsOf(c, block, seen), v)
       case Compute => ToolGives(host, c.reg[block.kind], block, ParamsOf(c, block, seen), v)
  }

  predicate IsCompute(c: Config, id: Id) {
    var found := ById(c.wf.blocks, id);
    found.Some? && found.value.kind in c.reg && c.reg[found.value.kind].kind.Compute?
  }

  /** What the output of a compute block leaves out: the targets not taken, and all that they lead to. */
  ghost function Dropped(c: Config, nodes: Nodes, e: Edges, id: Id, v: Value): set<Id>
    requires id in nodes
  {
    if IsCompute(c, id) then Downstream(e, nodes.Keys, set t | t in nodes[id].via && LeftOut(nodes[id], v, t)) else {}
  }

  lemma ToolMeans(host: Host, def: BlockDef, block: Block, params: Value)
    ensures forall v :: RunCompute(host, def, block, params) == Returned(v) <==> ToolGives(host, def, block, params, v)
  {
    StepNamed(block.id);
  }

  /** One block that is not skipped leaves its output, and drops what its output leaves out. */
  lemma VisitMeans(c: Config, host: Host, nodes: Nodes, e: Edges, s: State, id: Id)
    requires s.Going? && id in nodes && id !in s.skipped && ById(c.wf.blocks, id).Some?
    requires Visited(c, host, nodes, e, s, id).Going?
    ensures
      var s' := Visited(c, host, nodes, e, s, id);
      && id in s'.outputs && s'.outputs == s.outputs[id := s'.outputs[id]]
      && BlockGives(c, host, ById(c.wf.blocks, id).value, s.outputs, s'.outputs[id])
      && s'.skipped == s.skipped + Dropped(c, nodes, e, id, s'.outputs[id])
  {
    var block := ById(c.wf.blocks, id).value;
    ByIdFinds(c.wf.blocks, id);
    var def := c.reg[block.kind];
    if def.kind.Wait? {
      WaitMeans(c, host, block, ParamsOf(c, block, s.outputs));
    } else if def.kind.Compute? {
      ToolMeans(host, def, block, ParamsOf(c, block, s.outputs));
      LeftOutExactly(nodes[id], Visited(c, host, nodes, e, s, id).outputs[id]);
    }
  }

  // ---- the whole walk ----

  /** These blocks' outputs. */
  function Only(outputs: map<Id, Value>, ids: seq<Id>): map<Id, Value> {
    map id | id in outputs && id in ids :: outputs[id]
  }

  /** Some block that ran drops this one. */
  ghost predicate DroppedBy(c: Config, nodes: Nodes, e: Edges, outputs: map<Id, Value>, id: Id) {
    exists b :: b in outputs && b in nodes && id in Dropped(c, nodes, e, b, outputs[b])
  }

  /**
    * After k blocks: each output is what its block gives where the outputs of the blocks before it are known, and the
    * skipped blocks are those that some block that ran drops.
    */
  ghost predicate Explained(c: Config, host: Host, nodes: Nodes, e: Edges, order: seq<Id>, k: nat, s: State)
    requires k <= |order|
  {
    s.Going? ==>
      && (forall i :: 0 <= i < k ==> OutputGiven(c, host, order, i, s.outputs))
      && (forall id :: id in s.skipped <==> DroppedBy(c, nodes, e, s.outputs, id))
  }

  ghost predicate OutputGiven(c: Config, host: Host, order: seq<Id>, i: nat, outputs: map<Id, Value>)
    requires i < |order|
  {
    order[i] in outputs ==>
      && ById(c.wf.blocks, order[i]).Some?
      && BlockGives(c, host, ById(c.wf.blocks, order[i]).value, Only(outputs, order[..i]), outputs[order[i]])
  }

  lemma ExplainedNext(c: Config, host: Host, nodes: Nodes, e: Edges, order: seq<Id>, k: nat, s: State, s': State)
    requires Distinct(order) && k < |order| && order[k] in nodes && ById(c.wf.blocks, order[k]).Some?
    requires s.Going? && s'.Going? && s' == Visited(c, host, nodes, e, s, order[k])
    requires OnTrack(e, order, k, s) && Explained(c, host, nodes, e, order, k, s)
    ensures Explained(c, host, nodes, e, order, k + 1, s')
  {
    var id := order[k];
    if id in s.skipped {
      assert s' == s;
      assert id !in s.outputs;
    } else {
      VisitMeans(c, host, nodes, e, s, id);
      GivenStays(c, host, e, order, k, s, s');
      DropsMore(c, nodes, e, s.outputs, s'.outputs, id);
    }
  }

  /** One more output, of a block that was not passed before, leaves the earlier ones explained. */
  lemma GivenStays(c: Config, host: Host, e: Edges, order: seq<Id>, k: nat, s: State, s': State)
    requires Distinct(order) && k < |order| && s.Going? && s'.Going? && OnTrack(e, order, k, s)
    requires forall i :: 0 <= i < k ==> OutputGiven(c, host, order, i, s.outputs)
    requires
      && order[k] in s'.outputs && s'.outputs == s.outputs[order[k] := s'.outputs[order[k]]]
      && ById(c.wf.blocks, order[k]).Some?
      && BlockGives(c, host, ById(c.wf.blocks, order[k]).value, s.outputs, s'.outputs[order[k]])
    ensures forall i :: 0 <= i < k + 1 ==> OutputGiven(c, host, order, i, s'.outputs)
  {
    forall i | 0 <= i < k + 1
      ensures OutputGiven(c, host, order, i, s'.outputs)
    {
      assert order[k] !in order[..i];
      assert Only(s'.outputs, order[..i]) == Only(s.outputs, order[..i]);
      if i == k {
        SeenSoFar(e, order, k, s);
      } else {
        assert OutputGiven(c, host, order, i, s.outputs);
      }
    }
  }

  lemma SeenSoFar(e: Edges, order: seq<Id>, k: nat, s: State)
    requires k <= |order| && s.Going? && OnTrack(e, order, k, s)
    ensures Only(s.outputs, order[..k]) == s.outputs
  {
    forall id | id in s.outputs
      ensures id in order[..k]
    {
      var i :| 0 <= i < k && order[i] == id;
      assert order[..k][i] == id;
    }
  }

  lemma DropsMore(c: Config, nodes: Nodes, e: Edges, before: map<Id, Value>, after: map<Id, Value>, id: Id)
    requires id in nodes && id !in before && id in after && after == before[id := after[id]]
    ensures forall x ::
      DroppedBy(c, nodes, e, after, x) <==>
        DroppedBy(c, nodes, e, before, x) || x in Dropped(c, nodes, e, id, after[id])
  {
    forall x
      ensures DroppedBy(c, nodes, e, after, x)
        <==> DroppedBy(c, nodes, e, before, x) || x in Dropped(c, nodes, e, id, after[id])
    {
      if DroppedBy(c, nodes, e, before, x) {
        var b :| b in before && b in nodes && x in Dropped(c, nodes, e, b, before[b]);
        assert b in after && after[b] == before[b];
      }
    }
  }

  lemma {:induction false} StaysExplained(c: Config, host: Host, nodes: Nodes, e: Edges, order: seq<Id>, k: nat)
    requires Sorted(nodes, e, order) && k <= |order| && nodes.Keys == EnabledIds(c.wf.blocks)
    ensures Explained(c, host, nodes, e, order, k, StateAt(c, host, nodes, e, order, k))
  {
    if k > 0 {
      StaysExplained(c, host, nodes, e, order, k - 1);
      NextExplained(c, host, nodes, e, order, k - 1, StateAt(c, host, nodes, e, order, k - 1));
    }
  }

  lemma NextExplained(c: Config, host: Host, nodes: Nodes, e: Edges, order: seq<Id>, k: nat, s: State)
    requires Sorted(nodes, e, order) && k < |order| && nodes.Keys == EnabledIds(c.wf.blocks)
    requires s == StateAt(c, host, nodes, e, order, k) && Explained(c, host, nodes, e, order, k, s)
    ensures Explained(c, host, nodes, e, order, k + 1, StateAt(c, host, nodes, e, order, k + 1))
  {
    var s' := StateAt(c, host, nodes, e, order, k + 1);
    StateStep(c, host, nodes, e, order, k);
    if s'.Going? {
      WalkTracks(c, host, nodes, e, order, k);
      assert order[k] in EnabledIds(c.wf.blocks);
      ByIdFinds(c.wf.blocks, order[k]);
      ExplainedNext(c, host, nodes, e, order, k, s, s');
    }
  }

  /** Exactly the blocks that none which ran drops have an output, and each output is given by its block. */
  ghost predicate Solves(c: Config, host: Host, nodes: Nodes, e: Edges, order: seq<Id>, outputs: map<Id, Value>) {
    && (forall id :: id in outputs ==> id in order)
    && forall i :: 0 <= i < |order| ==>
         && (order[i] in outputs <==> !DroppedBy(c, nodes, e, outputs, order[i]))
         && OutputGiven(c, host, order, i, outputs)
  }

  lemma EndSolves(c: Config, host: Host, nodes: Nodes, e: Edges, order: seq<Id>, s: State)
    requires s.Going? && OnTrack(e, order, |order|, s) && Explained(c, host, nodes, e, order, |order|, s)
    ensures Solves(c, host, nodes, e, order, s.outputs)
  {
  }

  /**
    * A walk that succeeds: every enabled block has an output exactly when no block that ran drops it, and the output is
    * what the block gives where the outputs of the blocks before it are known.
    */
  lemma OutputsExplained(c: Config, host: Host)
    requires WalkOf(c, host).Outputs?
    ensures Acyclic(EnabledEdges(c.wf))
    ensures Solves(c, host, GraphOf(c.wf).nodes, EnabledEdges(c.wf), OrderOf(GraphOf(c.wf)), WalkOf(c, host).outputs)
  {
    var nodes, e, order := GraphOf(c.wf).nodes, EnabledEdges(c.wf), OrderOf(GraphOf(c.wf));
    WalkIsSorted(c.wf);
    StaysExplained(c, host, nodes, e, order, |order|);
    WalkTracks(c, host, nodes, e, order, |order|);
    EndSolves(c, host, nodes, e, order, StateAt(c, host, nodes, e, order, |order|));
  }

  // ---- why a walk fails ----

  lemma MsCoveredOnce(a: int, b: int, ms: real)
    requires CoversMs(a, ms) && CoversMs(b, ms)
    ensures a == b
  {
  }

  lemma SleepOnce(a: Duration, b: Duration, duration: Option<real>, unitMs: real)
    requires SleepFor(a, duration, unitMs) && SleepFor(b, duration, unitMs)
    ensures a == b
  {
    if duration.Some? {
      MsCoveredOnce(a.n, b.n, duration.value * unitMs);
    }
  }

  lemma HoursCoveredOnce(a: Duration, b: Duration, hours: Option<real>)
    requires TimeoutFor(a, hours) && TimeoutFor(b, hours)
    ensures a == b
  {
  }

  lemma SleepGivesOnly(c: Config, host: Host, block: Block, params: Value, v: Value)
    requires SleepGives(c, host, block, params, v)
    ensures RunSleep(c, host, block, params).Returned?
  {
    StepNamed(block.id);
    var unit := UnitMs(c.asText(FieldOf(params, "unit"))).value;
    var x := c.asNumber(FieldOf(params, "duration"));
    var d :|
      && SleepFor(d, x, unit)
      && host.sleep("block." + block.id + ".sleep", d).Returned?
      && v == Record([("resumedAt", host.sleep("block." + block.id + ".sleep", d).value)]);
    SleepIsFor(x, unit);
    SleepOnce(d, SleepSeconds(x, unit), x, unit);
  }

  lemma EventGivesOnly(c: Config, host: Host, block: Block, params: Value, v: Value)
    requires block.kind == "wait_for_event" && EventGives(c, host, block, params, v)
    ensures RunWait(c, host, block, params).Returned?
  {
    StepNamed(block.id);
    var hours := FieldOf(params, "timeoutHours");
    HoursCover(c.asNumber(hours));
    forall a | TimeoutFor(a, c.asNumber(hours))
      ensures a == HoursInSeconds(c.asNumber(hours))
    {
      HoursCoveredOnce(a, HoursInSeconds(c.asNumber(hours)), c.asNumber(hours));
    }
  }

  lemma ApprovalGivesOnly(c: Config, host: Host, block: Block, params: Value, v: Value)
    requires block.kind == "human_approval" && ApprovalGives(c, host, block, params, v)
    ensures RunWait(c, host, block, params).Returned?
  {
    StepNamed(block.id);
    var hours := FieldOf(params, "timeoutHours");
    var given := if hours == Undefined || hours == Null then Some(7.0 * 24.0) else c.asNumber(hours);
    HoursCover(given);
    forall a | TimeoutFor(a, given)
      ensures a == HoursInSeconds(given)
    {
      HoursCoveredOnce(a, HoursInSeconds(given), given);
    }
  }

  lemma WaitGivesOnly(c: Config, host: Host, block: Block, params: Value)
    ensures (exists v :: WaitGives(c, host, block, params, v)) <==> RunWait(c, host, block, params).Returned?
  {
    if RunWait(c, host, block, params).Returned? {
      WaitMeans(c, host, block, params);
    }
    forall v | WaitGives(c, host, block, params, v)
      ensures RunWait(c, host, block, params).Returned?
    {
      if block.kind == "wait_duration" {
        SleepGivesOnly(c, host, block, params, v);
      } else if block.kind == "wait_for_event" {
        EventGivesOnly(c, host, block, params, v);
      } else {
        ApprovalGivesOnly(c, host, block, params, v);
      }
    }
  }

  /** A block that is to run stops the walk exactly when it gives nothing. */
  lemma VisitFails(c: Config, host: Host, nodes: Nodes, e: Edges, s: State, id: Id)
    requires s.Going? && id in nodes && id !in s.skipped && ById(c.wf.blocks, id).Some?
    ensures Visited(c, host, nodes, e, s, id).Raised? <==>
      forall v :: !BlockGives(c, host, ById(c.wf.blocks, id).value, s.outputs, v)
  {
    var block := ById(c.wf.blocks, id).value;
    ByIdFinds(c.wf.blocks, id);
    if block.kind in c.reg {
      var def, params := c.reg[block.kind], ParamsOf(c, block, s.outputs);
      match def.kind
      case Trigger => assert BlockGives(c, host, block, s.outputs, c.trigger);
      case Wait => WaitFails(c, host, block, s.outputs);
      case Compute => ToolFails(c, host, block, s.outputs);
    }
  }

  lemma WaitFails(c: Config, host: Host, block: Block, seen: map<Id, Value>)
    requires block.kind in c.reg && c.reg[block.kind].kind.Wait?
    ensures RunWait(c, host, block, ParamsOf(c, block, seen)).Threw? <==>
      forall v :: !BlockGives(c, host, block, seen, v)
  {
    var params := ParamsOf(c, block, seen);
    WaitGivesOnly(c, host, block, params);
    if v :| WaitGives(c, host, block, params, v) {
      assert BlockGives(c, host, block, seen, v);
    }
  }

  lemma ToolFails(c: Config, host: Host, block: Block, seen: map<Id, Value>)
    requires block.kind in c.reg && c.reg[block.kind].kind.Compute?
    ensures RunCompute(host, c.reg[block.kind], block, ParamsOf(c, block, seen)).Threw? <==>
      forall v :: !BlockGives(c, host, block, seen, v)
  {
    var def, params := c.reg[block.kind], ParamsOf(c, block, seen);
    ToolMeans(host, def, block, params);
    if RunCompute(host, def, block, params).Returned? {
      assert BlockGives(c, host, block, seen, RunCompute(host, def, block, params).value);
    }
  }

  /** The walk has come to the k-th block, which is to run and gives nothing. */
  ghost predicate StopsAt(c: Config, host: Host, nodes: Nodes, e: Edges, order: seq<Id>, k: nat)
    requires Elems(order) <= nodes.Keys
  {
    k < |order|
    && var s := StateAt(c, host, nodes, e, order, k);
       && s.Going? && order[k] !in s.skipped && ById(c.wf.blocks, order[k]).Some?
       && forall v :: !BlockGives(c, host, ById(c.wf.blocks, order[k]).value, s.outputs, v)
  }

  lemma {:induction false} RaisedStops(c: Config, host: Host, nodes: Nodes, e: Edges, order: seq<Id>, k: nat)
    requires Sorted(nodes, e, order) && k <= |order| && nodes.Keys == EnabledIds(c.wf.blocks)
    ensures StateAt(c, host, nodes, e, order, k).Raised? <==>
      exists j: nat :: j < k && StopsAt(c, host, nodes, e, order, j)
  {
    if k > 0 {
      RaisedStops(c, host, nodes, e, order, k - 1);
      StateStep(c, host, nodes, e, order, k - 1);
      NextStops(c, host, nodes, e, order, k - 1);
    }
  }

  lemma NextStops(c: Config, host: Host, nodes: Nodes, e: Edges, order: seq<Id>, k: nat)
    requires Sorted(nodes, e, order) && k < |order| && nodes.Keys == EnabledIds(c.wf.blocks)
    ensures StateAt(c, host, nodes, e, order, k).Going? ==>
      (StateAt(c, host, nodes, e, order, k + 1).Raised? <==> StopsAt(c, host, nodes, e, order, k))
  {
    var s := StateAt(c, host, nodes, e, order, k);
    StateStep(c, host, nodes, e, order, k);
    assert order[k] in Elems(order);
    ByIdFinds(c.wf.blocks, order[k]);
    if s.Going? && order[k] !in s.skipped {
      VisitFails(c, host, nodes, e, s, order[k]);
    }
  }

  /** A walk fails exactly when the graph has a cycle or it comes to a block that is to run and gives nothing. */
  lemma WalkFailsExactly(c: Config, host: Host)
    ensures
      var nodes, order := GraphOf(c.wf).nodes, OrderOf(GraphOf(c.wf));
      WalkOf(c, host).Failed? <==>
        || !Acyclic(EnabledEdges(c.wf))
        || (Elems(order) <= nodes.Keys && exists k: nat :: StopsAt(c, host, nodes, EnabledEdges(c.wf), order, k))
  {
    if Acyclic(EnabledEdges(c.wf)) {
      WalkIsSorted(c.wf);
      var order := OrderOf(GraphOf(c.wf));
      RaisedStops(c, host, GraphOf(c.wf).nodes, EnabledEdges(c.wf), order, |order|);
    }
  }
}
