/** Edit operations on a workflow (operations/apply.ts). */
module Edit {
  import opened Graphs
  import opened Workflows
  import opened Resolver
  import opened References
  import Dag

  datatype EditOp =
    | Add(id: Id, kind: string, name: Option<string>, params: Params)
    | Change(id: Id, name: Option<string>, update: Option<Params>)
    | Delete(id: Id)
    | Connect(id: Id, target: Id, handle: Option<string>, condition: Option<string>)
    | Disconnect(id: Id, target: Id)

  datatype SkipReason =
    | BlockNotFound
    | BlockAlreadyExists
    | BlockTypeNotRegistered
    | InvalidEdgeSource
    | InvalidEdgeTarget
    | DuplicateConnection
    | CycleIntroduced
    | EdgeNotFound

  datatype Skip = Skip(reason: SkipReason, op: EditOp)

  /** What one operation does to a workflow. */
  datatype Outcome = Skipped(reason: SkipReason) | Changed(wf: Workflow, errors: seq<ValidationError>)

  // ---- parameters ----

  /** The fields an edit may set: the block's own inputs and the tool parameters open to the model. */
  ghost function Exposed(def: BlockDef, tools: ToolRegistry): set<string> {
    (set s | s in def.subBlocks :: s.id)
    + (set t, k | t in def.access && t in tools && k in tools[t] && tools[t][k] == UserOrLlm :: k)
  }

  function ParamAt(params: Params, key: string): Option<Template> {
    if params == [] then None
    else if params[0].key == key then Some(params[0].template)
    else ParamAt(params[1..], key)
  }

  /** Object spread: a known key keeps its place, a new one goes last. */
  function SetParam(params: Params, p: Param): Params {
    if params == [] then [p]
    else if params[0].key == p.key then [p] + params[1..]
    else [params[0]] + SetParam(params[1..], p)
  }

  function Merged(base: Params, over: Params): Params
    decreases |over|
  {
    if over == [] then base else Merged(SetParam(base, over[0]), over[1..])
  }

  ghost function Kept(raw: Params, allowed: set<string>): Params {
    if raw == [] then []
    else
      var n := |raw| - 1;
      Kept(raw[..n], allowed) + if raw[n].key in allowed then [raw[n]] else []
  }

  ghost function Refused(id: Id, raw: Params, allowed: set<string>): seq<ValidationError> {
    if raw == [] then []
    else
      var n := |raw| - 1;
      Refused(id, raw[..n], allowed) + if raw[n].key in allowed then [] else [FieldNotExposed(id, raw[n].key)]
  }

  predicate IsMissing(t: Option<Template>) {
    || t.None? || t.value == Constant(Undefined)
    || (t.value.Scanned? && Holes(t.value.pieces) == [] && Plain(t.value.pieces) == "")
  }

  ghost function Required(id: Id, params: Params, subs: seq<SubBlock>): seq<ValidationError> {
    if subs == [] then []
    else
      var n := |subs| - 1;
      Required(id, params, subs[..n])
      + if subs[n].required && IsMissing(ParamAt(params, subs[n].id)) then [RequiredMissing(id, subs[n].id)] else []
  }

  method AllowedFields(def: BlockDef, tools: ToolRegistry) returns (allowed: set<string>)
    ensures allowed == Exposed(def, tools)
  {
    allowed := set s | s in def.subBlocks :: s.id;
    for i := 0 to |def.access|
      invariant allowed == Exposed(def.(access := def.access[..i]), tools)
    {
      var tid := def.access[i];
      assert def.access[..i + 1] == def.access[..i] + [tid];
      if tid in tools {
        allowed := allowed + set k | k in tools[tid] && tools[tid][k] == UserOrLlm;
      }
    }
    assert def.access[..|def.access|] == def.access;
  }

  method FilterParams(id: Id, raw: Params, def: BlockDef, tools: ToolRegistry)
    returns (params: Params, errors: seq<ValidationError>)
    ensures params == Kept(raw, Exposed(def, tools))
    ensures errors == Refused(id, raw, Exposed(def, tools)) + Required(id, params, def.subBlocks)
  {
    var allowed := AllowedFields(def, tools);
    params, errors := [], [];
    for i := 0 to |raw|
      invariant params == Kept(raw[..i], allowed) && errors == Refused(id, raw[..i], allowed)
    {
      assert raw[..i + 1][..i] == raw[..i];
      if raw[i].key in allowed {
        params := params + [raw[i]];
      } else {
        errors := errors + [FieldNotExposed(id, raw[i].key)];
      }
    }
    assert raw[..|raw|] == raw;
    ghost var refused := errors;
    for i := 0 to |def.subBlocks|
      invariant errors == refused + Required(id, params, def.subBlocks[..i])
    {
      var sub := def.subBlocks[i];
      assert def.subBlocks[..i + 1][..i] == def.subBlocks[..i];
      if sub.required && IsMissing(ParamAt(params, sub.id)) {
        errors := errors + [RequiredMissing(id, sub.id)];
      }
    }
    assert def.subBlocks[..|def.subBlocks|] == def.subBlocks;
  }

  lemma {:induction false} KeptIsExposed(raw: Params, allowed: set<string>)
    ensures forall p :: p in Kept(raw, allowed) <==> p in raw && p.key in allowed
  {
    if raw != [] {
      var n := |raw| - 1;
      KeptIsExposed(raw[..n], allowed);
      assert raw == raw[..n] + [raw[n]];
    }
  }

  // ---- what an edit leaves in the parameters ----

  /** The block may show the field to an edit: as an input of its own, or as an open parameter of a tool it may call. */
  ghost predicate MayEdit(def: BlockDef, tools: ToolRegistry, key: string) {
    || (exists s :: s in def.subBlocks && s.id == key)
    || (exists t :: t in def.access && t in tools && key in tools[t] && tools[t][key] == UserOrLlm)
  }

  /** The last value that the update gives the key. */
  ghost predicate GivesLast(update: Params, key: string, value: Template) {
    exists i ::
      && 0 <= i < |update| && update[i].key == key && update[i].template == value
      && forall j :: i < j < |update| ==> update[j].key != key
  }

  ghost predicate Gives(update: Params, key: string) {
    exists i :: 0 <= i < |update| && update[i].key == key
  }

  /** Fields that may be edited hold the last value given, or what they held; there are no others. */
  ghost predicate ParamsEdited(before: Params, after: Params, update: Params, def: BlockDef, tools: ToolRegistry) {
    forall key ::
      if !MayEdit(def, tools, key) then !Gives(after, key)
      else if Gives(update, key) then ParamAt(after, key).Some? && GivesLast(update, key, ParamAt(after, key).value)
      else ParamAt(after, key) == ParamAt(before, key)
  }

  /** A required field is left missing: not there, undefined, or an empty text. */
  ghost predicate LeftMissing(def: BlockDef, params: Params, key: string) {
    && (exists s :: s in def.subBlocks && s.id == key && s.required)
    && match ParamAt(params, key)
       case None => true
       case Some(Constant(v)) => v == Undefined
       case Some(Scanned(pieces)) => forall i :: 0 <= i < |pieces| ==> pieces[i] == Literal("")
       case _ => false
  }

  /** The errors of an edit: each given field that may not be edited, and each required one that is left missing. */
  ghost predicate FieldErrors(id: Id, errors: seq<ValidationError>, given: string -> bool, params: Params,
                              def: BlockDef, tools: ToolRegistry)
  {
    forall err :: err in errors <==>
      match err
      case FieldNotExposed(b, key) => b == id && given(key) && !MayEdit(def, tools, key)
      case RequiredMissing(b, key) => b == id && LeftMissing(def, params, key)
      case _ => false
  }

  lemma ExposedMeans(def: BlockDef, tools: ToolRegistry, key: string)
    ensures key in Exposed(def, tools) <==> MayEdit(def, tools, key)
  {
  }

  lemma {:induction false} ParamAtSome(params: Params, key: string)
    ensures ParamAt(params, key).Some? <==> Gives(params, key)
  {
    if params != [] && params[0].key != key {
      ParamAtSome(params[1..], key);
      assert params == [params[0]] + params[1..];
      if Gives(params, key) {
        var i :| 0 <= i < |params| && params[i].key == key;
        assert params[1..][i - 1].key == key;
      }
    }
  }

  lemma {:induction false} ParamAtAppend(a: Params, b: Params, key: string)
    ensures ParamAt(a + b, key) == if ParamAt(a, key).Some? then ParamAt(a, key) else ParamAt(b, key)
  {
    if a == [] {
      assert a + b == b;
    } else {
      ParamAtAppend(a[1..], b, key);
      assert (a + b)[1..] == a[1..] + b;
    }
  }

  lemma {:induction false} ParamAtSet(params: Params, p: Param, key: string)
    ensures ParamAt(SetParam(params, p), key) == if key == p.key then Some(p.template) else ParamAt(params, key)
  {
    if params != [] && params[0].key != p.key {
      ParamAtSet(params[1..], p, key);
    }
  }

  lemma {:induction false} ParamAtKept(raw: Params, allowed: set<string>, key: string)
    ensures ParamAt(Kept(raw, allowed), key) == if key in allowed then ParamAt(raw, key) else None
  {
    if raw != [] {
      var n := |raw| - 1;
      ParamAtKept(raw[..n], allowed, key);
      assert raw == raw[..n] + [raw[n]];
      ParamAtAppend(raw[..n], [raw[n]], key);
      if raw[n].key in allowed {
        ParamAtAppend(Kept(raw[..n], allowed), [raw[n]], key);
      } else {
        assert Kept(raw, allowed) == Kept(raw[..n], allowed);
      }
    }
  }

  /** The update wins, and its last value for a key; other keys keep what they had. */
  lemma {:induction false} ParamAtMerged(base: Params, over: Params, key: string)
    ensures Gives(over, key) ==>
      ParamAt(Merged(base, over), key).Some? && GivesLast(over, key, ParamAt(Merged(base, over), key).value)
    ensures !Gives(over, key) ==> ParamAt(Merged(base, over), key) == ParamAt(base, key)
    decreases |over|
  {
    if over != [] {
      ParamAtMerged(SetParam(base, over[0]), over[1..], key);
      ParamAtSet(base, over[0], key);
      FirstAndRest(over, key);
    }
  }

  lemma FirstAndRest(over: Params, key: string)
    requires over != []
    ensures Gives(over, key) <==> over[0].key == key || Gives(over[1..], key)
    ensures forall v :: GivesLast(over[1..], key, v) ==> GivesLast(over, key, v)
    ensures over[0].key == key && !Gives(over[1..], key) ==> GivesLast(over, key, over[0].template)
  {
    var rest := over[1..];
    if Gives(rest, key) {
      var i :| 0 <= i < |rest| && rest[i].key == key;
      assert over[i + 1].key == key;
    }
    if Gives(over, key) && over[0].key != key {
      var i :| 0 <= i < |over| && over[i].key == key;
      assert rest[i - 1].key == key;
    }
    forall v | GivesLast(rest, key, v)
      ensures GivesLast(over, key, v)
    {
      var i :| 0 <= i < |rest| && rest[i].key == key && rest[i].template == v
        && forall j :: i < j < |rest| ==> rest[j].key != key;
      forall j | i + 1 < j < |over|
        ensures over[j].key != key
      {
        assert over[j] == rest[j - 1];
      }
      assert over[i + 1] == rest[i];
    }
    if over[0].key == key && !Gives(rest, key) {
      forall j | 0 < j < |over|
        ensures over[j].key != key
      {
        assert over[j] == rest[j - 1];
      }
    }
  }

  lemma EditedParams(before: Params, update: Params, def: BlockDef, tools: ToolRegistry)
    ensures ParamsEdited(before, Kept(Merged(before, update), Exposed(def, tools)), update, def, tools)
  {
    var merged := Merged(before, update);
    forall key
      ensures
        var after := Kept(merged, Exposed(def, tools));
        if !MayEdit(def, tools, key) then !Gives(after, key)
        else if Gives(update, key) then ParamAt(after, key).Some? && GivesLast(update, key, ParamAt(after, key).value)
        else ParamAt(after, key) == ParamAt(before, key)
    {
      ExposedMeans(def, tools, key);
      ParamAtKept(merged, Exposed(def, tools), key);
      ParamAtSome(Kept(merged, Exposed(def, tools)), key);
      ParamAtMerged(before, update, key);
    }
  }

  lemma {:induction false} RefusedMeans(id: Id, raw: Params, allowed: set<string>, err: ValidationError)
    ensures err in Refused(id, raw, allowed) <==>
      err.FieldNotExposed? && err.block == id && Gives(raw, err.field) && err.field !in allowed
  {
    if raw != [] {
      var n := |raw| - 1;
      RefusedMeans(id, raw[..n], allowed, err);
      if err.FieldNotExposed? && Gives(raw, err.field) {
        var i :| 0 <= i < |raw| && raw[i].key == err.field;
        assert i < n ==> raw[..n][i].key == err.field;
      }
    }
  }

  lemma {:induction false} NothingPlain(pieces: seq<Piece>)
    ensures Holes(pieces) == [] && Plain(pieces) == "" <==> forall i :: 0 <= i < |pieces| ==> pieces[i] == Literal("")
  {
    if pieces != [] {
      NothingPlain(pieces[1..]);
      assert pieces == [pieces[0]] + pieces[1..];
    }
  }

  lemma {:induction false} RequiredMeans(id: Id, params: Params, subs: seq<SubBlock>, err: ValidationError)
    ensures err in Required(id, params, subs) <==>
      && err.RequiredMissing? && err.block == id && IsMissing(ParamAt(params, err.field))
      && exists s :: s in subs && s.id == err.field && s.required
  {
    if subs != [] {
      var n := |subs| - 1;
      RequiredMeans(id, params, subs[..n], err);
      assert subs == subs[..n] + [subs[n]];
    }
  }

  lemma FieldErrorsMean(id: Id, raw: Params, def: BlockDef, tools: ToolRegistry)
    ensures
      var allowed := Exposed(def, tools);
      var params := Kept(raw, allowed);
      FieldErrors(id, Refused(id, raw, allowed) + Required(id, params, def.subBlocks), (key: string) => Gives(raw, key),
                  params, def, tools)
  {
    var allowed := Exposed(def, tools);
    var params := Kept(raw, allowed);
    forall err
      ensures err in Refused(id, raw, allowed) + Required(id, params, def.subBlocks) <==>
        match err
        case FieldNotExposed(b, key) => b == id && Gives(raw, key) && !MayEdit(def, tools, key)
        case RequiredMissing(b, key) => b == id && LeftMissing(def, params, key)
        case _ => false
    {
      RefusedMeans(id, raw, allowed, err);
      RequiredMeans(id, params, def.subBlocks, err);
      if err.FieldNotExposed? {
        ExposedMeans(def, tools, err.field);
      }
      if err.RequiredMissing? && ParamAt(params, err.field).Some? && ParamAt(params, err.field).value.Scanned? {
        NothingPlain(ParamAt(params, err.field).value.pieces);
      }
    }
  }

  // ---- what each operation means ----

  /** Index of the first block with this id, or the number of blocks. */
  function Find(blocks: seq<Block>, id: Id): (r: nat)
    ensures r <= |blocks| && (r < |blocks| ==> blocks[r].id == id)
    ensures r == |blocks| <==> id !in Ids(blocks)
    ensures forall i :: 0 <= i < r ==> blocks[i].id != id
  {
    if blocks == [] then 0
    else if blocks[0].id == id then assert blocks[0] in blocks; 0
    else
      assert blocks == [blocks[0]] + blocks[1..];
      1 + Find(blocks[1..], id)
  }

  /** Index of the first connection from s to t, or the number of connections. */
  function FindEdge(conns: seq<Connection>, s: Id, t: Id): (r: nat)
    ensures r <= |conns| && (r < |conns| ==> conns[r].source == s && conns[r].target == t)
    ensures forall i :: 0 <= i < r ==> conns[i].source != s || conns[i].target != t
  {
    if conns == [] then 0
    else if conns[0].source == s && conns[0].target == t then 0
    else 1 + FindEdge(conns[1..], s, t)
  }

  predicate HasConnection(conns: seq<Connection>, s: Id, t: Id, handle: Option<string>) {
    exists i :: 0 <= i < |conns| && conns[i].source == s && conns[i].target == t && conns[i].handle == handle
  }

  /** An empty string is stored as if it were absent. */
  function Stored(text: Option<string>): Option<string> {
    if text == Some("") then None else text
  }

  function NewConnection(op: EditOp): Connection
    requires op.Connect?
  {
    Connection(op.id, op.target, Stored(op.handle), Stored(op.condition))
  }

  function Without(conns: seq<Connection>, id: Id): seq<Connection> {
    if conns == [] then []
    else
      var n := |conns| - 1;
      Without(conns[..n], id) + if conns[n].source != id && conns[n].target != id then [conns[n]] else []
  }

  ghost function AddOutcome(wf: Workflow, op: EditOp, reg: BlockRegistry, tools: ToolRegistry): Outcome
    requires op.Add?
  {
    if op.id in Ids(wf.blocks) then Skipped(BlockAlreadyExists)
    else if op.kind !in reg then Skipped(BlockTypeNotRegistered)
    else
      var allowed := Exposed(reg[op.kind], tools);
      var params := Kept(op.params, allowed);
      Changed(wf.(blocks := wf.blocks + [Block(op.id, op.kind, op.name, true, params)]),
              Refused(op.id, op.params, allowed) + Required(op.id, params, reg[op.kind].subBlocks))
  }

  ghost function ChangeOutcome(wf: Workflow, op: EditOp, reg: BlockRegistry, tools: ToolRegistry): Outcome
    requires op.Change?
  {
    var i := Find(wf.blocks, op.id);
    if i == |wf.blocks| then Skipped(BlockNotFound)
    else if wf.blocks[i].kind !in reg then Skipped(BlockTypeNotRegistered)
    else
      var block := wf.blocks[i].(name := if op.name.Some? then op.name else wf.blocks[i].name);
      if op.update.None? then Changed(wf.(blocks := wf.blocks[i := block]), [])
      else
        var def := reg[block.kind];
        var raw := Merged(block.params, op.update.value);
        var params := Kept(raw, Exposed(def, tools));
        Changed(wf.(blocks := wf.blocks[i := block.(params := params)]),
                Refused(op.id, raw, Exposed(def, tools)) + Required(op.id, params, def.subBlocks))
  }

  ghost function DeleteOutcome(wf: Workflow, op: EditOp): Outcome
    requires op.Delete?
  {
    var i := Find(wf.blocks, op.id);
    if i == |wf.blocks| then Skipped(BlockNotFound)
    else Changed(wf.(blocks := wf.blocks[..i] + wf.blocks[i + 1..], conns := Without(wf.conns, op.id)), [])
  }

  ghost function ConnectOutcome(wf: Workflow, op: EditOp): Outcome
    requires op.Connect?
  {
    if op.id !in Ids(wf.blocks) then Skipped(InvalidEdgeSource)
    else if op.target !in Ids(wf.blocks) then Skipped(InvalidEdgeTarget)
    else if HasConnection(wf.conns, op.id, op.target, op.handle) then Skipped(DuplicateConnection)
    else
      var trial := wf.(conns := wf.conns + [NewConnection(op)]);
      if !Acyclic(EnabledEdges(trial)) then Skipped(CycleIntroduced) else Changed(trial, [])
  }

  ghost function DisconnectOutcome(wf: Workflow, op: EditOp): Outcome
    requires op.Disconnect?
  {
    var i := FindEdge(wf.conns, op.id, op.target);
    if i == |wf.conns| then Skipped(EdgeNotFound)
    else Changed(wf.(conns := wf.conns[..i] + wf.conns[i + 1..]), [])
  }

  ghost function OpOutcome(wf: Workflow, op: EditOp, reg: BlockRegistry, tools: ToolRegistry): Outcome {
    match op
    case Add(_, _, _, _) => AddOutcome(wf, op, reg, tools)
    case Change(_, _, _) => ChangeOutcome(wf, op, reg, tools)
    case Delete(_) => DeleteOutcome(wf, op)
    case Connect(_, _, _, _) => ConnectOutcome(wf, op)
    case Disconnect(_, _) => DisconnectOutcome(wf, op)
  }

  // ---- the same in terms of the workflow before and after ----

  /** The first block of that id. */
  ghost predicate First(blocks: seq<Block>, id: Id, i: int) {
    0 <= i < |blocks| && blocks[i].id == id && forall j :: 0 <= j < i ==> blocks[j].id != id
  }

  ghost predicate Known(wf: Workflow, id: Id) {
    exists i :: 0 <= i < |wf.blocks| && wf.blocks[i].id == id
  }

  /** The first block of the id is of a registered kind. */
  ghost predicate Editable(wf: Workflow, id: Id, reg: BlockRegistry) {
    exists i :: First(wf.blocks, id, i) && wf.blocks[i].kind in reg
  }

  ghost predicate BlockChanged(b: Block, b': Block, op: EditOp, def: BlockDef, tools: ToolRegistry)
    requires op.Change?
  {
    && b' == b.(name := b'.name, params := b'.params) && b'.name == (if op.name.Some? then op.name else b.name)
    && if op.update.None? then b'.params == b.params else ParamsEdited(b.params, b'.params, op.update.value, def, tools)
  }

  /** The first block of the id is changed as asked; everything else is as it was. */
  ghost predicate Changes(wf: Workflow, wf': Workflow, errs: seq<ValidationError>, op: EditOp, reg: BlockRegistry,
                          tools: ToolRegistry)
    requires op.Change?
  {
    exists i ::
      && First(wf.blocks, op.id, i) && wf.blocks[i].kind in reg && |wf'.blocks| == |wf.blocks|
      && wf' == wf.(blocks := wf.blocks[i := wf'.blocks[i]])
      && BlockChanged(wf.blocks[i], wf'.blocks[i], op, reg[wf.blocks[i].kind], tools)
      && if op.update.None? then errs == []
         else FieldErrors(op.id, errs, (key: string) => Gives(op.update.value, key) || Gives(wf.blocks[i].params, key),
                          wf'.blocks[i].params, reg[wf.blocks[i].kind], tools)
  }

  lemma ChangeMeans(wf: Workflow, op: EditOp, reg: BlockRegistry, tools: ToolRegistry)
    requires op.Change?
    ensures
      match ChangeOutcome(wf, op, reg, tools)
      case Skipped(reason) =>
        !Editable(wf, op.id, reg) && reason == if Known(wf, op.id) then BlockTypeNotRegistered else BlockNotFound
      case Changed(wf', errs) => Editable(wf, op.id, reg) && Changes(wf, wf', errs, op, reg, tools)
  {
    var i := Find(wf.blocks, op.id);
    FindsFirst(wf, op.id);
    if i < |wf.blocks| && wf.blocks[i].kind in reg && op.update.Some? {
      UpdateMeans(op.id, wf.blocks[i].params, op.update.value, reg[wf.blocks[i].kind], tools);
    }
  }

  lemma UpdateMeans(id: Id, params: Params, update: Params, def: BlockDef, tools: ToolRegistry)
    ensures
      var merged, allowed := Merged(params, update), Exposed(def, tools);
      && ParamsEdited(params, Kept(merged, allowed), update, def, tools)
      && FieldErrors(id, Refused(id, merged, allowed) + Required(id, Kept(merged, allowed), def.subBlocks),
                     (key: string) => Gives(update, key) || Gives(params, key), Kept(merged, allowed), def, tools)
  {
    var merged := Merged(params, update);
    EditedParams(params, update, def, tools);
    FieldErrorsMean(id, merged, def, tools);
    forall key
      ensures Gives(merged, key) <==> Gives(update, key) || Gives(params, key)
    {
      ParamAtSome(merged, key);
      ParamAtSome(params, key);
      ParamAtMerged(params, update, key);
    }
  }

  lemma FindsFirst(wf: Workflow, id: Id)
    ensures
      var i := Find(wf.blocks, id);
      if i < |wf.blocks| then First(wf.blocks, id, i) && forall j :: First(wf.blocks, id, j) ==> j == i
      else !Known(wf, id)
    ensures Known(wf, id) <==> id in Ids(wf.blocks)
  {
    forall i | 0 <= i < |wf.blocks|
      ensures wf.blocks[i].id in Ids(wf.blocks)
    {
      assert wf.blocks[i] in wf.blocks;
    }
  }

  /** A new block comes last, with the given fields that may be edited and no others. */
  ghost predicate Adds(wf: Workflow, wf': Workflow, errs: seq<ValidationError>, op: EditOp, reg: BlockRegistry,
                       tools: ToolRegistry)
    requires op.Add?
  {
    && op.kind in reg && |wf'.blocks| == |wf.blocks| + 1
    && var b := wf'.blocks[|wf.blocks|];
       && wf' == wf.(blocks := wf.blocks + [b]) && b == Block(op.id, op.kind, op.name, true, b.params)
       && (forall key ::
             ParamAt(b.params, key) == if MayEdit(reg[op.kind], tools, key) then ParamAt(op.params, key) else None)
       && FieldErrors(op.id, errs, (key: string) => Gives(op.params, key), b.params, reg[op.kind], tools)
  }

  lemma AddMeans(wf: Workflow, op: EditOp, reg: BlockRegistry, tools: ToolRegistry)
    requires op.Add?
    ensures
      match AddOutcome(wf, op, reg, tools)
      case Skipped(reason) =>
        if Known(wf, op.id) then reason == BlockAlreadyExists
        else op.kind !in reg && reason == BlockTypeNotRegistered
      case Changed(wf', errs) => !Known(wf, op.id) && Adds(wf, wf', errs, op, reg, tools)
  {
    FindsFirst(wf, op.id);
    if op.kind in reg {
      FieldErrorsMean(op.id, op.params, reg[op.kind], tools);
      forall key
        ensures ParamAt(Kept(op.params, Exposed(reg[op.kind], tools)), key)
          == if MayEdit(reg[op.kind], tools, key) then ParamAt(op.params, key) else None
      {
        ExposedMeans(reg[op.kind], tools, key);
        ParamAtKept(op.params, Exposed(reg[op.kind], tools), key);
      }
    }
  }

  /** These are the places of the connections that do not touch the id, in order, and what stands there. */
  ghost predicate StandAt(conns: seq<Connection>, conns': seq<Connection>, id: Id, at: seq<nat>) {
    && |at| == |conns'| && (forall k :: 0 <= k < |at| ==> at[k] < |conns| && conns'[k] == conns[at[k]])
    && (forall k, n :: 0 <= k < n < |at| ==> at[k] < at[n])
    && forall i :: 0 <= i < |conns| ==> (i in at <==> conns[i].source != id && conns[i].target != id)
  }

  /** The connections that do not touch the id, in their order. */
  ghost predicate Untouched(conns: seq<Connection>, conns': seq<Connection>, id: Id) {
    exists at :: StandAt(conns, conns', id, at)
  }

  lemma {:induction false} WithoutMeans(conns: seq<Connection>, id: Id) returns (at: seq<nat>)
    ensures StandAt(conns, Without(conns, id), id, at)
  {
    at := [];
    if conns != [] {
      var n := |conns| - 1;
      at := WithoutMeans(conns[..n], id);
      OneMoreStands(conns, Without(conns[..n], id), id, at);
      if conns[n].source != id && conns[n].target != id {
        at := at + [n];
      }
    }
  }

  lemma OneMoreStands(conns: seq<Connection>, before: seq<Connection>, id: Id, at: seq<nat>)
    requires conns != [] && StandAt(conns[..|conns| - 1], before, id, at)
    ensures
      var n := |conns| - 1;
      if conns[n].source != id && conns[n].target != id then StandAt(conns, before + [conns[n]], id, at + [n])
      else StandAt(conns, before, id, at)
  {
    var n := |conns| - 1;
    forall i | 0 <= i < n
      ensures conns[..n][i] == conns[i]
    {
    }
    assert n !in at;
  }

  /** The first block of the id is gone, and with it every connection that touches the id. */
  ghost predicate Deletes(wf: Workflow, wf': Workflow, id: Id) {
    && wf'.variables == wf.variables && Untouched(wf.conns, wf'.conns, id)
    && exists i :: First(wf.blocks, id, i) && wf'.blocks == wf.blocks[..i] + wf.blocks[i + 1..]
  }

  lemma DeleteMeans(wf: Workflow, op: EditOp)
    requires op.Delete?
    ensures
      match DeleteOutcome(wf, op)
      case Skipped(reason) => !Known(wf, op.id) && reason == BlockNotFound
      case Changed(wf', errs) => errs == [] && Deletes(wf, wf', op.id)
  {
    FindsFirst(wf, op.id);
    var at := WithoutMeans(wf.conns, op.id);
  }

  predicate Given(text: Option<string>) {
    text.Some? && text.value != ""
  }

  /** The connection comes last, with the handle and condition that are given and not empty. */
  ghost predicate Connects(wf: Workflow, wf': Workflow, op: EditOp)
    requires op.Connect?
  {
    && |wf'.conns| == |wf.conns| + 1
    && var c := wf'.conns[|wf.conns|];
       && wf' == wf.(conns := wf.conns + [c]) && c.source == op.id && c.target == op.target
       && c.handle == (if Given(op.handle) then op.handle else None)
       && c.condition == (if Given(op.condition) then op.condition else None)
  }

  ghost predicate AlreadyThere(wf: Workflow, op: EditOp)
    requires op.Connect?
  {
    exists c :: c in wf.conns && c.source == op.id && c.target == op.target && c.handle == op.handle
  }

  /** The first refusal that applies, or the connection is made and leaves the enabled graph acyclic. */
  lemma ConnectMeans(wf: Workflow, op: EditOp)
    requires op.Connect?
    ensures
      match ConnectOutcome(wf, op)
      case Skipped(reason) =>
        if !Known(wf, op.id) then reason == InvalidEdgeSource
        else if !Known(wf, op.target) then reason == InvalidEdgeTarget
        else if AlreadyThere(wf, op) then reason == DuplicateConnection
        else
          && reason == CycleIntroduced
          && forall wf' :: Connects(wf, wf', op) ==> !Acyclic(EnabledEdges(wf'))
      case Changed(wf', errs) =>
        && errs == [] && Known(wf, op.id) && Known(wf, op.target) && !AlreadyThere(wf, op)
        && Connects(wf, wf', op) && Acyclic(EnabledEdges(wf'))
  {
    FindsFirst(wf, op.id);
    FindsFirst(wf, op.target);
    var made := wf.(conns := wf.conns + [NewConnection(op)]);
    forall wf' | Connects(wf, wf', op)
      ensures wf' == made
    {
      assert wf'.conns == made.conns;
    }
    assert HasConnection(wf.conns, op.id, op.target, op.handle) <==> AlreadyThere(wf, op) by {
      if AlreadyThere(wf, op) {
        var c :| c in wf.conns && c.source == op.id && c.target == op.target && c.handle == op.handle;
        var i :| 0 <= i < |wf.conns| && wf.conns[i] == c;
      }
    }
  }

  /** The first connection between the two is gone. */
  ghost predicate Disconnects(wf: Workflow, wf': Workflow, op: EditOp)
    requires op.Disconnect?
  {
    exists i ::
      && 0 <= i < |wf.conns| && wf.conns[i].source == op.id && wf.conns[i].target == op.target
      && (forall j :: 0 <= j < i ==> wf.conns[j].source != op.id || wf.conns[j].target != op.target)
      && wf' == wf.(conns := wf.conns[..i] + wf.conns[i + 1..])
  }

  lemma DisconnectMeans(wf: Workflow, op: EditOp)
    requires op.Disconnect?
    ensures
      match DisconnectOutcome(wf, op)
      case Skipped(reason) =>
        reason == EdgeNotFound && forall c :: c in wf.conns ==> c.source != op.id || c.target != op.target
      case Changed(wf', errs) => errs == [] && Disconnects(wf, wf', op)
  {
  }

  /** The workflow with the reports made so far. */
  datatype Batch = Batch(wf: Workflow, skipped: seq<Skip>, errors: seq<ValidationError>)

  /** A skipped operation is reported and changes nothing; another one replaces the workflow. */
  ghost function After(b: Batch, op: EditOp, out: Outcome): Batch {
    match out
    case Skipped(reason) => b.(skipped := b.skipped + [Skip(reason, op)])
    case Changed(wf, errs) => b.(wf := wf, errors := b.errors + errs)
  }

  /** The state the handlers share: a private copy of the workflow and the two report lists. */
  class Draft {
    var blocks: seq<Block>
    var conns: seq<Connection>
    const variables: Value
    var skipped: seq<Skip>
    var errors: seq<ValidationError>

    constructor (wf: Workflow)
      ensures Wf() == wf && skipped == [] && errors == []
    {
      blocks, conns, variables := wf.blocks, wf.conns, wf.variables;
      skipped, errors := [], [];
    }

    function Wf(): Workflow
      reads this
    {
      Workflow(blocks, conns, variables)
    }

    ghost function State(): Batch
      reads this
    {
      Batch(Wf(), skipped, errors)
    }

    method PushSkip(reason: SkipReason, op: EditOp)
      modifies this`skipped
      ensures skipped == old(skipped) + [Skip(reason, op)]
    {
      skipped := skipped + [Skip(reason, op)];
    }

    method ApplyAdd(op: EditOp, reg: BlockRegistry, tools: ToolRegistry)
      requires op.Add?
      modifies this
      ensures State() == After(old(State()), op, AddOutcome(old(Wf()), op, reg, tools))
    {
      if Find(blocks, op.id) < |blocks| {
        PushSkip(BlockAlreadyExists, op);
        return;
      }
      if op.kind !in reg {
        PushSkip(BlockTypeNotRegistered, op);
        return;
      }
      var params, fieldErrors := FilterParams(op.id, op.params, reg[op.kind], tools);
      errors := errors + fieldErrors;
      blocks := blocks + [Block(op.id, op.kind, op.name, true, params)];
    }

    method ApplyChange(op: EditOp, reg: BlockRegistry, tools: ToolRegistry)
      requires op.Change?
      modifies this
      ensures State() == After(old(State()), op, ChangeOutcome(old(Wf()), op, reg, tools))
      ensures
        if Editable(old(Wf()), op.id, reg) then
          && skipped == old(skipped) && old(errors) <= errors
          && Changes(old(Wf()), Wf(), errors[|old(errors)|..], op, reg, tools)
        else Wf() == old(Wf()) && errors == old(errors) && |skipped| == |old(skipped)| + 1
    {
      ChangeMeans(Wf(), op, reg, tools);
      var i := Find(blocks, op.id);
      if i == |blocks| {
        PushSkip(BlockNotFound, op);
        return;
      }
      if blocks[i].kind !in reg {
        PushSkip(BlockTypeNotRegistered, op);
        return;
      }
      var block := blocks[i];
      if op.name.Some? {
        block := block.(name := op.name);
      }
      if op.update.Some? {
        var params, fieldErrors := FilterParams(op.id, Merged(block.params, op.update.value), reg[block.kind], tools);
        errors := errors + fieldErrors;
        block := block.(params := params);
      }
      blocks := blocks[i := block];
    }

    method ApplyDelete(op: EditOp)
      requires op.Delete?
      modifies this
      ensures State() == After(old(State()), op, DeleteOutcome(old(Wf()), op))
    {
      var i := Find(blocks, op.id);
      if i == |blocks| {
        PushSkip(BlockNotFound, op);
        return;
      }
      blocks := blocks[..i] + blocks[i + 1..];
      conns := Without(conns, op.id);
    }

    method ApplyConnect(op: EditOp)
      requires op.Connect?
      modifies this
      ensures State() == After(old(State()), op, ConnectOutcome(old(Wf()), op))
    {
      if Find(blocks, op.id) == |blocks| {
        PushSkip(InvalidEdgeSource, op);
        return;
      }
      if Find(blocks, op.target) == |blocks| {
        PushSkip(InvalidEdgeTarget, op);
        return;
      }
      if HasConnection(conns, op.id, op.target, op.handle) {
        PushSkip(DuplicateConnection, op);
        return;
      }
      var trial := Wf().(conns := conns + [NewConnection(op)]);
      var built := Dag.BuildDag(trial);
      if built.CycleError? {
        PushSkip(CycleIntroduced, op);
        return;
      }
      conns := conns + [NewConnection(op)];
    }

    method ApplyDisconnect(op: EditOp)
      requires op.Disconnect?
      modifies this
      ensures State() == After(old(State()), op, DisconnectOutcome(old(Wf()), op))
    {
      var i := FindEdge(conns, op.id, op.target);
      if i == |conns| {
        PushSkip(EdgeNotFound, op);
        return;
      }
      conns := conns[..i] + conns[i + 1..];
    }

    method Apply(op: EditOp, reg: BlockRegistry, tools: ToolRegistry)
      modifies this
      ensures State() == After(old(State()), op, OpOutcome(old(Wf()), op, reg, tools))
    {
      match op {
        case Add(_, _, _, _) => ApplyAdd(op, reg, tools);
        case Change(_, _, _) => ApplyChange(op, reg, tools);
        case Delete(_) => ApplyDelete(op);
        case Connect(_, _, _, _) => ApplyConnect(op);
        case Disconnect(_, _) => ApplyDisconnect(op);
      }
    }
  }

  // ---- applyOperations ----

  ghost function Run(b: Batch, ops: seq<EditOp>, reg: BlockRegistry, tools: ToolRegistry): Batch {
    if ops == [] then b
    else
      var before, op := Run(b, ops[..|ops| - 1], reg, tools), ops[|ops| - 1];
      After(before, op, OpOutcome(before.wf, op, reg, tools))
  }

  /** The errors of the whole-graph checks that follow the operations. */
  ghost function FinalErrors(wf: Workflow, reg: BlockRegistry): seq<ValidationError> {
    (if Acyclic(EnabledEdges(wf)) then [] else [GraphInvalid]) + BlockErrors(wf, reg, wf.blocks)
  }

  datatype Applied = Applied(ok: bool, wf: Workflow, errors: seq<ValidationError>, skipped: seq<Skip>)

  method ApplyAll(draft: Draft, ops: seq<EditOp>, reg: BlockRegistry, tools: ToolRegistry)
    modifies draft
    ensures draft.State() == Run(old(draft.State()), ops, reg, tools)
  {
    ghost var start := draft.State();
    for i := 0 to |ops|
      invariant draft.State() == Run(start, ops[..i], reg, tools)
    {
      assert ops[..i + 1][..i] == ops[..i];
      draft.Apply(ops[i], reg, tools);
    }
    assert ops[..|ops|] == ops;
  }

  /** Whole-graph validation after all operations. */
  method Validate(wf: Workflow, reg: BlockRegistry, errors: seq<ValidationError>)
    returns (errors': seq<ValidationError>)
    ensures errors' == errors + FinalErrors(wf, reg)
  {
    var built := Dag.BuildDag(wf);
    var cyclic := if built.CycleError? then [GraphInvalid] else [];
    errors' := ValidateReferences(wf, reg, errors + cyclic);
    assert errors + cyclic + BlockErrors(wf, reg, wf.blocks) == errors + (cyclic + BlockErrors(wf, reg, wf.blocks));
  }

  method ApplyOperations(wf: Workflow, ops: seq<EditOp>, reg: BlockRegistry, tools: ToolRegistry) returns (r: Applied)
    ensures
      var b := Run(Batch(wf, [], []), ops, reg, tools);
      && r.wf == b.wf && r.skipped == b.skipped
      && r.errors == b.errors + FinalErrors(b.wf, reg)
      && (r.ok <==> r.errors == [] && r.skipped == [])
  {
    var draft := new Draft(wf);
    ApplyAll(draft, ops, reg, tools);
    var errors := Validate(draft.Wf(), reg, draft.errors);
    r := Applied(errors == [] && draft.skipped == [], draft.Wf(), errors, draft.skipped);
  }
}
