/** Reference validation: the upstream fixpoint and the checks on every reference (operations/apply.ts). */
module References {
  import opened Graphs
  import opened Workflows
  import opened Resolver

  // ---- the upstream fixpoint ----

  type Upstream = map<Id, set<Id>>

  /** Connections that end at a known block, enabled or not. */
  ghost function ReferenceEdges(ids: set<Id>, conns: seq<Connection>): Edges {
    set c | c in conns && c.target in ids :: (c.source, c.target)
  }

  ghost function Pairs(up: Upstream): Edges {
    set b, u | b in up && u in up[b] :: (u, b)
  }

  ghost function AllPairs(ids: set<Id>, conns: seq<Connection>): Edges {
    set c, b | c in conns && b in ids :: (c.source, b)
  }

  /** Every recorded upstream block really leads here. */
  ghost predicate OnlyUpstream(up: Upstream, e: Edges) {
    forall b, u :: b in up && u in up[b] ==> Reaches(e, u, b)
  }

  /** The connection adds nothing any more. */
  ghost predicate Settled(up: Upstream, c: Connection) {
    c.target in up ==> c.source in up[c.target] && (c.source in up ==> up[c.source] <= up[c.target])
  }

  function Propagated(up: Upstream, c: Connection): Upstream {
    if c.target !in up then up
    else up[c.target := up[c.target] + {c.source} + if c.source in up then up[c.source] else {}]
  }

  lemma PropagatedIsUpstream(up: Upstream, e: Edges, c: Connection)
    requires OnlyUpstream(up, e) && (c.target in up ==> (c.source, c.target) in e)
    ensures OnlyUpstream(Propagated(up, c), e)
  {
    if c.target in up {
      EdgeReaches(e, c.source, c.target);
      if c.source in up {
        forall u | u in up[c.source]
          ensures Reaches(e, u, c.target)
        {
          ReachesTransitive(e, u, c.source, c.target);
        }
      }
    }
  }

  lemma PropagatedPairs(up: Upstream, ids: set<Id>, conns: seq<Connection>, c: Connection)
    requires up.Keys == ids && c in conns && Pairs(up) <= AllPairs(ids, conns)
    ensures Propagated(up, c).Keys == ids
    ensures Pairs(up) <= Pairs(Propagated(up, c)) <= AllPairs(ids, conns)
  {
    var up' := Propagated(up, c);
    forall p | p in Pairs(up')
      ensures p in AllPairs(ids, conns)
    {
      var (u, b) := p;
      if u in up[b] {
        assert (u, b) in Pairs(up);
      } else if u != c.source {
        assert (u, c.source) in Pairs(up);
        var d :| d in conns && d.source == u;
      }
    }
  }

  /** A set that keeps its size under added elements is unchanged. */
  lemma SizeTells(up: Upstream, c: Connection)
    requires c.target in up
    ensures |Propagated(up, c)[c.target]| == |up[c.target]| <==> Settled(up, c)
    ensures Settled(up, c) ==> Propagated(up, c) == up
    ensures !Settled(up, c) ==> Pairs(Propagated(up, c)) != Pairs(up)
  {
    var ups, ups' := up[c.target], Propagated(up, c)[c.target];
    assert Settled(up, c) <==> ups' == ups;
    if |ups'| == |ups| {
      SameSize(ups, ups');
    }
    if ups' != ups {
      var u :| u in ups' && u !in ups;
      assert (u, c.target) in Pairs(Propagated(up, c)) && (u, c.target) !in Pairs(up);
    }
  }

  /** One pass over the connections. */
  method Pass(ids: set<Id>, conns: seq<Connection>, up: Upstream) returns (up': Upstream, changed: bool)
    requires up.Keys == ids && OnlyUpstream(up, ReferenceEdges(ids, conns)) && Pairs(up) <= AllPairs(ids, conns)
    ensures up'.Keys == ids && OnlyUpstream(up', ReferenceEdges(ids, conns)) && Pairs(up') <= AllPairs(ids, conns)
    ensures changed ==> Pairs(up) < Pairs(up')
    ensures !changed ==> up' == up && forall c :: c in conns ==> Settled(up, c)
  {
    up', changed := up, false;
    for i := 0 to |conns|
      invariant up'.Keys == ids && OnlyUpstream(up', ReferenceEdges(ids, conns)) && Pairs(up') <= AllPairs(ids, conns)
      invariant Pairs(up) <= Pairs(up')
      invariant changed ==> Pairs(up) != Pairs(up')
      invariant !changed ==> up' == up && forall k :: 0 <= k < i ==> Settled(up, conns[k])
    {
      var conn := conns[i];
      if conn.target in up' {
        PropagatedIsUpstream(up', ReferenceEdges(ids, conns), conn);
        PropagatedPairs(up', ids, conns, conn);
        SizeTells(up', conn);
        var before := |up'[conn.target]|;
        up' := Propagated(up', conn);
        if |up'[conn.target]| != before {
          changed := true;
        }
      }
    }
  }

  /** Iterates until nothing changes: upstream is then exactly reachability over the connections. */
  method UpstreamClosure(ids: set<Id>, conns: seq<Connection>) returns (up: Upstream)
    ensures up.Keys == ids
    ensures forall b, u :: b in ids ==> (u in up[b] <==> Reaches(ReferenceEdges(ids, conns), u, b))
  {
    up := map id | id in ids :: {};
    var changed := true;
    while changed
      invariant up.Keys == ids && OnlyUpstream(up, ReferenceEdges(ids, conns)) && Pairs(up) <= AllPairs(ids, conns)
      invariant !changed ==> forall c :: c in conns ==> Settled(up, c)
      decreases AllPairs(ids, conns) - Pairs(up), changed
    {
      ghost var before := up;
      up, changed := Pass(ids, conns, up);
      if changed {
        Fewer(AllPairs(ids, conns), Pairs(before), Pairs(up));
      }
    }
    forall b, u | b in ids && Reaches(ReferenceEdges(ids, conns), u, b)
      ensures u in up[b]
    {
      var p :| PathFromTo(ReferenceEdges(ids, conns), p, u, b);
      SettledPath(up, ids, conns, p);
    }
  }

  lemma Fewer(all: Edges, a: Edges, b: Edges)
    requires a < b <= all
    ensures all - b < all - a
  {
  }

  lemma {:induction false} SettledPath(up: Upstream, ids: set<Id>, conns: seq<Connection>, p: seq<Id>)
    requires up.Keys == ids && (forall c :: c in conns ==> Settled(up, c))
    requires IsPath(ReferenceEdges(ids, conns), p)
    ensures p[|p| - 1] in ids && p[0] in up[p[|p| - 1]]
    decreases |p|
  {
    var n := |p| - 1;
    assert (p[n - 1], p[n]) in ReferenceEdges(ids, conns);
    var c :| c in conns && c.target in ids && (c.source, c.target) == (p[n - 1], p[n]);
    assert Settled(up, c);
    if n > 1 {
      SettledPath(up, ids, conns, p[..n]);
    }
  }

  // ---- the checks ----

  datatype ValidationError =
    | GraphInvalid
    | FieldNotExposed(block: Id, field: string)
    | RequiredMissing(block: Id, field: string)
    | UnknownTarget(block: Id, ref: Ref)
    | NotUpstream(block: Id, ref: Ref, target: Id)
    | NoSuchOutput(block: Id, ref: Ref, target: Id)

  /** blocksById: a later block with the same id replaces an earlier one. */
  function ById(blocks: seq<Block>, id: Id): Option<Block> {
    if blocks == [] then None
    else
      var b := blocks[|blocks| - 1];
      if b.id == id then Some(b) else ById(blocks[..|blocks| - 1], id)
  }

  /** blocksByName: empty names are not recorded, later blocks replace earlier ones. */
  function ByName(blocks: seq<Block>, name: string): Option<Block> {
    if blocks == [] then None
    else
      var b := blocks[|blocks| - 1];
      if name != "" && b.name == Some(name) then Some(b) else ByName(blocks[..|blocks| - 1], name)
  }

  /** The block a reference means to the validator: an id first, then a name. */
  function TargetAtValidation(blocks: seq<Block>, ref: Ref): Option<Block> {
    var byId := ById(blocks, ref.head);
    if byId.Some? then byId else ByName(blocks, ref.head)
  }

  /** The error the validator reports for one reference of a block, if any. */
  ghost function RefError(wf: Workflow, reg: BlockRegistry, block: Block, ref: Ref): Option<ValidationError> {
    if IsAmbient(ref) then None
    else
      match TargetAtValidation(wf.blocks, ref)
      case None => Some(UnknownTarget(block.id, ref))
      case Some(target) =>
        if !Reaches(ReferenceEdges(Ids(wf.blocks), wf.conns), target.id, block.id) then
          Some(NotUpstream(block.id, ref, target.id))
        else if target.kind in reg && ref.path != [] && ref.path[0] !in reg[target.kind].outputs then
          Some(NoSuchOutput(block.id, ref, target.id))
        else None
  }

  ghost function RefErrors(wf: Workflow, reg: BlockRegistry, block: Block, refs: seq<Ref>): seq<ValidationError> {
    if refs == [] then []
    else
      var n := |refs| - 1;
      var err := RefError(wf, reg, block, refs[n]);
      RefErrors(wf, reg, block, refs[..n]) + if err.Some? then [err.value] else []
  }

  ghost function BlockErrors(wf: Workflow, reg: BlockRegistry, blocks: seq<Block>): seq<ValidationError> {
    if blocks == [] then []
    else
      var n := |blocks| - 1;
      BlockErrors(wf, reg, blocks[..n]) + RefErrors(wf, reg, blocks[n], Refs(Fields(blocks[n].params)))
  }

  method CheckRef(wf: Workflow, reg: BlockRegistry, up: Upstream, block: Block, ref: Ref)
    returns (err: Option<ValidationError>)
    requires up.Keys == Ids(wf.blocks) && block in wf.blocks
    requires forall b, u :: b in up ==> (u in up[b] <==> Reaches(ReferenceEdges(up.Keys, wf.conns), u, b))
    ensures err == RefError(wf, reg, block, ref)
  {
    if IsAmbient(ref) {
      return None;
    }
    var found := TargetAtValidation(wf.blocks, ref);
    if found.None? {
      return Some(UnknownTarget(block.id, ref));
    }
    var target := found.value;
    assert block.id in up;
    if target.id !in up[block.id] {
      return Some(NotUpstream(block.id, ref, target.id));
    }
    if target.kind in reg && ref.path != [] && ref.path[0] !in reg[target.kind].outputs {
      return Some(NoSuchOutput(block.id, ref, target.id));
    }
    return None;
  }

  method CheckBlock(wf: Workflow, reg: BlockRegistry, up: Upstream, block: Block, errors: seq<ValidationError>)
    returns (errors': seq<ValidationError>)
    requires up.Keys == Ids(wf.blocks) && block in wf.blocks
    requires forall b, u :: b in up ==> (u in up[b] <==> Reaches(ReferenceEdges(up.Keys, wf.conns), u, b))
    ensures errors' == errors + RefErrors(wf, reg, block, Refs(Fields(block.params)))
  {
    errors' := errors;
    var refs := ExtractRefs(Fields(block.params), []);
    assert refs == Refs(Fields(block.params));
    for k := 0 to |refs|
      invariant errors' == errors + RefErrors(wf, reg, block, refs[..k])
    {
      assert refs[..k + 1][..k] == refs[..k];
      var err := CheckRef(wf, reg, up, block, refs[k]);
      if err.Some? {
        errors' := errors' + [err.value];
      }
    }
    assert refs[..|refs|] == refs;
  }

  /** Appends an error for every reference that has no upstream block, or names an undeclared output of one. */
  method ValidateReferences(wf: Workflow, reg: BlockRegistry, errors: seq<ValidationError>)
    returns (errors': seq<ValidationError>)
    ensures errors' == errors + BlockErrors(wf, reg, wf.blocks)
  {
    errors' := errors;
    var ids := BlockIdSet(wf.blocks);
    var up := UpstreamClosure(ids, wf.conns);
    for i := 0 to |wf.blocks|
      invariant errors' == errors + BlockErrors(wf, reg, wf.blocks[..i])
    {
      assert wf.blocks[..i + 1][..i] == wf.blocks[..i];
      errors' := CheckBlock(wf, reg, up, wf.blocks[i], errors');
    }
    assert wf.blocks[..|wf.blocks|] == wf.blocks;
  }

  method BlockIdSet(blocks: seq<Block>) returns (ids: set<Id>)
    ensures ids == Ids(blocks)
  {
    ids := {};
    for i := 0 to |blocks|
      invariant ids == Ids(blocks[..i])
    {
      assert blocks[..i + 1] == blocks[..i] + [blocks[i]];
      ids := ids + {blocks[i].id};
    }
    assert blocks[..|blocks|] == blocks;
  }

  lemma {:induction false} NoRefErrors(wf: Workflow, reg: BlockRegistry, block: Block, refs: seq<Ref>)
    ensures RefErrors(wf, reg, block, refs) == [] <==> forall r :: r in refs ==> RefError(wf, reg, block, r).None?
  {
    if refs != [] {
      var n := |refs| - 1;
      NoRefErrors(wf, reg, block, refs[..n]);
      LastRef(refs);
    }
  }

  lemma LastRef(refs: seq<Ref>)
    requires refs != []
    ensures forall r :: r in refs <==> r in refs[..|refs| - 1] || r == refs[|refs| - 1]
  {
    assert refs == refs[..|refs| - 1] + [refs[|refs| - 1]];
  }

  /** Every reference of the block passes. */
  ghost predicate Passes(wf: Workflow, reg: BlockRegistry, b: Block) {
    forall r :: r in Refs(Fields(b.params)) ==> RefError(wf, reg, b, r).None?
  }

  /** No error is reported exactly when every reference of every block passes. */
  lemma {:induction false} NoBlockErrors(wf: Workflow, reg: BlockRegistry, blocks: seq<Block>)
    ensures BlockErrors(wf, reg, blocks) == [] <==> forall b :: b in blocks ==> Passes(wf, reg, b)
  {
    if blocks != [] {
      var n := |blocks| - 1;
      NoBlockErrors(wf, reg, blocks[..n]);
      NoRefErrors(wf, reg, blocks[n], Refs(Fields(blocks[n].params)));
      assert blocks == blocks[..n] + [blocks[n]];
      assert Passes(wf, reg, blocks[n]) <==> RefErrors(wf, reg, blocks[n], Refs(Fields(blocks[n].params))) == [];
    }
  }

  // ---- what the errors mean, in terms of the workflow and the registry ----

  /** The head means the i-th block: the last one of that id, or, if no block has it, the last one of that name. */
  ghost predicate Names(blocks: seq<Block>, head: string, i: int) {
    && 0 <= i < |blocks|
    && if exists b :: b in blocks && b.id == head then
         blocks[i].id == head && forall j :: i < j < |blocks| ==> blocks[j].id != head
       else
         head != "" && blocks[i].name == Some(head) && forall j :: i < j < |blocks| ==> blocks[j].name != Some(head)
  }

  /** The trigger, and paths into the environment and the variables, need no block. */
  predicate NeedsNoBlock(ref: Ref) {
    ref.head == "trigger" || (ref.head in {"env", "vars"} && ref.path != [])
  }

  /** Connections to known blocks lead from the one to the other. */
  ghost predicate LeadsTo(wf: Workflow, from: Block, to: Block) {
    Reaches(set c | c in wf.conns && c.target in Ids(wf.blocks) :: (c.source, c.target), from.id, to.id)
  }

  /** The path starts with an output that blocks of this kind declare; blocks of an unregistered kind may have any. */
  predicate Declares(reg: BlockRegistry, target: Block, path: seq<string>) {
    target.kind !in reg || path == [] || path[0] in reg[target.kind].outputs
  }

  ghost predicate Fine(wf: Workflow, reg: BlockRegistry, block: Block, ref: Ref) {
    || NeedsNoBlock(ref)
    || exists i ::
         Names(wf.blocks, ref.head, i) && LeadsTo(wf, wf.blocks[i], block) && Declares(reg, wf.blocks[i], ref.path)
  }

  /** The error that a reference of the block deserves. */
  ghost predicate Deserves(wf: Workflow, reg: BlockRegistry, block: Block, ref: Ref, err: ValidationError) {
    && !NeedsNoBlock(ref)
    && match err
       case UnknownTarget(b, r) => b == block.id && r == ref && forall i :: !Names(wf.blocks, ref.head, i)
       case NotUpstream(b, r, target) =>
         && b == block.id && r == ref
         && exists i :: Names(wf.blocks, ref.head, i) && wf.blocks[i].id == target && !LeadsTo(wf, wf.blocks[i], block)
       case NoSuchOutput(b, r, target) =>
         && b == block.id && r == ref
         && exists i ::
              && Names(wf.blocks, ref.head, i) && wf.blocks[i].id == target && LeadsTo(wf, wf.blocks[i], block)
              && !Declares(reg, wf.blocks[i], ref.path)
       case _ => false
  }

  lemma {:induction false} ByIdIsLast(blocks: seq<Block>, id: Id)
    ensures ById(blocks, id).None? <==> forall b :: b in blocks ==> b.id != id
    ensures ById(blocks, id).Some? ==>
      exists i :: 0 <= i < |blocks| && blocks[i] == ById(blocks, id).value && blocks[i].id == id
        && forall j :: i < j < |blocks| ==> blocks[j].id != id
  {
    if blocks != [] && blocks[|blocks| - 1].id != id {
      var n := |blocks| - 1;
      ByIdIsLast(blocks[..n], id);
      assert blocks == blocks[..n] + [blocks[n]];
    }
  }

  lemma {:induction false} ByNameIsLast(blocks: seq<Block>, name: string)
    ensures ByName(blocks, name).None? <==> name == "" || forall b :: b in blocks ==> b.name != Some(name)
    ensures ByName(blocks, name).Some? ==>
      exists i :: 0 <= i < |blocks| && blocks[i] == ByName(blocks, name).value && blocks[i].name == Some(name)
        && forall j :: i < j < |blocks| ==> blocks[j].name != Some(name)
  {
    if blocks != [] && !(name != "" && blocks[|blocks| - 1].name == Some(name)) {
      var n := |blocks| - 1;
      ByNameIsLast(blocks[..n], name);
      assert blocks == blocks[..n] + [blocks[n]];
    }
  }

  /** The validator looks up the block that the head means. */
  lemma TargetIsNamed(blocks: seq<Block>, ref: Ref)
    ensures TargetAtValidation(blocks, ref).None? <==> forall i :: !Names(blocks, ref.head, i)
    ensures TargetAtValidation(blocks, ref).Some? ==>
      exists i :: Names(blocks, ref.head, i) && blocks[i] == TargetAtValidation(blocks, ref).value
  {
    ByIdIsLast(blocks, ref.head);
    ByNameIsLast(blocks, ref.head);
    if ById(blocks, ref.head).Some? {
      var i :| 0 <= i < |blocks| && blocks[i] == ById(blocks, ref.head).value && blocks[i].id == ref.head
        && forall j :: i < j < |blocks| ==> blocks[j].id != ref.head;
      assert blocks[i] in blocks;
      assert Names(blocks, ref.head, i);
    } else if ByName(blocks, ref.head).Some? {
      var i :| 0 <= i < |blocks| && blocks[i] == ByName(blocks, ref.head).value && blocks[i].name == Some(ref.head)
        && forall j :: i < j < |blocks| ==> blocks[j].name != Some(ref.head);
      assert Names(blocks, ref.head, i);
    }
  }

  lemma NamesOne(blocks: seq<Block>, head: string, i: int, j: int)
    requires Names(blocks, head, i) && Names(blocks, head, j)
    ensures i == j
  {
  }

  /** One reference: it passes exactly when it is fine, and otherwise gets the error it deserves. */
  lemma RefErrorMeans(wf: Workflow, reg: BlockRegistry, block: Block, ref: Ref)
    ensures RefError(wf, reg, block, ref).None? <==> Fine(wf, reg, block, ref)
    ensures forall err :: RefError(wf, reg, block, ref) == Some(err) <==> Deserves(wf, reg, block, ref, err)
  {
    TargetIsNamed(wf.blocks, ref);
    if TargetAtValidation(wf.blocks, ref).Some? {
      var i :| Names(wf.blocks, ref.head, i) && wf.blocks[i] == TargetAtValidation(wf.blocks, ref).value;
      assert ReferenceEdges(Ids(wf.blocks), wf.conns)
        == set c | c in wf.conns && c.target in Ids(wf.blocks) :: (c.source, c.target);
      assert LeadsTo(wf, wf.blocks[i], block)
        <==> Reaches(ReferenceEdges(Ids(wf.blocks), wf.conns), wf.blocks[i].id, block.id);
      OnlyOne(wf, reg, block, ref, i);
    }
  }

  /** With the one block that the head means at hand, fine and deserved errors are about it. */
  lemma OnlyOne(wf: Workflow, reg: BlockRegistry, block: Block, ref: Ref, i: int)
    requires Names(wf.blocks, ref.head, i)
    ensures Fine(wf, reg, block, ref) <==>
      NeedsNoBlock(ref) || (LeadsTo(wf, wf.blocks[i], block) && Declares(reg, wf.blocks[i], ref.path))
    ensures forall err :: Deserves(wf, reg, block, ref, err) <==>
      && !NeedsNoBlock(ref)
      && err == (if !LeadsTo(wf, wf.blocks[i], block) then NotUpstream(block.id, ref, wf.blocks[i].id)
                 else NoSuchOutput(block.id, ref, wf.blocks[i].id))
      && !(LeadsTo(wf, wf.blocks[i], block) && Declares(reg, wf.blocks[i], ref.path))
  {
    forall j | Names(wf.blocks, ref.head, j)
      ensures i == j
    {
      NamesOne(wf.blocks, ref.head, i, j);
    }
  }

  lemma {:induction false} RefErrorsMean(wf: Workflow, reg: BlockRegistry, block: Block, refs: seq<Ref>,
                                         err: ValidationError)
    ensures err in RefErrors(wf, reg, block, refs) <==> exists r :: r in refs && Deserves(wf, reg, block, r, err)
  {
    if refs != [] {
      var n := |refs| - 1;
      RefErrorsMean(wf, reg, block, refs[..n], err);
      RefErrorMeans(wf, reg, block, refs[n]);
      LastRef(refs);
    }
  }

  /** Some reference of some block deserves the error. */
  ghost predicate Deserved(wf: Workflow, reg: BlockRegistry, blocks: seq<Block>, err: ValidationError) {
    exists b, r :: b in blocks && r in Refs(Fields(b.params)) && Deserves(wf, reg, b, r, err)
  }

  lemma {:induction false} ErrorsAreDeserved(wf: Workflow, reg: BlockRegistry, blocks: seq<Block>, err: ValidationError)
    ensures err in BlockErrors(wf, reg, blocks) <==> Deserved(wf, reg, blocks, err)
  {
    if blocks != [] {
      var n := |blocks| - 1;
      ErrorsAreDeserved(wf, reg, blocks[..n], err);
      RefErrorsMean(wf, reg, blocks[n], Refs(Fields(blocks[n].params)), err);
      assert blocks == blocks[..n] + [blocks[n]];
    }
  }

  /** Every reference of every block is fine. */
  ghost predicate AllFine(wf: Workflow, reg: BlockRegistry) {
    forall b, r :: b in wf.blocks && r in Refs(Fields(b.params)) ==> Fine(wf, reg, b, r)
  }

  /** The validator reports nothing exactly when all references are fine. */
  lemma NothingReported(wf: Workflow, reg: BlockRegistry)
    ensures BlockErrors(wf, reg, wf.blocks) == [] <==> AllFine(wf, reg)
  {
    NoBlockErrors(wf, reg, wf.blocks);
    forall b, r | b in wf.blocks && r in Refs(Fields(b.params))
      ensures RefError(wf, reg, b, r).None? <==> Fine(wf, reg, b, r)
    {
      RefErrorMeans(wf, reg, b, r);
    }
    if AllFine(wf, reg) {
      forall b | b in wf.blocks
        ensures Passes(wf, reg, b)
      {
      }
    } else {
      var b, r :| b in wf.blocks && r in Refs(Fields(b.params)) && !Fine(wf, reg, b, r);
      assert !Passes(wf, reg, b);
    }
  }
}
