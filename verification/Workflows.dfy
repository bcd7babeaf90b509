/** The workflow document: blocks, connections, parameter templates and runtime values. */
module Workflows {
  import opened Graphs

  datatype Option<+T> = None | Some(value: T) {
    function GetOr(default: T): T {
      match this
      case Some(v) => v
      case None => default
    }
  }

  /** A runtime value; Undefined is a missing field or an unset output. */
  datatype Value =
    | Undefined
    | Null
    | Boolean(b: bool)
    | Number(n: int)
    | Text(s: string)
    | List(items: seq<Value>)
    | Record(fields: seq<(string, Value)>)

  /** A dotted reference: the part before the first dot, then the path below it. */
  datatype Ref = Ref(head: string, path: seq<string>)

  /** A string parameter as its scanner sees it: literal text and references. */
  datatype Piece = Literal(text: string) | Hole(ref: Ref)

  datatype Template =
    | Constant(value: Value)
    | Scanned(pieces: seq<Piece>)
    | Many(items: seq<Template>)
    | Fields(fields: seq<Param>)

  datatype Param = Param(key: string, template: Template)

  type Params = seq<Param>

  datatype Block = Block(id: Id, kind: string, name: Option<string>, enabled: bool, params: Params)

  datatype Connection = Connection(source: Id, target: Id, handle: Option<string>, condition: Option<string>)

  datatype Workflow = Workflow(blocks: seq<Block>, conns: seq<Connection>, variables: Value)

  // ---- registries ----

  datatype Visibility = UserOrLlm | UserOnly | Hidden

  datatype SubBlock = SubBlock(id: string, required: bool)

  datatype BlockKind = Trigger | Compute | Wait

  datatype BlockDef = BlockDef(kind: BlockKind, subBlocks: seq<SubBlock>, outputs: set<string>, access: seq<string>)

  type BlockRegistry = map<string, BlockDef>

  /** For each tool, the visibility of each of its parameters. */
  type ToolRegistry = map<string, map<string, Visibility>>

  /** Ids of all blocks. */
  ghost function Ids(blocks: seq<Block>): set<Id> {
    set b | b in blocks :: b.id
  }

  /** Ids that some enabled block carries. */
  ghost function EnabledIds(blocks: seq<Block>): set<Id> {
    set b | b in blocks && b.enabled :: b.id
  }

  /** The edges that the connections draw between the given ids. */
  ghost function EdgesAmong(ids: set<Id>, conns: seq<Connection>): Edges {
    if conns == [] then {}
    else
      var c := conns[|conns| - 1];
      EdgesAmong(ids, conns[..|conns| - 1]) + if c.source in ids && c.target in ids then {(c.source, c.target)} else {}
  }

  /** The graph that runs: connections whose two ends are enabled blocks. */
  ghost function EnabledEdges(wf: Workflow): Edges {
    EdgesAmong(EnabledIds(wf.blocks), wf.conns)
  }

  lemma {:induction false} EdgesAmongMeaning(ids: set<Id>, conns: seq<Connection>, a: Id, b: Id)
    ensures (a, b) in EdgesAmong(ids, conns) <==>
      a in ids && b in ids && exists c :: c in conns && c.source == a && c.target == b
  {
    if conns != [] {
      var n := |conns| - 1;
      EdgesAmongMeaning(ids, conns[..n], a, b);
      assert conns == conns[..n] + [conns[n]];
    }
  }

  function Lookup<T(!new)>(fields: seq<(string, T)>, key: string): (r: Option<T>)
    ensures r.None? ==> forall v :: (key, v) !in fields
    ensures r.Some? ==> (key, r.value) in fields
  {
    if fields == [] then None
    else if fields[0].0 == key then Some(fields[0].1)
    else Lookup(fields[1..], key)
  }
}
