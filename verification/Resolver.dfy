/** Reference extraction and resolution (executor/resolver.ts). */
module Resolver {
  import opened Graphs
  import opened Workflows
  import StepNames

  /** What references can see while a block runs. stringify stands for JSON.stringify and String. */
  datatype Context = Context(
    outputs: map<Id, Value>,
    trigger: Value,
    env: map<string, string>,
    vars: Value,
    idsByName: map<string, Id>,
    stringify: Value -> string)

  // ---- navigatePath ----

  predicate IsIndex(part: string) {
    part != "" && forall i :: 0 <= i < |part| ==> '0' <= part[i] <= '9'
  }

  function IndexOf(part: string): nat
    requires IsIndex(part)
  {
    var n := |part| - 1;
    var digit := part[n] as int - '0' as int;
    if n == 0 then digit else 10 * IndexOf(part[..n]) + digit
  }

  /** One property access; None means the walk gives up with undefined. */
  function Property(cur: Value, part: string): Option<Value> {
    match cur
    case Undefined => None
    case Null => None
    case List(items) =>
      if IsIndex(part) then Some(if IndexOf(part) < |items| then items[IndexOf(part)] else Undefined)
      else Some(if part == "length" then Number(|items|) else Undefined)
    case Record(fields) => Some(Lookup(fields, part).GetOr(Undefined))
    case _ => None
  }

  function Navigated(obj: Value, path: seq<string>): Value
    decreases |path|
  {
    if path == [] then obj
    else
      match Property(obj, path[0])
      case None => Undefined
      case Some(next) => Navigated(next, path[1..])
  }

  method NavigatePath(obj: Value, path: seq<string>) returns (cur: Value)
    ensures cur == Navigated(obj, path)
  {
    cur := obj;
    for i := 0 to |path|
      invariant Navigated(obj, path) == Navigated(cur, path[i..])
    {
      assert path[i..][0] == path[i] && path[i..][1..] == path[i + 1..];
      match Property(cur, path[i]) {
        case None => return Undefined;
        case Some(next) => cur := next;
      }
    }
  }

  // ---- the chain of resolvers ----

  /** References the trigger, environment and variable resolvers take before the block resolver. */
  predicate IsAmbient(ref: Ref) {
    || ref.head == "trigger"
    || (ref.head == "env" && ref.path != [])
    || (ref.head == "vars" && ref.path != [])
  }

  function Dotted(path: seq<string>): string
    requires path != []
  {
    if |path| == 1 then path[0] else path[0] + "." + Dotted(path[1..])
  }

  function Output(ctx: Context, id: Id): Value {
    if id in ctx.outputs then ctx.outputs[id] else Undefined
  }

  /** The block a reference means at run time: an id with an output first, then a name. */
  function TargetAtRunTime(ref: Ref, ctx: Context): Option<Id> {
    if Output(ctx, ref.head) != Undefined then Some(ref.head)
    else if ref.head in ctx.idsByName && ctx.idsByName[ref.head] != "" then Some(ctx.idsByName[ref.head])
    else None
  }

  function ResolveSingle(ref: Ref, ctx: Context): Value {
    if ref.head == "trigger" then Navigated(ctx.trigger, ref.path)
    else if ref.head == "env" && ref.path != [] then
      var key := Dotted(ref.path);
      if key in ctx.env then Text(ctx.env[key]) else Undefined
    else if ref.head == "vars" && ref.path != [] then Navigated(ctx.vars, ref.path)
    else
      match TargetAtRunTime(ref, ctx)
      case None => Undefined
      case Some(id) => Navigated(Output(ctx, id), ref.path)
  }

  // ---- VariableResolver ----

  /** A value together with the references looked up to produce it, in order. */
  datatype Resolved = Resolved(value: Value, looked: seq<Ref>)

  predicate IsBlank(text: string) {
    forall i :: 0 <= i < |text| ==> text[i] == ' ' || text[i] == '\n' || text[i] == '\t' || text[i] == '\r'
  }

  function Holes(pieces: seq<Piece>): seq<Ref> {
    if pieces == [] then []
    else
      match pieces[0]
      case Literal(_) => Holes(pieces[1..])
      case Hole(ref) => [ref] + Holes(pieces[1..])
  }

  function Plain(pieces: seq<Piece>): string {
    if pieces == [] then ""
    else
      match pieces[0]
      case Literal(text) => text + Plain(pieces[1..])
      case Hole(_) => Plain(pieces[1..])
  }

  function Interpolate(pieces: seq<Piece>, ctx: Context): (string, seq<Ref>) {
    if pieces == [] then ("", [])
    else
      var rest := Interpolate(pieces[1..], ctx);
      match pieces[0]
      case Literal(text) => (text + rest.0, rest.1)
      case Hole(ref) =>
        var v := ResolveSingle(ref, ctx);
        (if v == Undefined || v == Null then rest.0 else ctx.stringify(v) + rest.0, [ref] + rest.1)
  }

  function ResolveString(pieces: seq<Piece>, ctx: Context): Resolved {
    var holes := Holes(pieces);
    if holes == [] then Resolved(Text(Plain(pieces)), [])
    else if |holes| == 1 && IsBlank(Plain(pieces)) then Resolved(ResolveSingle(holes[0], ctx), [holes[0]])
    else
      var r := Interpolate(pieces, ctx);
      Resolved(Text(r.0), r.1)
  }

  function ResolveValue(t: Template, ctx: Context): Resolved
    decreases t, 1
  {
    match t
    case Constant(v) => Resolved(v, [])
    case Scanned(pieces) => ResolveString(pieces, ctx)
    case Many(items) =>
      var r := ResolveItems(items, ctx);
      Resolved(List(r.0), r.1)
    case Fields(fields) =>
      var r := ResolveFields(fields, ctx);
      Resolved(Record(r.0), r.1)
  }

  function ResolveItems(items: seq<Template>, ctx: Context): (seq<Value>, seq<Ref>)
    decreases items, 0
  {
    if items == [] then ([], [])
    else
      var first := ResolveValue(items[0], ctx);
      var rest := ResolveItems(items[1..], ctx);
      ([first.value] + rest.0, first.looked + rest.1)
  }

  function ResolveFields(fields: seq<Param>, ctx: Context): (seq<(string, Value)>, seq<Ref>)
    decreases fields, 0
  {
    if fields == [] then ([], [])
    else
      var Param(key, template) := fields[0];
      var first := ResolveValue(template, ctx);
      var rest := ResolveFields(fields[1..], ctx);
      ([(key, first.value)] + rest.0, first.looked + rest.1)
  }

  // ---- extractRefs ----

  function Refs(t: Template): seq<Ref>
    decreases t, 1
  {
    match t
    case Constant(_) => []
    case Scanned(pieces) => Holes(pieces)
    case Many(items) => ItemRefs(items)
    case Fields(fields) => FieldRefs(fields)
  }

  function ItemRefs(items: seq<Template>): seq<Ref>
    decreases items, 0
  {
    if items == [] then [] else Refs(items[0]) + ItemRefs(items[1..])
  }

  function FieldRefs(fields: seq<Param>): seq<Ref>
    decreases fields, 0
  {
    if fields == [] then []
    else
      var template := fields[0].template;
      Refs(template) + FieldRefs(fields[1..])
  }

  /** Collects the references of t by pushing them onto refs, left to right. */
  method ExtractRefs(t: Template, refs: seq<Ref>) returns (refs': seq<Ref>)
    ensures refs' == refs + Refs(t)
    decreases t
  {
    refs' := refs;
    match t {
      case Constant(_) =>
      case Scanned(pieces) =>
        for i := 0 to |pieces|
          invariant refs' + Holes(pieces[i..]) == refs + Holes(pieces)
        {
          assert pieces[i..][0] == pieces[i] && pieces[i..][1..] == pieces[i + 1..];
          match pieces[i] {
            case Literal(_) =>
            case Hole(ref) => refs' := refs' + [ref];
          }
        }
      case Many(items) =>
        for i := 0 to |items|
          invariant refs' + ItemRefs(items[i..]) == refs + ItemRefs(items)
        {
          assert items[i..][0] == items[i] && items[i..][1..] == items[i + 1..];
          refs' := ExtractRefs(items[i], refs');
        }
      case Fields(fields) =>
        for i := 0 to |fields|
          invariant refs' + FieldRefs(fields[i..]) == refs + FieldRefs(fields)
        {
          assert fields[i..][0] == fields[i] && fields[i..][1..] == fields[i + 1..];
          refs' := ExtractRefs(fields[i].template, refs');
        }
    }
  }

  // ---- what the validator sees is what the resolver looks up ----

  lemma {:induction false} InterpolateLooks(pieces: seq<Piece>, ctx: Context)
    ensures Interpolate(pieces, ctx).1 == Holes(pieces)
  {
    if pieces != [] {
      InterpolateLooks(pieces[1..], ctx);
    }
  }

  /** Resolving a parameter looks up exactly the references extracted from it, in the same order. */
  lemma {:induction false} LooksUpExtractedRefs(t: Template, ctx: Context)
    ensures ResolveValue(t, ctx).looked == Refs(t)
    decreases t, 1
  {
    match t {
      case Constant(_) =>
      case Scanned(pieces) => InterpolateLooks(pieces, ctx);
      case Many(items) => ItemsLookUp(items, ctx);
      case Fields(fields) => FieldsLookUp(fields, ctx);
    }
  }

  lemma {:induction false} ItemsLookUp(items: seq<Template>, ctx: Context)
    ensures ResolveItems(items, ctx).1 == ItemRefs(items)
    decreases items, 0
  {
    if items != [] {
      LooksUpExtractedRefs(items[0], ctx);
      ItemsLookUp(items[1..], ctx);
    }
  }

  lemma {:induction false} FieldsLookUp(fields: seq<Param>, ctx: Context)
    ensures ResolveFields(fields, ctx).1 == FieldRefs(fields)
    decreases fields, 0
  {
    if fields != [] {
      var template := fields[0].template;
      LooksUpExtractedRefs(template, ctx);
      FieldsLookUp(fields[1..], ctx);
    }
  }

  /** The two contexts give every listed reference the same value. */
  ghost predicate Agree(refs: seq<Ref>, c: Context, d: Context) {
    c.stringify == d.stringify && forall r :: r in refs ==> ResolveSingle(r, c) == ResolveSingle(r, d)
  }

  lemma {:induction false} InterpolateAgrees(pieces: seq<Piece>, c: Context, d: Context)
    requires Agree(Holes(pieces), c, d)
    ensures Interpolate(pieces, c) == Interpolate(pieces, d)
  {
    if pieces != [] {
      assert forall r :: r in Holes(pieces[1..]) ==> r in Holes(pieces);
      InterpolateAgrees(pieces[1..], c, d);
    }
  }

  /** Nothing but the extracted references can influence a resolved parameter. */
  lemma {:induction false} OnlyExtractedRefsMatter(t: Template, c: Context, d: Context)
    requires Agree(Refs(t), c, d)
    ensures ResolveValue(t, c) == ResolveValue(t, d)
    decreases t, 1
  {
    match t {
      case Constant(_) =>
      case Scanned(pieces) => InterpolateAgrees(pieces, c, d);
      case Many(items) => ItemsAgree(items, c, d);
      case Fields(fields) => FieldsAgree(fields, c, d);
    }
  }

  lemma {:induction false} ItemsAgree(items: seq<Template>, c: Context, d: Context)
    requires Agree(ItemRefs(items), c, d)
    ensures ResolveItems(items, c) == ResolveItems(items, d)
    decreases items, 0
  {
    if items != [] {
      OnlyExtractedRefsMatter(items[0], c, d);
      ItemsAgree(items[1..], c, d);
    }
  }

  lemma {:induction false} FieldsAgree(fields: seq<Param>, c: Context, d: Context)
    requires Agree(FieldRefs(fields), c, d)
    ensures ResolveFields(fields, c) == ResolveFields(fields, d)
    decreases fields, 0
  {
    if fields != [] {
      var template := fields[0].template;
      OnlyExtractedRefsMatter(template, c, d);
      FieldsAgree(fields[1..], c, d);
    }
  }

  // ---- what references and strings give ----

  /** One part of a path: an item of a list by its numeral, a field of a record by its name, else undefined. */
  ghost predicate PartGives(v: Value, part: string, w: Value) {
    match v
    case List(items) =>
      if IsIndex(part) then w == if IndexOf(part) < |items| then items[IndexOf(part)] else Undefined
      else w == if part == "length" then Number(|items|) else Undefined
    case Record(fields) => FirstField(fields, part, w) || (w == Undefined && !HasField(fields, part))
    case _ => w == Undefined
  }

  ghost predicate HasField(fields: seq<(string, Value)>, key: string) {
    exists i :: 0 <= i < |fields| && fields[i].0 == key
  }

  ghost predicate FirstField(fields: seq<(string, Value)>, key: string, w: Value) {
    exists i :: 0 <= i < |fields| && fields[i] == (key, w) && forall j :: 0 <= j < i ==> fields[j].0 != key
  }

  /** The decimal numeral of a place in a list finds that place. */
  lemma {:induction false} NumeralFinds(n: nat)
    ensures IsIndex(StepNames.Decimal(n)) && IndexOf(StepNames.Decimal(n)) == n
  {
    var s := StepNames.Decimal(n);
    if n >= 10 {
      NumeralFinds(n / 10);
      assert s[..|s| - 1] == StepNames.Decimal(n / 10);
      assert forall i :: 0 <= i < |s| - 1 ==> s[i] == StepNames.Decimal(n / 10)[i];
    }
  }

  /** Going from the one value part by part along the path gives the other. */
  ghost predicate PathGives(obj: Value, path: seq<string>, v: Value) {
    exists on :: Along(obj, path, on) && on[|path|] == v
  }

  ghost predicate Along(obj: Value, path: seq<string>, on: seq<Value>) {
    |on| == |path| + 1 && on[0] == obj && forall k :: 0 <= k < |path| ==> PartGives(on[k], path[k], on[k + 1])
  }

  lemma {:induction false} LookupIsFirst(fields: seq<(string, Value)>, key: string)
    ensures
      var found := Lookup(fields, key);
      if found.Some? then FirstField(fields, key, found.value) else !HasField(fields, key)
  {
    if fields != [] && fields[0].0 != key {
      LookupIsFirst(fields[1..], key);
      assert fields == [fields[0]] + fields[1..];
      if FirstField(fields[1..], key, Lookup(fields[1..], key).GetOr(Undefined)) {
        var i :| 0 <= i < |fields| - 1 && fields[1..][i] == (key, Lookup(fields[1..], key).GetOr(Undefined))
          && forall j :: 0 <= j < i ==> fields[1..][j].0 != key;
        forall j | 0 <= j < i + 1
          ensures fields[j].0 != key
        {
          assert j > 0 ==> fields[j] == fields[1..][j - 1];
        }
        assert fields[i + 1] == fields[1..][i];
      }
    }
  }

  lemma PropertyGives(v: Value, part: string)
    ensures PartGives(v, part, Property(v, part).GetOr(Undefined))
  {
    if v.Record? {
      LookupIsFirst(v.fields, part);
    }
  }

  lemma {:induction false} NavigatedAlong(obj: Value, path: seq<string>) returns (on: seq<Value>)
    ensures Along(obj, path, on) && on[|path|] == Navigated(obj, path)
    decreases |path|
  {
    if path == [] {
      on := [obj];
    } else {
      var next := Property(obj, path[0]).GetOr(Undefined);
      PropertyGives(obj, path[0]);
      var rest := NavigatedAlong(next, path[1..]);
      on := [obj] + rest;
      forall k | 0 <= k < |path|
        ensures PartGives(on[k], path[k], on[k + 1])
      {
        assert k > 0 ==> on[k] == rest[k - 1] && path[k] == path[1..][k - 1];
      }
      UndefinedStays(path[1..]);
    }
  }

  lemma {:induction false} UndefinedStays(path: seq<string>)
    ensures Navigated(Undefined, path) == Undefined
  {
  }

  /** What a reference stands for while a block runs. */
  ghost predicate RefGives(ref: Ref, ctx: Context, v: Value) {
    if ref.head == "trigger" then PathGives(ctx.trigger, ref.path, v)
    else if ref.head == "env" && ref.path != [] then
      v == if Dotted(ref.path) in ctx.env then Text(ctx.env[Dotted(ref.path)]) else Undefined
    else if ref.head == "vars" && ref.path != [] then PathGives(ctx.vars, ref.path, v)
    else if HasOutput(ctx, ref.head) then PathGives(ctx.outputs[ref.head], ref.path, v)
    else if ref.head in ctx.idsByName && HasOutput(ctx, ctx.idsByName[ref.head]) && ctx.idsByName[ref.head] != "" then
      PathGives(ctx.outputs[ctx.idsByName[ref.head]], ref.path, v)
    else v == Undefined
  }

  predicate HasOutput(ctx: Context, id: Id) {
    id in ctx.outputs && ctx.outputs[id] != Undefined
  }

  lemma SingleGives(ref: Ref, ctx: Context)
    ensures RefGives(ref, ctx, ResolveSingle(ref, ctx))
  {
    UndefinedStays(ref.path);
    var a := NavigatedAlong(ctx.trigger, ref.path);
    var b := NavigatedAlong(ctx.vars, ref.path);
    if HasOutput(ctx, ref.head) {
      var d := NavigatedAlong(ctx.outputs[ref.head], ref.path);
    } else if ref.head in ctx.idsByName && HasOutput(ctx, ctx.idsByName[ref.head]) {
      var d := NavigatedAlong(ctx.outputs[ctx.idsByName[ref.head]], ref.path);
    }
  }

  /** The text that a piece of a mixed string becomes. */
  ghost predicate PieceGives(piece: Piece, ctx: Context, text: string) {
    match piece
    case Literal(t) => text == t
    case Hole(ref) =>
      exists v :: RefGives(ref, ctx, v) && text == if v == Undefined || v == Null then "" else ctx.stringify(v)
  }

  function Joined(texts: seq<string>): string {
    if texts == [] then "" else texts[0] + Joined(texts[1..])
  }

  ghost predicate TextsOf(pieces: seq<Piece>, ctx: Context, texts: seq<string>) {
    |texts| == |pieces| && forall i :: 0 <= i < |pieces| ==> PieceGives(pieces[i], ctx, texts[i])
  }

  /** The string is one reference with nothing but blanks around it, at the i-th piece. */
  ghost predicate Lone(pieces: seq<Piece>, i: int) {
    && 0 <= i < |pieces| && pieces[i].Hole?
    && forall j :: 0 <= j < |pieces| && j != i ==> pieces[j].Literal? && IsBlank(pieces[j].text)
  }

  lemma {:induction false} InterpolateGives(pieces: seq<Piece>, ctx: Context) returns (texts: seq<string>)
    ensures TextsOf(pieces, ctx, texts) && Interpolate(pieces, ctx).0 == Joined(texts)
  {
    texts := [];
    if pieces != [] {
      var rest := InterpolateGives(pieces[1..], ctx);
      var first := if pieces[0].Literal? then pieces[0].text
        else var v := ResolveSingle(pieces[0].ref, ctx); if v == Undefined || v == Null then "" else ctx.stringify(v);
      if pieces[0].Hole? {
        SingleGives(pieces[0].ref, ctx);
      }
      texts := [first] + rest;
      forall i | 0 <= i < |pieces|
        ensures PieceGives(pieces[i], ctx, texts[i])
      {
        assert i > 0 ==> texts[i] == rest[i - 1] && pieces[i] == pieces[1..][i - 1];
      }
    }
  }

  lemma {:induction false} PlainGives(pieces: seq<Piece>, ctx: Context)
    requires Holes(pieces) == []
    ensures Interpolate(pieces, ctx).0 == Plain(pieces)
  {
    if pieces != [] {
      PlainGives(pieces[1..], ctx);
    }
  }

  lemma BlankAppends(a: string, b: string)
    ensures IsBlank(a + b) <==> IsBlank(a) && IsBlank(b)
  {
    if IsBlank(a + b) {
      forall i | 0 <= i < |a|
        ensures a[i] == (a + b)[i]
      {
      }
      forall i | 0 <= i < |b|
        ensures b[i] == (a + b)[|a| + i]
      {
      }
    }
  }

  /** There are no references, and all is blank, exactly when every piece is blank text. */
  lemma {:induction false} NoHoles(pieces: seq<Piece>)
    ensures Holes(pieces) == [] <==> forall j :: 0 <= j < |pieces| ==> pieces[j].Literal?
    ensures Holes(pieces) == [] ==> (IsBlank(Plain(pieces)) <==>
      forall j :: 0 <= j < |pieces| ==> IsBlank(pieces[j].text))
  {
    if pieces != [] {
      NoHoles(pieces[1..]);
      assert pieces == [pieces[0]] + pieces[1..];
      if pieces[0].Literal? {
        BlankAppends(pieces[0].text, Plain(pieces[1..]));
      }
    }
  }

  lemma {:induction false} LoneHole(pieces: seq<Piece>)
    ensures |Holes(pieces)| == 1 && IsBlank(Plain(pieces)) <==> exists i :: Lone(pieces, i)
    ensures forall i :: Lone(pieces, i) ==> Holes(pieces) == [pieces[i].ref]
  {
    if pieces != [] {
      var rest := pieces[1..];
      assert pieces == [pieces[0]] + rest;
      LoneHole(rest);
      NoHoles(rest);
      if pieces[0].Literal? {
        BlankAppends(pieces[0].text, Plain(rest));
        forall i | Lone(pieces, i)
          ensures Lone(rest, i - 1) && IsBlank(pieces[0].text)
        {
        }
        if IsBlank(pieces[0].text) {
          forall i | Lone(rest, i)
            ensures Lone(pieces, i + 1)
          {
          }
        }
      } else {
        forall i | Lone(pieces, i)
          ensures i == 0
        {
        }
        if Holes(rest) == [] && IsBlank(Plain(rest)) {
          assert Lone(pieces, 0);
        }
        if Lone(pieces, 0) {
          forall j | 0 <= j < |rest|
            ensures rest[j].Literal? && IsBlank(rest[j].text)
          {
            assert rest[j] == pieces[j + 1];
          }
        }
      }
    }
  }

  /** A lone reference resolves to what it stands for; any other string to its pieces, in order. */
  lemma StringGives(pieces: seq<Piece>, ctx: Context)
    ensures
      var v := ResolveValue(Scanned(pieces), ctx).value;
      && (forall i :: Lone(pieces, i) ==> RefGives(pieces[i].ref, ctx, v))
      && ((forall i :: !Lone(pieces, i)) ==>
            v.Text? && exists texts :: TextsOf(pieces, ctx, texts) && v.s == Joined(texts))
  {
    LoneHole(pieces);
    forall i | Lone(pieces, i)
      ensures RefGives(pieces[i].ref, ctx, ResolveValue(Scanned(pieces), ctx).value)
    {
      SingleGives(pieces[i].ref, ctx);
    }
    if forall i :: !Lone(pieces, i) {
      var texts := InterpolateGives(pieces, ctx);
      if Holes(pieces) == [] {
        PlainGives(pieces, ctx);
      }
    }
  }

  /** Lists and records keep their shape: each item, and each field under its key, is resolved in its place. */
  lemma {:induction false} ItemsGive(items: seq<Template>, ctx: Context)
    ensures
      var r := ResolveItems(items, ctx).0;
      |r| == |items| && forall k :: 0 <= k < |items| ==> r[k] == ResolveValue(items[k], ctx).value
  {
    if items != [] {
      ItemsGive(items[1..], ctx);
      assert items == [items[0]] + items[1..];
    }
  }

  lemma {:induction false} FieldsGive(fields: seq<Param>, ctx: Context)
    ensures
      var r := ResolveFields(fields, ctx).0;
      && |r| == |fields|
      && forall k :: 0 <= k < |fields| ==> r[k] == (fields[k].key, ResolveValue(fields[k].template, ctx).value)
  {
    if fields != [] {
      FieldsGive(fields[1..], ctx);
      assert fields == [fields[0]] + fields[1..];
    }
  }
}
