/**
  * Passes of workers over runs, interleaved with each other, with other callers, with crashes and with the clock
  * (worker/execution.ts, worker/worker.ts). A pass stands before one backend call at a time;
  * its turn makes that call and everything local up to the next one.
  */
module Replay {
  import opened Graphs
  import opened Workflows
  import opened Retry
  import opened Store
  import opened Signals
  import opened StepNames
  import opened StepHistory

  // ---- the workflow function ----

  /** An error that a step call raises. */
  datatype Problem =
    | StepFailure(count: nat, policy: Policy, failure: Value)
    | LimitExceeded
    | Unexpected(message: string)

  /** What a step call gave the function. */
  datatype Outcome = Returned(value: Value) | Raised(problem: Problem)

  /** What a wait's schema makes of the delivered data, if it accepts them; without a schema they stay as they are. */
  type Schema = Value -> Option<Value>

  /** What a sequential workflow function does next: call a step, end, or let its last step's error out. */
  datatype Action =
    | Step(kind: StepKind, base: string, target: string, data: Value, policy: Policy, schema: Schema)
    | Finish(output: Value)
    | Throw(error: Value)
    | Propagate

  /** A deterministic function is told by what it does after each sequence of outcomes. */
  type WorkflowFn = seq<Outcome> -> Action

  /** The function as it behaves in the pass of each claim; passes may read the clock at different times. */
  type Family = nat -> WorkflowFn

  /** The function and retry policy of each run. */
  datatype Env = Env(fns: Id -> Family, policies: Id -> Policy)

  // ---- passes ----

  datatype Pc =
    | Loading
    | PrePass(left: map<string, Attempt>, pending: bool)
    | Deciding
    | Creating(step: string, action: Action)
    | Executing(a: Attempt, policy: Policy)
    | Linking(a: Attempt, first: bool, target: string, data: Value)
    | Binding(a: Attempt, first: bool, child: Id)
    | Watching(a: Attempt)
    | Sending(a: Attempt, target: string, data: Value)
    | Receiving(a: Attempt, schema: Schema)
    | Completing(a: Attempt, output: Value, onError: Option<Policy>)
    | Failing(a: Attempt, policy: Policy, failure: Value)
    | Ending(op: Op)
    | Waking

  /** A worker's pass over a run: the claimed row's counters, its ledger, and the steps the function has called. */
  datatype Pass = Pass(
    run: Id,
    claims: nat,
    deadlineAt: Option<Time>,
    ledger: Ledger,
    count: nat,
    names: seq<string>,
    outs: seq<Outcome>,
    pc: Pc)

  /**
    * The tables, the live pass of each busy worker slot, and the cancelled runs whose canceller has yet to wake the
    * parent. The children whose wake died with the call that owed it are kept on record.
    */
  datatype Sys = Sys(t: Tables, passes: map<Id, Pass>, cancellers: set<Id>, lost: set<Id>)

  /** Nothing has happened yet. */
  function Initial(now: Time): Sys {
    Sys(Empty(now), map[], {}, {})
  }

  /** What the surroundings decide at a turn: success of the call, generated id, times, values, rows read. */
  datatype Choice =
    Choice(ok: bool, id: Id, child: Id, at: Time, value: Value, ids: seq<Id>, rows: seq<Attempt>, step: string)

  /** One turn: the backend call it makes, if any, and the pass afterwards, if it goes on. */
  datatype Turn = Turn(op: Option<Op>, next: Option<Pass>)

  const STEP_LIMIT := 1000

  /**
    * One try: the policy of steps that are not functions, and the default policy of a run, which has the same numbers.
    */
  const TERMINAL_POLICY := Policy(1000, 2.0, 100000, 1)
  const MISSING_DEFINITION_POLICY := Policy(5000, 2.0, 300000, 0)
  const LIMIT_ERROR := Record([("name", Text("StepLimitExceededError")), ("code", Text("STEP_LIMIT_EXCEEDED"))])

  function Message(m: string): Value {
    Record([("message", Text(m))])
  }

  function Silent(p: Pass, pc: Pc): Turn {
    Turn(None, Some(p.(pc := pc)))
  }

  /** The step call ends and the function goes on. */
  function Answer(p: Pass, step: string, out: Outcome): Pass {
    p.(names := p.names + [step], outs := p.outs + [out], pc := Deciding)
  }

  function Problematic(p: Pass, step: string, problem: Problem): Turn {
    Turn(None, Some(Answer(p, step, Raised(problem))))
  }

  function FailOp(p: Pass, w: Id, error: Value, policy: Policy): Op {
    FailRun(p.run, w, error, policy, p.claims, p.deadlineAt)
  }

  /** Before the statement that parks the run. */
  ghost function Parking(w: Id, p: Pass, fallback: Time): Pc {
    Ending(Park(p.run, w, ParkUntil(p.ledger.running, fallback)))
  }

  // ---- loading and the sleeps that have elapsed ----

  /** The attempts of a run, each once, in the order they were created. */
  ghost predicate Lists(t: Tables, run: Id, rows: seq<Attempt>) {
    && (forall i ::
          0 <= i < |rows| ==> rows[i].id in t.attempts && t.attempts[rows[i].id] == rows[i] && rows[i].run == run)
    && (forall id :: id in t.attempts && t.attempts[id].run == run ==> t.attempts[id] in rows)
    && (forall i, j :: 0 <= i < j < |rows| ==> rows[i] != rows[j] && rows[i].createdAt <= rows[j].createdAt)
  }

  predicate IsSleep(a: Attempt) {
    a.kind == SleepStep && a.context.SleepUntil?
  }

  ghost function LoadTurn(w: Id, p: Pass, c: Choice): Turn {
    if |c.rows| > STEP_LIMIT then Silent(p, Ending(FailOp(p, w, LIMIT_ERROR, TERMINAL_POLICY)))
    else
      var l := Rebuilt(c.rows);
      var sleeps := map n | n in l.running && IsSleep(l.running[n]) :: l.running[n];
      Turn(None, Some(p.(ledger := l, count := |c.rows|, pc := PrePass(sleeps, false))))
  }

  function CompletedCopy(a: Attempt, output: Value): Attempt {
    a.(status := StepCompleted, output := output, error := Null)
  }

  /** Completes the sleeps that have elapsed, without looking at the cache; a pending one may park the run at once. */
  ghost function PrePassTurn(env: Env, t: Tables, w: Id, p: Pass, c: Choice): Turn
    requires p.pc.PrePass?
  {
    var left, pending := p.pc.left, p.pc.pending;
    if c.step in left then
      var a := left[c.step];
      if a.context.SleepUntil? && t.now < a.context.resumeAt then Silent(p, PrePass(left - {c.step}, true))
      else if c.ok && OwnedAttempt(t, p.run, w, a.id) then
        Turn(Some(CompleteAttempt(p.run, w, a.id, Null)),
             Some(p.(ledger := WithCompletion(p.ledger, CompletedCopy(a, Null)),
                     pc := PrePass(left - {c.step}, pending))))
      else Silent(p, Ending(FailOp(p, w, Message("mark step attempt completed"), env.policies(p.run))))
    else if pending && Earliest(p.ledger.running).Some? && t.now < Earliest(p.ledger.running).value then
      Silent(p, Ending(Park(p.run, w, Earliest(p.ledger.running).value)))
    else Silent(p, Deciding)
  }

  // ---- the function's next move ----

  function PropagateOp(env: Env, t: Tables, w: Id, p: Pass): Op {
    if p.outs == [] || p.outs[|p.outs| - 1].Returned? then FailOp(p, w, Null, env.policies(p.run))
    else
      match p.outs[|p.outs| - 1].problem
      case LimitExceeded => FailOp(p, w, LIMIT_ERROR, TERMINAL_POLICY)
      case Unexpected(m) => FailOp(p, w, Message(m), env.policies(p.run))
      case StepFailure(count, policy, failure) =>
        match FailedUpdate(policy, count, p.deadlineAt, failure, t.now)
        case GiveUp(_) => FailOp(p, w, failure, TERMINAL_POLICY)
        case Again(at, _) => Reschedule(p.run, w, at, failure)
  }

  /** The run's function as this pass runs it. */
  function FnOf(env: Env, p: Pass): WorkflowFn {
    env.fns(p.run)(p.claims)
  }

  ghost function DecideTurn(env: Env, t: Tables, w: Id, p: Pass, c: Choice): Turn {
    var action := FnOf(env, p)(p.outs);
    match action
    case Finish(output) => Silent(p, Ending(Complete(p.run, w, Normalized(output))))
    case Throw(error) => Silent(p, Ending(FailOp(p, w, error, env.policies(p.run))))
    case Propagate => Silent(p, Ending(PropagateOp(env, t, w, p)))
    case Step(_, base, _, _, _, _) => CallTurn(p, Resolved(Elems(p.names), base), action, c)
  }

  /** A step call: its memoised output, its own running attempt, or a new attempt. */
  function CallTurn(p: Pass, step: string, action: Action, c: Choice): Turn
    requires action.Step?
  {
    var l := p.ledger;
    if step in l.cache then Turn(None, Some(Answer(p, step, Returned(l.cache[step].output))))
    else
      match action.kind
      case WorkflowStep =>
        if step in l.failed && l.failed[step].kind == WorkflowStep && l.failed[step].child.Some? then
          Problematic(p, step, StepFailure(FailedCount(l, step), TERMINAL_POLICY, l.failed[step].error))
        else if step in l.running && l.running[step].kind == WorkflowStep then
          if l.running[step].child.Some? then Silent(p, Watching(l.running[step]))
          else Silent(p, Linking(l.running[step], false, action.target, action.data))
        else if c.ok then Silent(p, Creating(step, action))
        else Problematic(p, step, Unexpected("timeout"))
      case SignalSend =>
        if step in l.running && l.running[step].kind == SignalSend then
          Silent(p, Sending(l.running[step], action.target, action.data))
        else Silent(p, Creating(step, action))
      case SignalWait =>
        if step in l.running && l.running[step].kind == SignalWait then
          Silent(p, Receiving(l.running[step], action.schema))
        else if exists n :: n in l.running && n != step && WaitsOnSignal(l.running[n], action.target) then
          Problematic(p, step, Unexpected("already being waited on"))
        else if c.ok then Silent(p, Creating(step, action))
        else Problematic(p, step, Unexpected("timeout"))
      case SleepStep => if c.ok then Silent(p, Creating(step, action)) else Problematic(p, step, Unexpected("duration"))
      case FunctionStep => Silent(p, Creating(step, action))
  }

  function ContextFor(action: Action, at: Time): StepContext
    requires action.Step?
  {
    match action.kind
    case SleepStep => SleepUntil(at)
    case WorkflowStep => ChildUntil(Some(at))
    case SignalWait => SignalUntil(action.target, at)
    case _ => NoContext
  }

  /** The attempt is inserted whether or not the worker still owns the run. */
  ghost function CreateTurn(t: Tables, w: Id, p: Pass, c: Choice): Turn
    requires p.pc.Creating?
  {
    var step, action := p.pc.step, p.pc.action;
    if p.count >= STEP_LIMIT then Problematic(p, step, LimitExceeded)
    else if !c.ok || !action.Step? then Problematic(p, step, Unexpected("create step attempt"))
    else
      var op := CreateAttempt(c.id, p.run, step, action.kind, ContextFor(action, c.at));
      var a := Attempt(c.id, p.run, step, action.kind, StepRunning, ContextFor(action, c.at), None, t.now, Null, Null);
      var p' := p.(ledger := WithRunning(p.ledger, a), count := p.count + 1);
      match action.kind
      case FunctionStep => Turn(Some(op), Some(p'.(pc := Executing(a, action.policy))))
      case SleepStep => Turn(Some(op), Some(p'.(pc := Parking(w, p', c.at))))
      case WorkflowStep => Turn(Some(op), Some(p'.(pc := Linking(a, true, action.target, action.data))))
      case SignalSend => Turn(Some(op), Some(p'.(pc := Sending(a, action.target, action.data))))
      case SignalWait => Turn(Some(op), Some(p'.(pc := Receiving(a, action.schema))))
  }

  // ---- inside a step ----

  function LinkTurn(t: Tables, p: Pass, c: Choice): Turn
    requires p.pc.Linking?
  {
    var a := p.pc.a;
    var key := Some(ChildKey(a.id));
    if !c.ok then LinkFails(p, a, p.pc.first)
    else
      Turn(Some(CreateRun(c.id, p.pc.target, key, p.pc.data, Some(a.id), None, None)),
           Some(p.(pc := Binding(a, p.pc.first, c.child))))
  }

  function LinkFails(p: Pass, a: Attempt, first: bool): Turn {
    if first then Silent(p, Failing(a, TERMINAL_POLICY, Message("link")))
    else Problematic(p, a.step, Unexpected("link"))
  }

  function BindTurn(t: Tables, w: Id, p: Pass, c: Choice): Turn
    requires p.pc.Binding?
  {
    var a, child := p.pc.a, p.pc.child;
    if c.ok && OwnedAttempt(t, p.run, w, a.id) then
      var a' := a.(child := Some(child));
      Turn(Some(Link(p.run, w, a.id, child)), Some(p.(ledger := WithRunning(p.ledger, a'), pc := Watching(a'))))
    else LinkFails(p, a, p.pc.first)
  }

  /** The timeout counts against a finished child only when the child finished after it. */
  predicate TimedOut(t: Tables, a: Attempt, child: Run) {
    match TimeoutAt(a)
    case None => false
    case Some(at) =>
      t.now >= at && (Terminal(child.status) && child.finishedAt.Some? ==> child.finishedAt.value > at)
  }

  ghost function WatchTurn(t: Tables, w: Id, p: Pass): Turn
    requires p.pc.Watching?
  {
    var a := p.pc.a;
    if a.child.None? || a.child.value !in t.runs then
      Silent(p, Failing(a, TERMINAL_POLICY, Message("could not find child")))
    else
      var child := t.runs[a.child.value];
      if TimedOut(t, a, child) then Silent(p, Failing(a, TERMINAL_POLICY, Message("timed out")))
      else
        match child.status
        case Completed => Silent(p, Completing(a, child.output, None))
        case Failed => Silent(p, Failing(a, TERMINAL_POLICY, child.error))
        case Canceled => Silent(p, Failing(a, TERMINAL_POLICY, Message("canceled")))
        case _ => Silent(p, Parking(w, p, TimeoutAt(a).GetOr(a.createdAt + DEFAULT_WAIT)))
  }

  function SignalKey(run: Id, step: string): string {
    "__signal:" + run + ":" + step
  }

  /** An absent value is stored as null. */
  function Normalized(v: Value): Value {
    if v == Undefined then Null else v
  }

  function RunIds(ids: seq<Id>): Value {
    Record([("workflowRunIds", List(seq(|ids|, i requires 0 <= i < |ids| => Text(ids[i]))))])
  }

  /** The step's function returns or throws. */
  function ExecuteTurn(p: Pass, c: Choice): Turn
    requires p.pc.Executing?
  {
    if c.ok then Silent(p, Completing(p.pc.a, Normalized(c.value), Some(p.pc.policy)))
    else Silent(p, Failing(p.pc.a, p.pc.policy, c.value))
  }

  function SendTurn(p: Pass, c: Choice): Turn
    requires p.pc.Sending?
  {
    var a := p.pc.a;
    if c.ok then
      Turn(Some(Send(p.pc.target, Some(SignalKey(p.run, a.step)), p.pc.data)),
           Some(p.(pc := Completing(a, RunIds(c.ids), Some(TERMINAL_POLICY)))))
    else Silent(p, Failing(a, TERMINAL_POLICY, Message("send")))
  }

  /** What a wait returns for a delivered signal. */
  function Envelope(v: Value): Value {
    Record([("data", Normalized(v))])
  }

  /** A delivered signal goes through the step's schema, which may change or refuse it. */
  ghost function ReceiveTurn(t: Tables, w: Id, p: Pass): Turn
    requires p.pc.Receiving?
  {
    var a := p.pc.a;
    if a.id in t.signals then
      match p.pc.schema(Normalized(t.signals[a.id].data))
      case Some(v) => Silent(p, Completing(a, Envelope(v), None))
      case None => Silent(p, Failing(a, TERMINAL_POLICY, Message("schema")))
    else
      var at := TimeoutAt(a).GetOr(a.createdAt + DEFAULT_WAIT);
      if t.now >= at then Silent(p, Completing(a, Null, None)) else Silent(p, Parking(w, p, at))
  }

  /** The guarded completion; when it is refused, a function or send step is failed instead. */
  function CompleteTurn(t: Tables, w: Id, p: Pass, c: Choice): Turn
    requires p.pc.Completing?
  {
    var a, output := p.pc.a, p.pc.output;
    if c.ok && OwnedAttempt(t, p.run, w, a.id) then
      Turn(Some(CompleteAttempt(p.run, w, a.id, output)),
           Some(Answer(p.(ledger := WithCompletion(p.ledger, CompletedCopy(a, output))), a.step, Returned(output))))
    else if p.pc.onError.Some? then Silent(p, Failing(a, p.pc.onError.value, Message("mark step attempt completed")))
    else Problematic(p, a.step, Unexpected("mark step attempt completed"))
  }

  function FailedCopy(a: Attempt, failure: Value): Attempt {
    a.(status := StepFailed, output := Null, error := failure)
  }

  function FailTurn(t: Tables, w: Id, p: Pass, c: Choice): Turn
    requires p.pc.Failing?
  {
    var a, failure := p.pc.a, p.pc.failure;
    if c.ok && OwnedAttempt(t, p.run, w, a.id) then
      var l := WithFailure(p.ledger, FailedCopy(a, failure));
      Turn(Some(FailAttempt(p.run, w, a.id, failure)),
           Some(Answer(p.(ledger := l), a.step, Raised(StepFailure(FailedCount(l, a.step), p.pc.policy, failure)))))
    else Problematic(p, a.step, Unexpected("mark step attempt failed"))
  }

  /**
    * The transition that ends the pass. Finishing a child leaves its parent to wake. An error is dropped when the run
    * is no longer the worker's; an error of completing a run that still is goes on to fail the run, any other ends the
    * pass.
    */
  function EndTurn(env: Env, t: Tables, w: Id, p: Pass, c: Choice): Turn
    requires p.pc.Ending?
  {
    if c.ok then Turn(Some(p.pc.op), if Apply(t, p.pc.op).owed != t.owed then Some(p.(pc := Waking)) else None)
    else if p.pc.op.Complete? && Owned(t, p.run, w) then
      Silent(p, Ending(FailOp(p, w, Message("mark workflow run completed"), env.policies(p.run))))
    else Turn(None, None)
  }

  ghost function TurnOf(env: Env, t: Tables, w: Id, p: Pass, c: Choice): Turn {
    match p.pc
    case Loading => LoadTurn(w, p, c)
    case PrePass(_, _) => PrePassTurn(env, t, w, p, c)
    case Deciding => DecideTurn(env, t, w, p, c)
    case Creating(_, _) => CreateTurn(t, w, p, c)
    case Executing(_, _) => ExecuteTurn(p, c)
    case Linking(_, _, _, _) => LinkTurn(t, p, c)
    case Binding(_, _, _) => BindTurn(t, w, p, c)
    case Watching(_) => WatchTurn(t, w, p)
    case Sending(_, _, _) => SendTurn(p, c)
    case Receiving(_, _) => ReceiveTurn(t, w, p)
    case Completing(_, _, _) => CompleteTurn(t, w, p, c)
    case Failing(_, _, _) => FailTurn(t, w, p, c)
    case Ending(_) => EndTurn(env, t, w, p, c)
    case Waking => Turn(Some(Wake(p.run)), None)
  }

  // ---- the system ----

  datatype Label =
    | External(op: Op)
    | Start(worker: Id, lease: int, pick: Option<Id>, registered: bool)
    | Go(worker: Id, c: Choice)
    | Crash(worker: Id)
    | CallerWakes(child: Id)
    | CallerDies(child: Id)

  /** What others do: clients create, cancel and signal; heartbeats extend; time passes. */
  predicate FromOutside(op: Op) {
    (op.CreateRun? && op.parent.None?) || op.Cancel? || op.Send? || op.Extend? || op.Elapse?
  }

  /** What the surroundings can answer: the rows read, new ids, and the child run that the create call returns. */
  ghost predicate Possible(t: Tables, p: Pass, c: Choice) {
    match p.pc
    case Loading => Lists(t, p.run, c.rows)
    case PrePass(left, _) => left != map[] ==> c.step in left
    case Creating(_, _) => c.id !in t.attempts
    case Linking(a, _, target, _) =>
      && c.id !in t.runs
      && if HasMatch(t, target, Some(ChildKey(a.id))) then Matches(t, c.child, target, ChildKey(a.id))
         else c.child == c.id
    case Sending(a, target, _) => Distinct(c.ids) && Elems(c.ids) == Reached(t, target, Some(SignalKey(p.run, a.step)))
    case _ => true
  }

  /** A worker slot claims only while it has no live pass. */
  ghost predicate Enabled(s: Sys, l: Label) {
    match l
    case External(op) => FromOutside(op) && Allowed(s.t, op)
    case Start(w, lease, pick, _) => w !in s.passes && Allowed(s.t, Claim(w, lease, pick))
    case Go(w, c) => w in s.passes && Possible(s.t, s.passes[w], c)
    case Crash(w) => w in s.passes
    case CallerWakes(child) => child in s.cancellers
    case CallerDies(child) => child in s.cancellers
  }

  /** The backend operation of a step, if it has one; the death of a call that owes a wake is one. */
  ghost function OpOf(env: Env, s: Sys, l: Label): Option<Op>
    requires Enabled(s, l)
  {
    match l
    case External(op) => Some(op)
    case Start(w, lease, pick, _) => Some(Claim(w, lease, pick))
    case Go(w, c) => TurnOf(env, s.t, w, s.passes[w], c).op
    case Crash(w) => if s.passes[w].pc.Waking? then Some(Forget(s.passes[w].run)) else None
    case CallerWakes(child) => Some(Wake(child))
    case CallerDies(child) => Some(Forget(child))
  }

  function NewPass(w: Id, run: Id, r: Run, registered: bool): Pass {
    var p := Pass(run, r.attempts, r.deadlineAt, EMPTY_LEDGER, 0, [], [], Loading);
    if registered then p else p.(pc := Ending(FailOp(p, w, Message("not registered"), MISSING_DEFINITION_POLICY)))
  }

  function AfterOp(t: Tables, op: Option<Op>): Tables {
    if op.Some? then Apply(t, op.value) else t
  }

  ghost function PassesAfter(env: Env, s: Sys, l: Label): map<Id, Pass>
    requires Enabled(s, l)
  {
    match l
    case Start(w, lease, pick, registered) =>
      var t' := Apply(s.t, Claim(w, lease, pick));
      if pick.Some? then s.passes[w := NewPass(w, pick.value, t'.runs[pick.value], registered)] else s.passes
    case Go(w, c) =>
      var turn := TurnOf(env, s.t, w, s.passes[w], c);
      if turn.next.Some? then s.passes[w := turn.next.value] else s.passes - {w}
    case Crash(w) => s.passes - {w}
    case _ => s.passes
  }

  /** A cancel that ends a child leaves its caller to wake the parent. */
  function CancellersAfter(s: Sys, l: Label): set<Id> {
    match l
    case External(op) => s.cancellers + (Apply(s.t, op).owed - s.t.owed)
    case CallerWakes(child) => s.cancellers - {child}
    case CallerDies(child) => s.cancellers - {child}
    case _ => s.cancellers
  }

  ghost function Effect(env: Env, s: Sys, l: Label): Sys
    requires Enabled(s, l)
  {
    var op := OpOf(env, s, l);
    Sys(AfterOp(s.t, op), PassesAfter(env, s, l), CancellersAfter(s, l),
        if op.Some? then LostBy(op.value, s.lost) else s.lost)
  }

  ghost predicate Runs(env: Env, s: Sys, labels: seq<Label>)
    decreases |labels|
  {
    labels == [] || (Enabled(s, labels[0]) && Runs(env, Effect(env, s, labels[0]), labels[1..]))
  }

  ghost function After(env: Env, s: Sys, labels: seq<Label>): Sys
    requires Runs(env, s, labels)
    decreases |labels|
  {
    if labels == [] then s else After(env, Effect(env, s, labels[0]), labels[1..])
  }
}
