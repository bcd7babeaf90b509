/**
  * The workflow tables and what each backend statement does to them (sqlite/backend.ts).
  * Every operation is one statement or one immediate transaction, so each is one step of the state machine;
  * waking a parent is a statement of its own.
  */
module Store {
  import opened Graphs
  import opened Workflows
  import opened Retry

  datatype Status = Pending | Running | Completed | Failed | Canceled

  predicate Terminal(status: Status) {
    status == Completed || status == Failed || status == Canceled
  }

  datatype Run = Run(
    name: string,
    key: Option<string>,
    input: Value,
    status: Status,
    attempts: nat,
    parent: Option<Id>,
    worker: Option<Id>,
    availableAt: Option<Time>,
    deadlineAt: Option<Time>,
    startedAt: Option<Time>,
    finishedAt: Option<Time>,
    createdAt: Time,
    output: Value,
    error: Value)

  datatype StepKind = FunctionStep | SleepStep | WorkflowStep | SignalSend | SignalWait

  datatype StepStatus = StepRunning | StepCompleted | StepFailed

  datatype StepContext =
    | NoContext
    | SleepUntil(resumeAt: Time)
    | ChildUntil(childTimeoutAt: Option<Time>)
    | SignalUntil(signal: string, signalTimeoutAt: Time)

  datatype Attempt = Attempt(
    id: Id,
    run: Id,
    step: string,
    kind: StepKind,
    status: StepStatus,
    context: StepContext,
    child: Option<Id>,
    createdAt: Time,
    output: Value,
    error: Value)

  /** A signal row; the table has at most one for each waiting step attempt. */
  datatype Delivery = Delivery(signal: string, data: Value, senderKey: Option<string>, run: Id)

  /** The tables, the clock, and the runs that finished and whose parent has yet to be woken. */
  datatype Tables = Tables(
    now: Time,
    runs: map<Id, Run>,
    attempts: map<Id, Attempt>,
    signals: map<Id, Delivery>,
    owed: set<Id>)

  function Empty(now: Time): Tables {
    Tables(now, map[], map[], map[], {})
  }

  datatype Op =
    | CreateRun(id: Id, name: string, key: Option<string>, input: Value, parent: Option<Id>, startAt: Option<Time>,
                deadlineAt: Option<Time>)
    | Claim(worker: Id, lease: int, pick: Option<Id>)
    | Extend(run: Id, worker: Id, lease: int)
    | Park(run: Id, worker: Id, at: Time)
    | Complete(run: Id, worker: Id, output: Value)
    | FailRun(run: Id, worker: Id, error: Value, policy: Policy, attempts: int, deadlineAt: Option<Time>)
    | Reschedule(run: Id, worker: Id, at: Time, error: Value)
    | Cancel(run: Id)
    | Wake(child: Id)
    | Forget(child: Id)
    | Send(signal: string, senderKey: Option<string>, data: Value)
    | CreateAttempt(id: Id, run: Id, step: string, kind: StepKind, context: StepContext)
    | Link(run: Id, worker: Id, attempt: Id, child: Id)
    | CompleteAttempt(run: Id, worker: Id, attempt: Id, output: Value)
    | FailAttempt(run: Id, worker: Id, attempt: Id, error: Value)
    | Elapse(ms: nat)

  // ---- rows ----

  predicate Live(r: Run) {
    r.status == Pending || r.status == Running
  }

  /** Running and held by the worker: the guard of every write that only the owner may do. */
  predicate Owned(t: Tables, run: Id, worker: Id) {
    run in t.runs && t.runs[run].status == Running && t.runs[run].worker == Some(worker)
  }

  predicate OwnedAttempt(t: Tables, run: Id, worker: Id, attempt: Id) {
    && attempt in t.attempts && t.attempts[attempt].run == run && t.attempts[attempt].status == StepRunning
    && Owned(t, run, worker)
  }

  function WithRun(t: Tables, id: Id, r: Run): Tables {
    t.(runs := t.runs[id := r])
  }

  function WithAttempt(t: Tables, a: Attempt): Tables {
    t.(attempts := t.attempts[a.id := a])
  }

  /** A run that ended has to wake the run that waits for it, if there is one. */
  function Owing(t: Tables, id: Id): Tables
    requires id in t.runs
  {
    if t.runs[id].parent.Some? then t.(owed := t.owed + {id}) else t
  }

  /** Available now at the latest. */
  function Woken(r: Run, now: Time): Run {
    if r.availableAt.None? || r.availableAt.value > now then r.(availableAt := Some(now)) else r
  }

  // ---- creating ----

  const IDEMPOTENCY_PERIOD: int := 24 * 60 * 60 * 1000

  predicate Matches(t: Tables, id: Id, name: string, key: string) {
    && id in t.runs && t.runs[id].name == name && t.runs[id].key == Some(key)
    && t.runs[id].createdAt >= t.now - IDEMPOTENCY_PERIOD
  }

  predicate HasMatch(t: Tables, name: string, key: Option<string>) {
    key.Some? && exists id :: id in t.runs && Matches(t, id, name, key.value)
  }

  function NewRun(op: Op, now: Time): Run
    requires op.CreateRun?
  {
    Run(op.name, op.key, op.input, Pending, 0, op.parent, None, Some(op.startAt.GetOr(now)), op.deadlineAt, None, None,
        now, Null, Null)
  }

  function AfterCreateRun(t: Tables, op: Op): Tables
    requires op.CreateRun?
  {
    if HasMatch(t, op.name, op.key) then t else WithRun(t, op.id, NewRun(op, t.now))
  }

  // ---- claiming ----

  predicate PastDeadline(r: Run, now: Time) {
    Live(r) && r.deadlineAt.Some? && r.deadlineAt.value <= now
  }

  function Expire(r: Run, now: Time): Run {
    if PastDeadline(r, now) then
      r.(status := Failed, error := DEADLINE_EXCEEDED, worker := None, availableAt := None, finishedAt := Some(now))
    else r
  }

  function Expired(runs: map<Id, Run>, now: Time): map<Id, Run> {
    map id | id in runs :: Expire(runs[id], now)
  }

  predicate Due(r: Run, now: Time) {
    && Live(r) && r.availableAt.Some? && r.availableAt.value <= now
    && (r.deadlineAt.None? || r.deadlineAt.value > now)
  }

  function Rank(r: Run): int {
    if r.status == Pending then 0 else 1
  }

  /** Pending runs first, then by available_at, then by created_at. */
  predicate NoLater(a: Run, b: Run)
    requires a.availableAt.Some? && b.availableAt.Some?
  {
    || Rank(a) < Rank(b)
    || (Rank(a) == Rank(b) && a.availableAt.value < b.availableAt.value)
    || (Rank(a) == Rank(b) && a.availableAt.value == b.availableAt.value && a.createdAt <= b.createdAt)
  }

  predicate FirstDue(runs: map<Id, Run>, now: Time, pick: Id) {
    && pick in runs && Due(runs[pick], now)
    && forall id :: id in runs && Due(runs[id], now) ==> NoLater(runs[pick], runs[id])
  }

  predicate NothingDue(t: Tables) {
    forall id :: id in t.runs ==> !Due(Expire(t.runs[id], t.now), t.now)
  }

  function Claimed(r: Run, worker: Id, lease: int, now: Time): Run {
    r.(status := Running, attempts := r.attempts + 1, worker := Some(worker), availableAt := Some(now + lease),
       startedAt := if r.startedAt.None? then Some(now) else r.startedAt)
  }

  function AfterClaim(t: Tables, worker: Id, lease: int, pick: Option<Id>): Tables {
    var t' := t.(runs := Expired(t.runs, t.now));
    if pick.Some? && pick.value in t'.runs then
      WithRun(t', pick.value, Claimed(t'.runs[pick.value], worker, lease, t.now))
    else t'
  }

  // ---- transitions of a run ----

  /** A running wait whose answer is already there: a delivered signal or a finished child. */
  predicate Ready(t: Tables, a: Attempt) {
    && a.status == StepRunning
    && ((a.kind == SignalWait && a.id in t.signals)
        || (a.kind == WorkflowStep
            && a.child.Some? && a.child.value in t.runs && Terminal(t.runs[a.child.value].status)))
  }

  predicate AnyReady(t: Tables, run: Id) {
    exists a :: a in t.attempts && t.attempts[a].run == run && Ready(t, t.attempts[a])
  }

  function AfterExtend(t: Tables, run: Id, worker: Id, lease: int): Tables {
    if Owned(t, run, worker) then WithRun(t, run, t.runs[run].(availableAt := Some(t.now + lease))) else t
  }

  predicate CanPark(t: Tables, run: Id, worker: Id) {
    run in t.runs && !Terminal(t.runs[run].status) && t.runs[run].worker == Some(worker)
  }

  function ParkTime(t: Tables, run: Id, at: Time): Time {
    if AnyReady(t, run) && at > t.now then t.now else at
  }

  function AfterPark(t: Tables, run: Id, worker: Id, at: Time): Tables {
    if CanPark(t, run, worker) then
      WithRun(t, run, t.runs[run].(status := Running, availableAt := Some(ParkTime(t, run, at)), worker := None))
    else t
  }

  function AfterComplete(t: Tables, run: Id, worker: Id, output: Value): Tables {
    if Owned(t, run, worker) then
      Owing(WithRun(t, run,
                    t.runs[run].(status := Completed, output := output, error := Null, availableAt := None,
                                 finishedAt := Some(t.now))),
            run)
    else t
  }

  function AfterFailRun(t: Tables, run: Id, worker: Id, u: Update): Tables {
    if Owned(t, run, worker) then
      var r := t.runs[run];
      match u
      case GiveUp(error) =>
        Owing(WithRun(t, run,
                      r.(status := Failed, availableAt := None, finishedAt := Some(t.now), error := error,
                         worker := None, startedAt := None)),
              run)
      case Again(at, error) =>
        WithRun(t, run,
                r.(status := Pending, availableAt := Some(at), finishedAt := None, error := error, worker := None,
                   startedAt := None))
    else t
  }

  function AfterReschedule(t: Tables, run: Id, worker: Id, at: Time, error: Value): Tables {
    if Owned(t, run, worker) then
      WithRun(t, run,
              t.runs[run].(status := Pending, availableAt := Some(at), finishedAt := None, error := error,
                           worker := None, startedAt := None))
    else t
  }

  function AfterCancel(t: Tables, run: Id): Tables {
    if run in t.runs && Live(t.runs[run]) then
      Owing(WithRun(t, run,
                    t.runs[run].(status := Canceled, worker := None, availableAt := None, finishedAt := Some(t.now))),
            run)
    else t
  }

  // ---- waking ----

  /** The run whose running step waits for this child. */
  predicate WaitsFor(t: Tables, run: Id, child: Id) {
    && child in t.runs && t.runs[child].parent.Some? && t.runs[child].parent.value in t.attempts
    && var a := t.attempts[t.runs[child].parent.value];
       a.run == run && a.kind == WorkflowStep && a.status == StepRunning && a.child == Some(child)
  }

  predicate Parked(r: Run) {
    r.status == Running && r.worker.None?
  }

  function AfterWake(t: Tables, child: Id): Tables {
    Tables(t.now,
           map id | id in t.runs ::
             if WaitsFor(t, id, child) && Parked(t.runs[id]) then Woken(t.runs[id], t.now) else t.runs[id],
           t.attempts, t.signals, t.owed - {child})
  }

  // ---- signals ----

  predicate Sent(d: Delivery, signal: string, key: string) {
    d.signal == signal && d.senderKey == Some(key)
  }

  predicate AlreadySent(t: Tables, signal: string, key: Option<string>) {
    key.Some? && exists a :: a in t.signals && Sent(t.signals[a], signal, key.value)
  }

  predicate WaitsOn(a: Attempt, signal: string) {
    a.kind == SignalWait && a.status == StepRunning && a.context.SignalUntil? && a.context.signal == signal
  }

  /** The waiters that get a row: those without one. */
  function Takers(t: Tables, signal: string): set<Id> {
    set a | a in t.attempts && WaitsOn(t.attempts[a], signal) && a !in t.signals
  }

  function TakerRuns(t: Tables, signal: string): set<Id> {
    set a | a in Takers(t, signal) :: t.attempts[a].run
  }

  function AfterSend(t: Tables, signal: string, key: Option<string>, data: Value): Tables {
    if AlreadySent(t, signal, key) then t
    else
      Tables(t.now,
             map id | id in t.runs ::
               if id in TakerRuns(t, signal) && Live(t.runs[id]) && t.runs[id].worker.None? then
                 Woken(t.runs[id], t.now) else t.runs[id],
             t.attempts,
             t.signals + map a | a in Takers(t, signal) :: Delivery(signal, data, key, t.attempts[a].run),
             t.owed)
  }

  // ---- step attempts ----

  /** Inserting an attempt does not look at who owns the run. */
  function AfterCreateAttempt(t: Tables, op: Op): Tables
    requires op.CreateAttempt?
  {
    WithAttempt(t, Attempt(op.id, op.run, op.step, op.kind, StepRunning, op.context, None, t.now, Null, Null))
  }

  function AfterLink(t: Tables, run: Id, worker: Id, attempt: Id, child: Id): Tables {
    if OwnedAttempt(t, run, worker, attempt) then WithAttempt(t, t.attempts[attempt].(child := Some(child))) else t
  }

  function AfterCompleteAttempt(t: Tables, run: Id, worker: Id, attempt: Id, output: Value): Tables {
    if OwnedAttempt(t, run, worker, attempt) then
      WithAttempt(t, t.attempts[attempt].(status := StepCompleted, output := output, error := Null))
    else t
  }

  function AfterFailAttempt(t: Tables, run: Id, worker: Id, attempt: Id, error: Value): Tables {
    if OwnedAttempt(t, run, worker, attempt) then
      WithAttempt(t, t.attempts[attempt].(status := StepFailed, output := Null, error := error))
    else t
  }

  // ---- the transition system ----

  function Apply(t: Tables, op: Op): Tables {
    match op
    case CreateRun(_, _, _, _, _, _, _) => AfterCreateRun(t, op)
    case Claim(worker, lease, pick) => AfterClaim(t, worker, lease, pick)
    case Extend(run, worker, lease) => AfterExtend(t, run, worker, lease)
    case Park(run, worker, at) => AfterPark(t, run, worker, at)
    case Complete(run, worker, output) => AfterComplete(t, run, worker, output)
    case FailRun(run, worker, error, policy, attempts, deadlineAt) =>
      AfterFailRun(t, run, worker, FailedUpdate(policy, attempts, deadlineAt, error, t.now))
    case Reschedule(run, worker, at, error) => AfterReschedule(t, run, worker, at, error)
    case Cancel(run) => AfterCancel(t, run)
    case Wake(child) => AfterWake(t, child)
    case Forget(child) => t.(owed := t.owed - {child})
    case Send(signal, key, data) => AfterSend(t, signal, key, data)
    case CreateAttempt(_, _, _, _, _) => AfterCreateAttempt(t, op)
    case Link(run, worker, attempt, child) => AfterLink(t, run, worker, attempt, child)
    case CompleteAttempt(run, worker, attempt, output) => AfterCompleteAttempt(t, run, worker, attempt, output)
    case FailAttempt(run, worker, attempt, error) => AfterFailAttempt(t, run, worker, attempt, error)
    case Elapse(ms) => t.(now := t.now + ms)
  }

  /** The children whose wake has died with the call that owed it, and the one that dies now. */
  function LostBy(op: Op, lost: set<Id>): set<Id> {
    if op.Forget? then lost + {op.child} else lost
  }

  const NAMESPACE := "default"

  /** The key under which a workflow step creates its child run. */
  function ChildKey(attempt: Id): string {
    "__workflow:" + NAMESPACE + ":" + attempt
  }

  lemma ChildKeyIsOneToOne(a: Id, b: Id)
    requires ChildKey(a) == ChildKey(b)
    ensures a == b
  {
    var n := |"__workflow:" + NAMESPACE + ":"|;
    assert ChildKey(a)[n..] == a;
    assert ChildKey(b)[n..] == b;
  }

  /** Children are created by their step, under its key and without a deadline; no other caller uses such a key. */
  predicate ProperParent(t: Tables, op: Op)
    requires op.CreateRun?
  {
    match op.parent
    case Some(a) => a in t.attempts && op.key == Some(ChildKey(a)) && op.deadlineAt.None?
    case None => op.key.Some? ==> !("__workflow:" <= op.key.value)
  }

  /** What generated ids, the query planner, foreign keys and the worker's own arguments guarantee. */
  predicate Allowed(t: Tables, op: Op) {
    match op
    case CreateRun(id, _, _, _, _, _, _) => id !in t.runs && ProperParent(t, op)
    case Claim(_, lease, pick) =>
      lease > 0 && if pick.Some? then FirstDue(Expired(t.runs, t.now), t.now, pick.value) else NothingDue(t)
    case Extend(_, _, lease) => lease > 0
    case CreateAttempt(id, run, _, _, _) => id !in t.attempts && run in t.runs
    case Link(_, _, attempt, child) => child in t.runs && t.runs[child].key == Some(ChildKey(attempt))
    case _ => true
  }

  ghost predicate AllAllowed(t: Tables, ops: seq<Op>)
    decreases |ops|
  {
    ops == [] || (Allowed(t, ops[0]) && AllAllowed(Apply(t, ops[0]), ops[1..]))
  }

  ghost function ApplyAll(t: Tables, ops: seq<Op>): Tables
    decreases |ops|
  {
    if ops == [] then t else ApplyAll(Apply(t, ops[0]), ops[1..])
  }
}
