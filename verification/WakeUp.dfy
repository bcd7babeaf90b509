/**
  * No lost wake-up: a parked run whose answer has arrived is due, or the call that finished its child has yet to wake
  * it.
  */
module WakeUp {
  import opened Graphs
  import opened Workflows
  import opened Retry
  import opened Store
  import opened Lifecycle

  // ---- children ----

  /** Who a run's parent is shows in its key; children have no deadline. */
  predicate ParentOk(r: Run, attempts: map<Id, Attempt>) {
    && (r.parent.Some? ==> r.parent.value in attempts && r.key == Some(ChildKey(r.parent.value)) && r.deadlineAt.None?)
    && (r.parent.None? && r.key.Some? ==> !("__workflow:" <= r.key.value))
  }

  ghost predicate ParentsOk(t: Tables) {
    forall id :: id in t.runs ==> ParentOk(t.runs[id], t.attempts)
  }

  /** A linked child was created for this very attempt. */
  predicate LinkOk(id: Id, a: Attempt, runs: map<Id, Run>) {
    && a.id == id && a.run in runs
    && (a.child.Some? ==> a.child.value in runs && runs[a.child.value].parent == Some(id))
  }

  ghost predicate LinksOk(t: Tables) {
    forall id :: id in t.attempts ==> LinkOk(id, t.attempts[id], t.runs)
  }

  /** A child created under an attempt's key is that attempt's. */
  lemma KeyTellsParent(t: Tables, child: Id, attempt: Id)
    requires ParentsOk(t) && child in t.runs && t.runs[child].key == Some(ChildKey(attempt))
    ensures t.runs[child].parent == Some(attempt)
  {
    assert ParentOk(t.runs[child], t.attempts);
    assert "__workflow:" <= ChildKey(attempt);
    if t.runs[child].parent.Some? {
      ChildKeyIsOneToOne(t.runs[child].parent.value, attempt);
    }
  }

  /** What one operation does to one attempt: it keeps its place, and once it has ended it stays as it is. */
  predicate AttemptMoves(a: Attempt, a': Attempt) {
    && a'.id == a.id && a'.run == a.run && a'.step == a.step && a'.kind == a.kind && a'.context == a.context
    && a'.createdAt == a.createdAt
    && (a.status != StepRunning ==> a' == a)
  }

  ghost predicate AttemptsMove(t: Tables, t': Tables) {
    forall id :: id in t.attempts ==> id in t'.attempts && AttemptMoves(t.attempts[id], t'.attempts[id])
  }

  /** Attempts are never removed, and a completed or failed one never changes again. */
  lemma OpMovesAttempts(t: Tables, op: Op)
    requires LinksOk(t) && Allowed(t, op)
    ensures AttemptsMove(t, Apply(t, op))
  {
  }

  lemma OpKeepsParents(t: Tables, op: Op)
    requires RunsOk(t) && ParentsOk(t) && LinksOk(t) && Allowed(t, op)
    ensures ParentsOk(Apply(t, op))
  {
    OpMovesRuns(t, op);
    OpMovesAttempts(t, op);
    OnlyCreateAddsRuns(t, op);
  }

  lemma MovingRunsKeepsLinks(t: Tables, t': Tables)
    requires LinksOk(t) && RunsMove(t, t') && t'.attempts == t.attempts
    ensures LinksOk(t')
  {
  }

  lemma AttemptKeepsLinks(t: Tables, a: Attempt)
    requires LinksOk(t) && LinkOk(a.id, a, t.runs)
    ensures LinksOk(WithAttempt(t, a))
  {
  }

  predicate ChangesAttempts(op: Op) {
    op.CreateAttempt? || op.Link? || op.CompleteAttempt? || op.FailAttempt?
  }

  lemma AttemptOpKeepsLinks(t: Tables, op: Op)
    requires ParentsOk(t) && LinksOk(t) && Allowed(t, op) && ChangesAttempts(op)
    ensures LinksOk(Apply(t, op))
  {
    if Apply(t, op) != t {
      var id := if op.CreateAttempt? then op.id else op.attempt;
      if op.Link? {
        KeyTellsParent(t, op.child, id);
      }
      AttemptKeepsLinks(t, Apply(t, op).attempts[id]);
    }
  }

  lemma OpKeepsLinks(t: Tables, op: Op)
    requires RunsOk(t) && ParentsOk(t) && LinksOk(t) && Allowed(t, op)
    ensures LinksOk(Apply(t, op))
  {
    if ChangesAttempts(op) {
      AttemptOpKeepsLinks(t, op);
    } else {
      OtherOpsKeepAttempts(t, op);
      OpMovesRuns(t, op);
      MovingRunsKeepsLinks(t, Apply(t, op));
    }
  }

  lemma OtherOpsKeepAttempts(t: Tables, op: Op)
    requires !ChangesAttempts(op)
    ensures Apply(t, op).attempts == t.attempts
  {
  }

  // ---- the wake-up invariant ----

  /** Signals are delivered to existing attempts. */
  ghost predicate SignalsOk(t: Tables) {
    t.signals.Keys <= t.attempts.Keys
  }

  lemma OpKeepsSignals(t: Tables, op: Op)
    requires SignalsOk(t)
    ensures SignalsOk(Apply(t, op))
  {
  }

  predicate DueNow(r: Run, now: Time) {
    r.availableAt.Some? && r.availableAt.value <= now
  }

  predicate WaitsForOne(a: Attempt, children: set<Id>) {
    a.kind == WorkflowStep && a.child.Some? && a.child.value in children
  }

  /** The finishing call of the child that the attempt waits for has yet to run its wake. */
  predicate OwedTo(t: Tables, a: Attempt) {
    WaitsForOne(a, t.owed)
  }

  predicate Waiting(t: Tables, id: Id)
    requires id in t.attempts
  {
    Ready(t, t.attempts[id]) && t.attempts[id].run in t.runs && Parked(t.runs[t.attempts[id].run])
  }

  predicate Answered(t: Tables, id: Id, lost: set<Id>)
    requires id in t.attempts && t.attempts[id].run in t.runs
  {
    DueNow(t.runs[t.attempts[id].run], t.now) || OwedTo(t, t.attempts[id]) || WaitsForOne(t.attempts[id], lost)
  }

  /**
    * Every parked run with an answered wait is due, or its wake is still owed, or it was lost with the call that owed
    * it.
    */
  ghost predicate NoLostWake(t: Tables, lost: set<Id>) {
    forall id :: id in t.attempts && Waiting(t, id) ==> Answered(t, id, lost)
  }

  ghost predicate Consistent(t: Tables) {
    RunsOk(t) && ParentsOk(t) && LinksOk(t) && SignalsOk(t)
  }

  lemma OpKeepsConsistent(t: Tables, op: Op)
    requires Consistent(t) && Allowed(t, op)
    ensures Consistent(Apply(t, op))
  {
    OpMovesRuns(t, op);
    OpKeepsParents(t, op);
    OpKeepsLinks(t, op);
    OpKeepsSignals(t, op);
  }

  /** Deadline expiry wakes nobody; it need not, because children have no deadline. */
  lemma ClaimKeepsWake(t: Tables, worker: Id, lease: int, pick: Option<Id>, lost: set<Id>)
    requires Consistent(t) && NoLostWake(t, lost)
    ensures NoLostWake(AfterClaim(t, worker, lease, pick), lost)
  {
  }

  lemma ParkKeepsWake(t: Tables, run: Id, worker: Id, at: Time, lost: set<Id>)
    requires Consistent(t) && NoLostWake(t, lost)
    ensures NoLostWake(AfterPark(t, run, worker, at), lost)
  {
  }

  /** A run that ends owes a wake to every attempt that waits for it. */
  lemma EndingKeepsWake(t: Tables, run: Id, r: Run, lost: set<Id>)
    requires Consistent(t) && NoLostWake(t, lost) && run in t.runs && Terminal(r.status)
    requires r.parent == t.runs[run].parent
    ensures NoLostWake(Owing(WithRun(t, run, r), run), lost)
  {
  }

  /** A live run that moves to another live state and is not parked. */
  lemma MovingKeepsWake(t: Tables, run: Id, r: Run, lost: set<Id>)
    requires NoLostWake(t, lost) && run in t.runs && Live(r) && !Parked(r)
    ensures NoLostWake(WithRun(t, run, r), lost)
  {
  }

  lemma WakeKeepsWake(t: Tables, child: Id, lost: set<Id>)
    requires Consistent(t) && NoLostWake(t, lost)
    ensures NoLostWake(AfterWake(t, child), lost)
  {
  }

  lemma TakerAnswered(t: Tables, signal: string, key: Option<string>, data: Value, id: Id, lost: set<Id>)
    requires !AlreadySent(t, signal, key) && id in Takers(t, signal)
    requires Waiting(AfterSend(t, signal, key, data), id)
    ensures Answered(AfterSend(t, signal, key, data), id, lost)
  {
  }

  lemma OtherAnswered(t: Tables, signal: string, key: Option<string>, data: Value, id: Id, lost: set<Id>)
    requires NoLostWake(t, lost) && !AlreadySent(t, signal, key) && id in t.attempts && id !in Takers(t, signal)
    requires t.attempts[id].id == id
    requires Waiting(AfterSend(t, signal, key, data), id)
    ensures Answered(AfterSend(t, signal, key, data), id, lost)
  {
  }

  lemma SendKeepsWake(t: Tables, signal: string, key: Option<string>, data: Value, lost: set<Id>)
    requires Consistent(t) && NoLostWake(t, lost)
    ensures NoLostWake(AfterSend(t, signal, key, data), lost)
  {
    var t' := AfterSend(t, signal, key, data);
    if !AlreadySent(t, signal, key) {
      forall id | id in t'.attempts && Waiting(t', id)
        ensures Answered(t', id, lost)
      {
        assert LinkOk(id, t.attempts[id], t.runs);
        if id in Takers(t, signal) {
          TakerAnswered(t, signal, key, data, id, lost);
        } else {
          OtherAnswered(t, signal, key, data, id, lost);
        }
      }
    }
  }

  lemma CreateRunKeepsWake(t: Tables, op: Op, lost: set<Id>)
    requires Consistent(t) && NoLostWake(t, lost) && op.CreateRun? && op.id !in t.runs
    ensures NoLostWake(AfterCreateRun(t, op), lost)
  {
  }

  lemma AttemptKeepsWake(t: Tables, a: Attempt, lost: set<Id>)
    requires Consistent(t) && NoLostWake(t, lost)
    requires
      || a.status != StepRunning
      || (a.child.None? && a.id !in t.signals)
      || (a.run in t.runs && !Parked(t.runs[a.run]))
    ensures NoLostWake(WithAttempt(t, a), lost)
  {
  }

  lemma ElapseKeepsWake(t: Tables, ms: nat, lost: set<Id>)
    requires NoLostWake(t, lost)
    ensures NoLostWake(Apply(t, Elapse(ms)), lost)
  {
  }

  lemma ForgetKeepsWake(t: Tables, child: Id, lost: set<Id>)
    requires NoLostWake(t, lost)
    ensures NoLostWake(Apply(t, Forget(child)), lost + {child})
  {
    var t' := Apply(t, Forget(child));
    forall id | id in t'.attempts && Waiting(t', id)
      ensures Answered(t', id, lost + {child})
    {
      assert Waiting(t, id) && Answered(t, id, lost);
    }
  }

  lemma OpKeepsWake(t: Tables, op: Op, lost: set<Id>)
    requires Consistent(t) && NoLostWake(t, lost) && Allowed(t, op)
    ensures NoLostWake(Apply(t, op), LostBy(op, lost))
  {
    match op
    case CreateRun(_, _, _, _, _, _, _) => CreateRunKeepsWake(t, op, lost);
    case Claim(worker, lease, pick) => ClaimKeepsWake(t, worker, lease, pick, lost);
    case Park(run, worker, at) => ParkKeepsWake(t, run, worker, at, lost);
    case Wake(child) => WakeKeepsWake(t, child, lost);
    case Send(signal, key, data) => SendKeepsWake(t, signal, key, data, lost);
    case Elapse(ms) => ElapseKeepsWake(t, ms, lost);
    case Forget(child) => ForgetKeepsWake(t, child, lost);
    case _ =>
      if ChangesAttempts(op) {
        AttemptOpKeepsWake(t, op, lost);
      } else {
        RunOpKeepsWake(t, op, lost);
      }
  }

  lemma MoveOpKeepsWake(t: Tables, op: Op, lost: set<Id>)
    requires Consistent(t) && NoLostWake(t, lost) && (op.Extend? || op.Reschedule?)
    ensures NoLostWake(Apply(t, op), lost)
  {
    if Apply(t, op) != t {
      MovingKeepsWake(t, op.run, Apply(t, op).runs[op.run], lost);
    }
  }

  lemma EndOpKeepsWake(t: Tables, op: Op, lost: set<Id>)
    requires Consistent(t) && NoLostWake(t, lost) && (op.Complete? || op.Cancel?)
    ensures NoLostWake(Apply(t, op), lost)
  {
    if Apply(t, op) != t {
      EndingKeepsWake(t, op.run, Apply(t, op).runs[op.run], lost);
    }
  }

  lemma FailOpKeepsWake(t: Tables, op: Op, lost: set<Id>)
    requires Consistent(t) && NoLostWake(t, lost) && op.FailRun?
    ensures NoLostWake(Apply(t, op), lost)
  {
    if Apply(t, op) != t {
      var r := Apply(t, op).runs[op.run];
      if Terminal(r.status) {
        EndingKeepsWake(t, op.run, r, lost);
      } else {
        MovingKeepsWake(t, op.run, r, lost);
      }
    }
  }

  lemma RunOpKeepsWake(t: Tables, op: Op, lost: set<Id>)
    requires Consistent(t) && NoLostWake(t, lost)
    requires op.Extend? || op.Complete? || op.FailRun? || op.Reschedule? || op.Cancel?
    ensures NoLostWake(Apply(t, op), lost)
  {
    if op.FailRun? {
      FailOpKeepsWake(t, op, lost);
    } else if op.Extend? || op.Reschedule? {
      MoveOpKeepsWake(t, op, lost);
    } else {
      EndOpKeepsWake(t, op, lost);
    }
  }

  lemma AttemptOpKeepsWake(t: Tables, op: Op, lost: set<Id>)
    requires Consistent(t) && NoLostWake(t, lost) && Allowed(t, op)
    requires ChangesAttempts(op)
    ensures NoLostWake(Apply(t, op), lost)
  {
    if Apply(t, op) != t {
      var id := if op.CreateAttempt? then op.id else op.attempt;
      AttemptKeepsWake(t, Apply(t, op).attempts[id], lost);
    }
  }

  // ---- what it means for the waiting run ----

  /**
    * A parked run whose answer has arrived, and whose child's wake is neither owed nor lost, can be claimed or is past
    * its deadline.
    */
  lemma AnsweredRunIsDue(t: Tables, id: Id, lost: set<Id>)
    requires Consistent(t) && NoLostWake(t, lost) && id in t.attempts && Waiting(t, id)
    requires !OwedTo(t, t.attempts[id]) && !WaitsForOne(t.attempts[id], lost)
    ensures Due(t.runs[t.attempts[id].run], t.now) || PastDeadline(t.runs[t.attempts[id].run], t.now)
  {
  }

  /** The children whose finishing call died before its wake. */
  ghost function Forgotten(ops: seq<Op>): set<Id> {
    if ops == [] then {} else LostBy(ops[0], Forgotten(ops[1..]))
  }

  /** Whatever allowed operations follow, a wake-up is lost only with the call that owed it. */
  lemma {:induction false} NoWakeIsEverLost(t: Tables, ops: seq<Op>, lost: set<Id>)
    requires Consistent(t) && NoLostWake(t, lost) && AllAllowed(t, ops)
    ensures Consistent(ApplyAll(t, ops)) && NoLostWake(ApplyAll(t, ops), lost + Forgotten(ops))
    decreases |ops|
  {
    if ops == [] {
      assert lost + Forgotten(ops) == lost;
    } else {
      OpKeepsConsistent(t, ops[0]);
      OpKeepsWake(t, ops[0], lost);
      NoWakeIsEverLost(Apply(t, ops[0]), ops[1..], LostBy(ops[0], lost));
      assert LostBy(ops[0], lost) + Forgotten(ops[1..]) == lost + Forgotten(ops);
    }
  }

  lemma EmptyIsConsistent(now: Time)
    ensures Consistent(Empty(now)) && NoLostWake(Empty(now), {})
  {
  }

  // ---- a call that dies between finishing and waking ----

  /** Losing the call that owes a wake does harm exactly when some run parked on this child is not due anyway. */
  lemma ForgettingIsHarmless(t: Tables, child: Id, lost: set<Id>)
    requires Consistent(t) && NoLostWake(t, lost) && child !in lost
    ensures NoLostWake(Apply(t, Forget(child)), lost) <==>
      forall id :: id in t.attempts && Waiting(t, id) && WaitsForOne(t.attempts[id], {child}) ==>
        DueNow(t.runs[t.attempts[id].run], t.now)
  {
    var t' := Apply(t, Forget(child));
    forall id | id in t.attempts
      ensures Waiting(t', id) <==> Waiting(t, id)
    {
    }
    if NoLostWake(t', lost) {
      forall id | id in t.attempts && Waiting(t, id) && WaitsForOne(t.attempts[id], {child})
        ensures DueNow(t.runs[t.attempts[id].run], t.now)
      {
        assert Answered(t', id, lost);
      }
    }
  }
}
