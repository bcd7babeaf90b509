/** How long a run is held, parked or queued: what a lease or a waiting time promises over every later operation. */
module Leases {
  import opened Graphs
  import opened Workflows
  import opened Retry
  import opened Store
  import opened Lifecycle

  // ---- the owner's time ----

  /** Nobody takes the run away, and its owner does not cut its own lease short of the time. */
  ghost predicate HoldsOn(t: Tables, ops: seq<Op>, id: Id, worker: Id, until: Time)
    decreases |ops|
  {
    || ops == []
    || (id in t.runs && !MayTake(t, ops[0], id, worker) && !CutsShort(t, ops[0], id, worker, until)
        && HoldsOn(Apply(t, ops[0]), ops[1..], id, worker, until))
  }

  predicate CutsShort(t: Tables, op: Op, id: Id, worker: Id, until: Time) {
    op.Extend? && op.run == id && op.worker == worker && t.now + op.lease < until
  }

  ghost predicate HeldTo(t: Tables, id: Id, worker: Id, until: Time) {
    Owned(t, id, worker) && t.runs[id].availableAt.Some? && t.runs[id].availableAt.value >= until
  }

  lemma OpHolds(t: Tables, op: Op, id: Id, worker: Id, until: Time)
    requires RunsOk(t) && Allowed(t, op) && HeldTo(t, id, worker, until) && t.now < until
    requires !MayTake(t, op, id, worker) && !CutsShort(t, op, id, worker, until)
    ensures HeldTo(Apply(t, op), id, worker, until)
  {
    LeaseIsHeld(t, op, id, worker);
    if Apply(t, op).runs[id] != t.runs[id] {
      ChangesRow(t, op, id);
    }
  }

  /** Until the time, the run stays its owner's, whatever else is done. */
  lemma {:induction false} StaysHeld(t: Tables, ops: seq<Op>, id: Id, worker: Id, until: Time)
    requires RunsOk(t) && AllAllowed(t, ops) && HeldTo(t, id, worker, until) && HoldsOn(t, ops, id, worker, until)
    requires ApplyAll(t, ops).now < until
    ensures HeldTo(ApplyAll(t, ops), id, worker, until)
    decreases |ops|
  {
    if ops != [] {
      ClockRises(Apply(t, ops[0]), ops[1..]);
      OpMovesRuns(t, ops[0]);
      OpHolds(t, ops[0], id, worker, until);
      StaysHeld(Apply(t, ops[0]), ops[1..], id, worker, until);
    }
  }

  // ---- what changes a row ----

  /** The operations that can change the row of a live run. */
  predicate Affects(t: Tables, op: Op, id: Id)
    requires id in t.runs
  {
    var r := t.runs[id];
    match op
    case Claim(_, _, pick) => pick == Some(id) || PastDeadline(r, t.now)
    case Extend(run, w, _) => run == id && r.worker == Some(w)
    case Park(run, w, _) => run == id && r.worker == Some(w)
    case Complete(run, w, _) => run == id && r.worker == Some(w)
    case FailRun(run, w, _, _, _, _) => run == id && r.worker == Some(w)
    case Reschedule(run, w, _, _) => run == id && r.worker == Some(w)
    case Cancel(run) => run == id
    case Wake(child) => r.status == Running && r.worker.None? && AwaitsChild(t, id, child)
    case Send(signal, _, _) => r.worker.None? && HasWaiter(t, id, signal)
    case _ => false
  }

  /** The child was created by a running step of the run, which waits for it. */
  predicate AwaitsChild(t: Tables, id: Id, child: Id) {
    && child in t.runs && t.runs[child].parent.Some? && t.runs[child].parent.value in t.attempts
    && var a := t.attempts[t.runs[child].parent.value];
       a.run == id && a.kind == WorkflowStep && a.status == StepRunning && a.child == Some(child)
  }

  /** The run has a running wait on the signal without an answer. */
  predicate HasWaiter(t: Tables, id: Id, signal: string) {
    exists a :: a in t.attempts && t.attempts[a].run == id && a !in t.signals
      && t.attempts[a].kind == SignalWait && t.attempts[a].status == StepRunning
      && t.attempts[a].context.SignalUntil? && t.attempts[a].context.signal == signal
  }

  lemma ChangesRow(t: Tables, op: Op, id: Id)
    requires RunsOk(t) && Allowed(t, op) && id in t.runs && Live(t.runs[id]) && Apply(t, op).runs[id] != t.runs[id]
    ensures Affects(t, op, id)
  {
    if op.Send? {
      var a :| a in Takers(t, op.signal) && t.attempts[a].run == id;
      assert WaitsOn(t.attempts[a], op.signal);
    }
  }

  /** No operation can change the row, other than a claim that hands out the run. */
  ghost predicate LeftAlone(t: Tables, ops: seq<Op>, id: Id)
    decreases |ops|
  {
    || ops == []
    || (id in t.runs && (Affects(t, ops[0], id) ==> ops[0].Claim? && !PastDeadline(t.runs[id], t.now))
        && LeftAlone(Apply(t, ops[0]), ops[1..], id))
  }

  /** No claim hands out the run. */
  ghost predicate NotHandedOut(ops: seq<Op>, id: Id) {
    forall op :: op in ops && op.Claim? ==> op.pick != Some(id)
  }

  lemma {:induction false} StaysAsItIs(t: Tables, ops: seq<Op>, id: Id)
    requires RunsOk(t) && AllAllowed(t, ops) && id in t.runs && Live(t.runs[id])
    requires LeftAlone(t, ops, id) && NotHandedOut(ops, id)
    ensures
      var t' := ApplyAll(t, ops);
      id in t'.runs && t'.runs[id] == t.runs[id]
    decreases |ops|
  {
    if ops != [] {
      var t1 := Apply(t, ops[0]);
      assert ops[0] in ops;
      OpMovesRuns(t, ops[0]);
      if t1.runs[id] != t.runs[id] {
        ChangesRow(t, ops[0], id);
      }
      assert NotHandedOut(ops[1..], id);
      StaysAsItIs(t1, ops[1..], id);
    }
  }

  /** Before its time a run is not handed out. */
  lemma {:induction false} NobodyClaimsEarly(t: Tables, ops: seq<Op>, id: Id)
    requires RunsOk(t) && AllAllowed(t, ops) && id in t.runs && Live(t.runs[id]) && LeftAlone(t, ops, id)
    requires t.runs[id].availableAt.value > ApplyAll(t, ops).now
    ensures NotHandedOut(ops, id)
    decreases |ops|
  {
    if ops != [] {
      var t1 := Apply(t, ops[0]);
      ClockRises(t1, ops[1..]);
      OpMovesRuns(t, ops[0]);
      assert t.now <= t1.now;
      assert ops[0].Claim? ==> ops[0].pick != Some(id);
      if t1.runs[id] != t.runs[id] {
        ChangesRow(t, ops[0], id);
      }
      NobodyClaimsEarly(t1, ops[1..], id);
    }
  }

  predicate InDeadline(r: Run, now: Time) {
    r.deadlineAt.None? || now < r.deadlineAt.value
  }

  /**
    * A run that is due at a time, over every sequence of operations that leave it alone: before that time it is not
    * handed out and stays as it is; from then on, until it is handed out, a claim may take it, unless its deadline
    * has come.
    */
  ghost predicate DueFrom(t: Tables, ops: seq<Op>, id: Id, at: Time) {
    LeftAlone(t, ops, id) ==>
      var t' := ApplyAll(t, ops);
      && (t'.now < at ==> NotHandedOut(ops, id) && id in t'.runs && !Due(t'.runs[id], t'.now))
      && (NotHandedOut(ops, id) ==>
            && id in t'.runs && id in t.runs && t'.runs[id] == t.runs[id]
            && (t'.now >= at && InDeadline(t.runs[id], t'.now) ==> Due(t'.runs[id], t'.now)))
  }

  lemma TimeIsKept(t: Tables, ops: seq<Op>, id: Id, at: Time)
    requires RunsOk(t) && AllAllowed(t, ops) && id in t.runs && Live(t.runs[id]) && t.runs[id].availableAt == Some(at)
    ensures DueFrom(t, ops, id, at)
  {
    if LeftAlone(t, ops, id) {
      if ApplyAll(t, ops).now < at {
        NobodyClaimsEarly(t, ops, id);
      }
      if NotHandedOut(ops, id) {
        StaysAsItIs(t, ops, id);
      }
    }
  }

  // ---- what each operation promises ----

  /** The worker has the run until the time, and from then on another one may claim it. */
  ghost predicate Leased(t: Tables, ops: seq<Op>, id: Id, worker: Id, until: Time) {
    && Owned(t, id, worker)
    && (HoldsOn(t, ops, id, worker, until) && ApplyAll(t, ops).now < until ==> Owned(ApplyAll(t, ops), id, worker))
    && DueFrom(t, ops, id, until)
  }

  lemma LeaseLasts(t: Tables, ops: seq<Op>, id: Id, worker: Id, until: Time)
    requires RunsOk(t) && AllAllowed(t, ops) && Owned(t, id, worker) && t.runs[id].availableAt == Some(until)
    ensures Leased(t, ops, id, worker, until)
  {
    TimeIsKept(t, ops, id, until);
    if HoldsOn(t, ops, id, worker, until) && ApplyAll(t, ops).now < until {
      StaysHeld(t, ops, id, worker, until);
    }
  }

  lemma ExtendedTo(t: Tables, id: Id, worker: Id, lease: int)
    requires Owned(t, id, worker)
    ensures
      var t1 := Apply(t, Extend(id, worker, lease));
      Owned(t1, id, worker) && t1.runs[id].availableAt == Some(t.now + lease)
  {
  }

  lemma ClaimedTo(t: Tables, id: Id, worker: Id, lease: int)
    requires Allowed(t, Claim(worker, lease, Some(id)))
    ensures
      var t1 := Apply(t, Claim(worker, lease, Some(id)));
      Owned(t1, id, worker) && t1.runs[id].availableAt == Some(t.now + lease)
  {
  }

  /** A heartbeat that extends by a lease gives the owner its run for that long, and for no longer. */
  lemma ExtensionLasts(t: Tables, id: Id, worker: Id, lease: int, ops: seq<Op>)
    requires RunsOk(t) && Owned(t, id, worker) && lease > 0 && AllAllowed(Apply(t, Extend(id, worker, lease)), ops)
    ensures Leased(Apply(t, Extend(id, worker, lease)), ops, id, worker, t.now + lease)
  {
    OpMovesRuns(t, Extend(id, worker, lease));
    ExtendedTo(t, id, worker, lease);
    LeaseLasts(Apply(t, Extend(id, worker, lease)), ops, id, worker, t.now + lease);
  }

  /** So does a claim that hands out the run. */
  lemma ClaimLasts(t: Tables, id: Id, worker: Id, lease: int, ops: seq<Op>)
    requires RunsOk(t) && Allowed(t, Claim(worker, lease, Some(id)))
    requires AllAllowed(Apply(t, Claim(worker, lease, Some(id))), ops)
    ensures Leased(Apply(t, Claim(worker, lease, Some(id))), ops, id, worker, t.now + lease)
  {
    OpMovesRuns(t, Claim(worker, lease, Some(id)));
    ClaimedTo(t, id, worker, lease);
    LeaseLasts(Apply(t, Claim(worker, lease, Some(id))), ops, id, worker, t.now + lease);
  }

  /** Some running wait of the run has its answer: a row for its signal, or a child that has ended. */
  ghost predicate HasAnswer(t: Tables, run: Id) {
    exists a :: a in t.attempts && t.attempts[a].run == run && t.attempts[a].status == StepRunning
      && ((t.attempts[a].kind == SignalWait && a in t.signals)
          || (t.attempts[a].kind == WorkflowStep && t.attempts[a].child.Some? && t.attempts[a].child.value in t.runs
              && !Live(t.runs[t.attempts[a].child.value])))
  }

  lemma AnswerIsReady(t: Tables, run: Id)
    requires LinksById(t)
    ensures HasAnswer(t, run) <==> AnyReady(t, run)
  {
    if HasAnswer(t, run) {
      var a :| a in t.attempts && t.attempts[a].run == run && t.attempts[a].status == StepRunning
        && ((t.attempts[a].kind == SignalWait && a in t.signals)
            || (t.attempts[a].kind == WorkflowStep && t.attempts[a].child.Some? && t.attempts[a].child.value in t.runs
                && !Live(t.runs[t.attempts[a].child.value])));
      assert Ready(t, t.attempts[a]);
    }
    if AnyReady(t, run) {
      var a :| a in t.attempts && t.attempts[a].run == run && Ready(t, t.attempts[a]);
      assert t.attempts[a].id == a;
    }
  }

  /** Rows of attempts carry their own ids. */
  ghost predicate LinksById(t: Tables) {
    forall a :: a in t.attempts ==> t.attempts[a].id == a
  }

  /** A parked run is held by nobody, and sleeps until its time, or until now if a wait of it has its answer. */
  lemma ParkLasts(t: Tables, id: Id, worker: Id, at: Time, ops: seq<Op>)
    requires RunsOk(t) && LinksById(t) && Owned(t, id, worker) && AllAllowed(Apply(t, Park(id, worker, at)), ops)
    ensures
      var t1, until := Apply(t, Park(id, worker, at)), if HasAnswer(t, id) && at > t.now then t.now else at;
      id in t1.runs && t1.runs[id].status == Running && t1.runs[id].worker.None? && DueFrom(t1, ops, id, until)
  {
    var t1 := Apply(t, Park(id, worker, at));
    OpMovesRuns(t, Park(id, worker, at));
    AnswerIsReady(t, id);
    TimeIsKept(t1, ops, id, if HasAnswer(t, id) && at > t.now then t.now else at);
  }

  /** A new run waits in the queue until its start time, or is due at once. */
  lemma CreatedIsDue(t: Tables, op: Op, ops: seq<Op>)
    requires RunsOk(t) && op.CreateRun? && Allowed(t, op) && AllAllowed(Apply(t, op), ops)
    requires !exists id :: id in t.runs && t.runs[id].name == op.name && op.key.Some? && t.runs[id].key == op.key
                           && t.runs[id].createdAt >= t.now - IDEMPOTENCY_PERIOD
    ensures
      var t1 := Apply(t, op);
      && op.id in t1.runs && t1.runs[op.id].status == Pending && t1.runs[op.id].input == op.input
      && t1.runs[op.id].name == op.name && t1.runs[op.id].parent == op.parent
      && t1.runs[op.id].deadlineAt == op.deadlineAt
      && DueFrom(t1, ops, op.id, if op.startAt.Some? then op.startAt.value else t.now)
  {
    OpMovesRuns(t, op);
    TimeIsKept(Apply(t, op), ops, op.id, if op.startAt.Some? then op.startAt.value else t.now);
  }

  // ---- the queue ----

  /**
    * The run that a claim hands out has no due run before it: none that is pending while it is being resumed, and among
    * its own kind none that is due earlier, or as early and created before.
    */
  lemma QueueIsFair(t: Tables, worker: Id, lease: int, pick: Id, other: Id)
    requires RunsOk(t) && Allowed(t, Claim(worker, lease, Some(pick))) && pick in t.runs && other in t.runs
    requires Due(t.runs[other], t.now)
    ensures
      var p, o := t.runs[pick], t.runs[other];
      && Due(p, t.now)
      && (o.status == Pending ==> p.status == Pending)
      && (o.status == p.status ==>
            || p.availableAt.value < o.availableAt.value
            || (p.availableAt == o.availableAt && p.createdAt <= o.createdAt))
  {
    var runs := Expired(t.runs, t.now);
    assert runs[pick] == Expire(t.runs[pick], t.now) && runs[other] == Expire(t.runs[other], t.now);
  }

  // ---- how a run ends ----

  /** The operation that ended the run, in the state in which it did, and what it left in the row. */
  ghost predicate Ended(t: Tables, op: Op, id: Id, r: Run)
    requires id in t.runs
  {
    && r.finishedAt == Some(t.now) && r.availableAt.None?
    && match r.status
       case Completed =>
         op.Complete? && op.run == id && Owned(t, id, op.worker) && r.output == op.output && r.error == Null
       case Canceled => op.Cancel? && op.run == id && r.worker.None? && r.error == t.runs[id].error
       case Failed =>
         && r.worker.None?
         && if op.Claim? then
              t.runs[id].deadlineAt.Some? && t.runs[id].deadlineAt.value <= t.now && r.error == DEADLINE_EXCEEDED
            else
              && op.FailRun? && op.run == id && Owned(t, id, op.worker)
              && r.error == if op.deadlineAt.Some? && op.deadlineAt.value <= t.now then DEADLINE_EXCEEDED else op.error
       case _ => false
  }

  lemma OpEnds(t: Tables, op: Op, id: Id)
    requires RunsOk(t) && Allowed(t, op) && id in t.runs && Live(t.runs[id]) && !Live(Apply(t, op).runs[id])
    ensures Ended(t, op, id, Apply(t, op).runs[id])
  {
    match op
    case Claim(worker, lease, pick) => ClaimEnds(t, op, id);
    case FailRun(_, _, _, _, _, _) => FailureEnds(t, op, id);
    case Send(_, _, _) =>
    case _ =>
  }

  lemma ClaimEnds(t: Tables, op: Op, id: Id)
    requires RunsOk(t) && op.Claim? && Allowed(t, op) && id in t.runs && Live(t.runs[id])
    requires !Live(Apply(t, op).runs[id])
    ensures Ended(t, op, id, Apply(t, op).runs[id])
  {
  }

  lemma FailureEnds(t: Tables, op: Op, id: Id)
    requires op.FailRun? && id in t.runs && Live(t.runs[id]) && !Live(Apply(t, op).runs[id])
    ensures Ended(t, op, id, Apply(t, op).runs[id])
  {
  }

  /**
    * A run that has ended was ended by one operation: completed or failed by its owner, with that result or error,
    * canceled, or failed by a claim after its deadline; it has stayed as that operation left it.
    */
  lemma {:induction false} EndIsExplained(t: Tables, ops: seq<Op>, id: Id) returns (k: nat)
    requires RunsOk(t) && AllAllowed(t, ops) && id in t.runs && Live(t.runs[id])
    requires id in ApplyAll(t, ops).runs && !Live(ApplyAll(t, ops).runs[id])
    ensures k < |ops| && AllAllowed(t, ops[..k]) && id in ApplyAll(t, ops[..k]).runs
    ensures Live(ApplyAll(t, ops[..k]).runs[id]) && Ended(ApplyAll(t, ops[..k]), ops[k], id, ApplyAll(t, ops).runs[id])
    decreases |ops|
  {
    var t1 := Apply(t, ops[0]);
    OpMovesRuns(t, ops[0]);
    if Live(t1.runs[id]) {
      k := EndIsExplained(t1, ops[1..], id);
      assert ops[..k + 1][0] == ops[0] && ops[..k + 1][1..] == ops[1..][..k];
      k := k + 1;
    } else {
      k := 0;
      OpEnds(t, ops[0], id);
      EndedStays(t1, ops[1..], id);
      assert ApplyAll(t, ops[..0]) == t;
    }
  }

  lemma {:induction false} EndedStays(t: Tables, ops: seq<Op>, id: Id)
    requires RunsOk(t) && AllAllowed(t, ops) && id in t.runs && !Live(t.runs[id])
    ensures
      var t' := ApplyAll(t, ops);
      id in t'.runs && t'.runs[id] == t.runs[id]
    decreases |ops|
  {
    if ops != [] {
      OpMovesRuns(t, ops[0]);
      EndedStays(Apply(t, ops[0]), ops[1..], id);
    }
  }
}
