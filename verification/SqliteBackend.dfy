/** The backend's methods, each refining one or two operations of the transition system (sqlite/backend.ts). */
module SqliteBackend {
  import opened Graphs
  import opened Workflows
  import opened Retry
  import opened Store
  import opened Lifecycle
  import opened Signals

  /** The rows inserted for a send are those of the transition system. */
  lemma SentSignals(t: Tables, signal: string, key: Option<string>, data: Value, signals: map<Id, Delivery>,
                    waiters: set<Id>, reached: set<Id>)
    requires !AlreadySent(t, signal, key) && waiters == set a | a in t.attempts && WaitsOn(t.attempts[a], signal)
    requires signals.Keys == t.signals.Keys + waiters
    requires forall a :: a in signals ==>
      signals[a] == if a in t.signals then t.signals[a] else Delivery(signal, data, key, t.attempts[a].run)
    requires forall r :: r in reached <==> exists a :: a in waiters && a !in t.signals && t.attempts[a].run == r
    ensures signals == AfterSend(t, signal, key, data).signals && reached == TakerRuns(t, signal)
  {
    assert Takers(t, signal) == waiters - t.signals.Keys;
  }

  lemma SentTables(t: Tables, signal: string, key: Option<string>, data: Value)
    requires !AlreadySent(t, signal, key)
    ensures Apply(t, Send(signal, key, data)) ==
      t.(signals := AfterSend(t, signal, key, data).signals, runs := Roused(t.runs, TakerRuns(t, signal), t.now))
  {
  }

  /** The rows with the unclaimed live runs among these made due. */
  function Roused(runs: map<Id, Run>, ids: set<Id>, now: Time): map<Id, Run> {
    map id | id in runs ::
      if id in ids && Live(runs[id]) && runs[id].worker.None? then Woken(runs[id], now) else runs[id]
  }

  class BackendSqlite {
    var runs: map<Id, Run>
    var attempts: map<Id, Attempt>
    var signals: map<Id, Delivery>
    /** Runs that finished and whose parent this or another process has yet to wake. */
    ghost var owed: set<Id>

    constructor ()
      ensures At(0) == Empty(0)
    {
      runs, attempts, signals, owed := map[], map[], map[], {};
    }

    /** The tables as an operation reads them that takes this as the current time. */
    ghost function At(now: Time): Tables
      reads this
    {
      Tables(now, runs, attempts, signals, owed)
    }

    predicate OwnsRun(run: Id, worker: Id)
      reads this
    {
      run in runs && runs[run].status == Running && runs[run].worker == Some(worker)
    }

    predicate OwnsAttempt(run: Id, worker: Id, attempt: Id)
      reads this
    {
      && attempt in attempts && attempts[attempt].run == run && attempts[attempt].status == StepRunning
      && OwnsRun(run, worker)
    }

    // ---- creating and claiming ----

    method CreateWorkflowRun(now: Time, id: Id, name: string, key: Option<string>, input: Value, parent: Option<Id>,
                             startAt: Option<Time>, deadlineAt: Option<Time>)
      returns (run: Id)
      requires id !in runs
      modifies this`runs
      ensures At(now) == Apply(old(At(now)), CreateRun(id, name, key, input, parent, startAt, deadlineAt))
      ensures key.Some? ==> Matches(At(now), run, name, key.value)
      ensures run == id || Matches(old(At(now)), run, name, key.GetOr(""))
    {
      if key.Some? {
        var since := now - IDEMPOTENCY_PERIOD;
        if i :| i in runs && runs[i].name == name && runs[i].key == key && runs[i].createdAt >= since {
          assert Matches(At(now), i, name, key.value);
          return i;
        }
      }
      runs := runs[id := Run(name, key, input, Pending, 0, parent, None, Some(startAt.GetOr(now)), deadlineAt, None,
                             None, now, Null, Null)];
      run := id;
    }

    /** Fails the runs past their deadline, then hands the first due run to the worker. */
    method ClaimWorkflowRun(now: Time, worker: Id, lease: int) returns (claimed: Option<Id>)
      requires lease > 0
      modifies this`runs
      ensures Allowed(old(At(now)), Claim(worker, lease, claimed))
      ensures At(now) == Apply(old(At(now)), Claim(worker, lease, claimed))
    {
      ghost var before := At(now);
      runs := map id | id in runs :: Expire(runs[id], now);
      assert runs == Expired(before.runs, now);
      claimed := FindDueRun(now);
      if claimed.None? {
        forall id | id in before.runs
          ensures !Due(Expire(before.runs[id], now), now)
        {
          assert runs[id] == Expire(before.runs[id], now);
        }
        return;
      }
      var r := runs[claimed.value];
      runs := runs[claimed.value := r.(status := Running, attempts := r.attempts + 1, worker := Some(worker),
                                       availableAt := Some(now + lease),
                                       startedAt := if r.startedAt.None? then Some(now) else r.startedAt)];
    }

    /** The first due run in the order of the queue. */
    method FindDueRun(now: Time) returns (pick: Option<Id>)
      ensures pick.Some? ==> FirstDue(runs, now, pick.value)
      ensures pick.None? ==> forall id :: id in runs ==> !Due(runs[id], now)
    {
      var due := set id | id in runs && Due(runs[id], now);
      if due == {} {
        forall id | id in runs
          ensures !Due(runs[id], now)
        {
          assert id !in due;
        }
        return None;
      }
      ghost var first := SomeFirstDue(runs, now, due);
      var id :| id in due && forall other :: other in due ==> Due(runs[other], now) && NoLater(runs[id], runs[other]);
      pick := Some(id);
    }

    method ExtendWorkflowRunLease(now: Time, run: Id, worker: Id, lease: int) returns (ok: bool)
      modifies this`runs
      ensures ok == old(OwnsRun(run, worker))
      ensures At(now) == Apply(old(At(now)), Extend(run, worker, lease))
    {
      ok := OwnsRun(run, worker);
      if ok {
        runs := runs[run := runs[run].(availableAt := Some(now + lease))];
      }
    }

    // ---- transitions of a run ----

    predicate ChildEnded(run: Id, a: Id)
      reads this
    {
      && a in attempts && attempts[a].run == run && attempts[a].kind == WorkflowStep
      && attempts[a].status == StepRunning
      && attempts[a].child.Some? && attempts[a].child.value in runs && Terminal(runs[attempts[a].child.value].status)
    }

    predicate SignalArrived(run: Id, a: Id)
      reads this
    {
      && a in attempts && attempts[a].run == run && attempts[a].kind == SignalWait && attempts[a].status == StepRunning
      && a in signals
    }

    /** Whether a running wait of the run has its answer. */
    predicate AnyWaitAnswered(run: Id)
      reads this
    {
      (exists a :: a in attempts && ChildEnded(run, a)) || (exists a :: a in attempts && SignalArrived(run, a))
    }

    method SleepWorkflowRun(now: Time, run: Id, worker: Id, at: Time) returns (ok: bool)
      requires forall a :: a in attempts ==> attempts[a].id == a
      modifies this`runs
      ensures ok == old(CanPark(At(now), run, worker))
      ensures At(now) == Apply(old(At(now)), Park(run, worker, at))
    {
      ok := run in runs && !Terminal(runs[run].status) && runs[run].worker == Some(worker);
      if ok {
        assert AnyWaitAnswered(run) <==> AnyReady(At(now), run) by {
          AnsweredIsReady(now, run);
        }
        var resumeAt := if AnyWaitAnswered(run) && at > now then now else at;
        runs := runs[run := runs[run].(status := Running, availableAt := Some(resumeAt), worker := None)];
      }
    }

    lemma AnsweredIsReady(now: Time, run: Id)
      requires forall a :: a in attempts ==> attempts[a].id == a
      ensures AnyWaitAnswered(run) <==> AnyReady(At(now), run)
    {
    }

    /** Completes the run, then wakes its parent in a second statement, at a time read anew. */
    method CompleteWorkflowRun(now: Time, later: Time, run: Id, worker: Id, output: Value) returns (ok: bool)
      modifies this
      ensures ok == old(OwnsRun(run, worker))
      ensures !ok ==> At(now) == old(At(now))
      ensures ok ==> At(later) == Apply(Apply(old(At(now)), Complete(run, worker, output)).(now := later), Wake(run))
    {
      ok := OwnsRun(run, worker);
      if ok {
        Owe(run);
        runs := runs[run := runs[run].(status := Completed, output := output, error := Null, availableAt := None,
                                       finishedAt := Some(now))];
        WakeParentWorkflowRun(later, run);
      }
    }

    ghost method Owe(run: Id)
      requires run in runs
      modifies this`owed
      ensures owed == if runs[run].parent.Some? then old(owed) + {run} else old(owed)
    {
      if runs[run].parent.Some? {
        owed := owed + {run};
      }
    }

    method FailWorkflowRun(now: Time, later: Time, run: Id, worker: Id, error: Value, policy: Policy, tries: int,
                           deadlineAt: Option<Time>)
      returns (ok: bool)
      modifies this
      ensures ok == old(OwnsRun(run, worker))
      ensures !ok ==> At(now) == old(At(now))
      ensures ok ==>
        var t := Apply(old(At(now)), FailRun(run, worker, error, policy, tries, deadlineAt)).(now := later);
        At(later) == if FailedUpdate(policy, tries, deadlineAt, error, now).GiveUp? then Apply(t, Wake(run)) else t
    {
      ok := OwnsRun(run, worker);
      if ok {
        match FailedUpdate(policy, tries, deadlineAt, error, now) {
          case GiveUp(e) =>
            Owe(run);
            runs := runs[run := runs[run].(status := Failed, availableAt := None, finishedAt := Some(now), error := e,
                                           worker := None, startedAt := None)];
            WakeParentWorkflowRun(later, run);
          case Again(at, e) =>
            runs := runs[run := runs[run].(status := Pending, availableAt := Some(at), finishedAt := None, error := e,
                                           worker := None, startedAt := None)];
        }
      }
    }

    method RescheduleWorkflowRunAfterFailedStepAttempt(now: Time, run: Id, worker: Id, at: Time, error: Value)
      returns (ok: bool)
      modifies this`runs
      ensures ok == old(OwnsRun(run, worker))
      ensures At(now) == Apply(old(At(now)), Reschedule(run, worker, at, error))
    {
      ok := OwnsRun(run, worker);
      if ok {
        runs := runs[run := runs[run].(status := Pending, availableAt := Some(at), finishedAt := None, error := error,
                                       worker := None, startedAt := None)];
      }
    }

    /** Cancels a live run; cancelling a canceled run again is accepted and changes nothing. */
    method CancelWorkflowRun(now: Time, later: Time, run: Id) returns (ok: bool)
      modifies this
      ensures ok == old(run in runs && (Live(runs[run]) || runs[run].status == Canceled))
      ensures old(run in runs && Live(runs[run])) ==>
        At(later) == Apply(Apply(old(At(now)), Cancel(run)).(now := later), Wake(run))
      ensures !old(run in runs && Live(runs[run])) ==> At(now) == old(At(now))
    {
      if run in runs && Live(runs[run]) {
        Owe(run);
        runs := runs[run := runs[run].(status := Canceled, worker := None, availableAt := None,
                                       finishedAt := Some(now))];
        WakeParentWorkflowRun(later, run);
        return true;
      }
      ok := run in runs && runs[run].status == Canceled;
    }

    /** The parent is the run of the running step that names this child; only a parked parent is woken. */
    method WakeParentWorkflowRun(now: Time, child: Id)
      requires child in runs
      modifies this
      ensures At(now) == Apply(old(At(now)), Wake(child))
    {
      ghost var before := At(now);
      owed := owed - {child};
      var parent := runs[child].parent;
      if parent.Some? && parent.value in attempts {
        var a := attempts[parent.value];
        var waits := a.kind == WorkflowStep && a.status == StepRunning && a.child == Some(child);
        if waits && a.run in runs && Parked(runs[a.run]) {
          runs := runs[a.run := Woken(runs[a.run], now)];
        }
      }
      assert runs == AfterWake(before, child).runs;
    }

    // ---- signals ----

    method SendSignal(now: Time, signal: string, key: Option<string>, data: Value) returns (reached: set<Id>)
      modifies this`runs, this`signals
      ensures At(now) == Apply(old(At(now)), Send(signal, key, data))
      ensures reached == Reached(old(At(now)), signal, key)
    {
      ghost var before := At(now);
      var sent, earlier := EarlierSend(now, signal, key);
      if sent {
        return earlier;
      }
      var waiters := set a | a in attempts && WaitsOn(attempts[a], signal);
      reached := InsertSignals(signal, key, data, waiters);
      SentSignals(before, signal, key, data, signals, waiters, reached);
      SentTables(before, signal, key, data);
      WakeRuns(now, reached);
    }

    method EarlierSend(ghost now: Time, signal: string, key: Option<string>) returns (sent: bool, reached: set<Id>)
      ensures sent == AlreadySent(At(now), signal, key)
      ensures sent ==> reached == Recipients(At(now), signal, key.value)
    {
      sent, reached := false, {};
      if key.Some? {
        var rows := set a | a in signals && Sent(signals[a], signal, key.value);
        if a :| a in rows {
          return true, set a | a in rows :: signals[a].run;
        }
        forall a | a in signals
          ensures !Sent(signals[a], signal, key.value)
        {
          assert a !in rows;
        }
      }
    }

    /** Makes the unclaimed live runs among these due. */
    method WakeRuns(now: Time, ids: set<Id>)
      modifies this`runs
      ensures runs == Roused(old(runs), ids, now)
    {
      var rest := ids;
      ghost var before := runs;
      while rest != {}
        invariant rest <= ids && runs.Keys == before.Keys
        invariant forall id :: id in before ==>
          runs[id]
          == if id in ids && id !in rest && Live(before[id]) && before[id].worker.None? then Woken(before[id], now)
             else before[id]
        decreases rest
      {
        var id :| id in rest;
        rest := rest - {id};
        if id in runs && Live(runs[id]) && runs[id].worker.None? {
          runs := runs[id := Woken(runs[id], now)];
        }
      }
    }

    /** Inserts a row for each waiter that has none, and tells whose runs got one. */
    method InsertSignals(signal: string, key: Option<string>, data: Value, waiters: set<Id>) returns (reached: set<Id>)
      requires waiters <= attempts.Keys
      modifies this`signals
      ensures signals.Keys == old(signals).Keys + waiters
      ensures forall a :: a in signals ==>
        signals[a] == if a in old(signals) then old(signals)[a] else Delivery(signal, data, key, attempts[a].run)
      ensures forall r :: r in reached <==> exists a :: a in waiters && a !in old(signals) && attempts[a].run == r
    {
      reached := {};
      var rest := waiters;
      ghost var before := signals;
      while rest != {}
        invariant rest <= waiters && signals.Keys == before.Keys + (waiters - rest)
        invariant forall a ::
          a in signals ==> signals[a] == if a in before then before[a] else Delivery(signal, data, key, attempts[a].run)
        invariant forall r ::
          r in reached <==> exists a :: a in waiters && a !in rest && a !in before && attempts[a].run == r
        decreases rest
      {
        var w :| w in rest;
        rest := rest - {w};
        if w !in signals {
          signals := signals[w := Delivery(signal, data, key, attempts[w].run)];
          reached := reached + {attempts[w].run};
        }
      }
    }

    function GetSignalDelivery(attempt: Id): Option<Value>
      reads this
    {
      if attempt in signals then Some(signals[attempt].data) else None
    }

    // ---- step attempts ----

    /** The insert does not look at who owns the run. */
    method CreateStepAttempt(now: Time, id: Id, run: Id, step: string, kind: StepKind, context: StepContext)
      returns (a: Attempt)
      requires id !in attempts
      modifies this`attempts
      ensures At(now) == Apply(old(At(now)), CreateAttempt(id, run, step, kind, context)) && attempts[id] == a
    {
      a := Attempt(id, run, step, kind, StepRunning, context, None, now, Null, Null);
      attempts := attempts[id := a];
    }

    method SetStepAttemptChildWorkflowRun(now: Time, run: Id, worker: Id, attempt: Id, child: Id) returns (ok: bool)
      requires forall a :: a in attempts ==> attempts[a].id == a
      modifies this`attempts
      ensures ok == old(OwnsAttempt(run, worker, attempt))
      ensures At(now) == Apply(old(At(now)), Link(run, worker, attempt, child))
    {
      ok := OwnsAttempt(run, worker, attempt);
      if ok {
        attempts := attempts[attempt := attempts[attempt].(child := Some(child))];
      }
    }

    method CompleteStepAttempt(now: Time, run: Id, worker: Id, attempt: Id, output: Value) returns (ok: bool)
      requires forall a :: a in attempts ==> attempts[a].id == a
      modifies this`attempts
      ensures ok == old(OwnsAttempt(run, worker, attempt))
      ensures At(now) == Apply(old(At(now)), CompleteAttempt(run, worker, attempt, output))
    {
      ok := OwnsAttempt(run, worker, attempt);
      if ok {
        attempts := attempts[attempt := attempts[attempt].(status := StepCompleted, output := output, error := Null)];
      }
    }

    method FailStepAttempt(now: Time, run: Id, worker: Id, attempt: Id, error: Value) returns (ok: bool)
      requires forall a :: a in attempts ==> attempts[a].id == a
      modifies this`attempts
      ensures ok == old(OwnsAttempt(run, worker, attempt))
      ensures At(now) == Apply(old(At(now)), FailAttempt(run, worker, attempt, error))
    {
      ok := OwnsAttempt(run, worker, attempt);
      if ok {
        attempts := attempts[attempt := attempts[attempt].(status := StepFailed, output := Null, error := error)];
      }
    }
  }
}
