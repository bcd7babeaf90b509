/** The run state machine over every sequence of backend operations. */
module Lifecycle {
  import opened Graphs
  import opened Workflows
  import opened Retry
  import opened Store

  // ---- one row ----

  /** A run is terminal exactly when it has no available time, exactly when it has a finish time. */
  predicate RunOk(r: Run, now: Time) {
    && (Terminal(r.status) <==> r.availableAt.None?)
    && (Terminal(r.status) <==> r.finishedAt.Some?)
    && (r.finishedAt.Some? ==> r.createdAt <= r.finishedAt.value <= now)
    && (r.status == Pending ==> r.worker.None?)
    && (r.status == Running ==> r.attempts >= 1)
    && r.createdAt <= now
  }

  ghost predicate RunsOk(t: Tables) {
    forall id :: id in t.runs ==> RunOk(t.runs[id], t.now)
  }

  /** What no operation changes in a row; claims only add up. */
  predicate SameRun(r: Run, r': Run) {
    && r'.name == r.name && r'.key == r.key && r'.input == r.input && r'.parent == r.parent
    && r'.createdAt == r.createdAt && r'.deadlineAt == r.deadlineAt && r'.attempts >= r.attempts
  }

  /** One operation on one row: it stays the same run, and a run that ended stays as it is. */
  ghost predicate RunsMove(t: Tables, t': Tables) {
    && t.now <= t'.now
    && (forall id :: id in t.runs ==> id in t'.runs && SameRun(t.runs[id], t'.runs[id]))
    && (forall id :: id in t.runs && Terminal(t.runs[id].status) ==> t'.runs[id] == t.runs[id])
  }

  /** What one operation may do to one row. */
  ghost predicate RowMoves(r: Run, r': Run, now: Time) {
    && SameRun(r, r')
    && (Terminal(r.status) ==> r' == r)
    && RunOk(r', now)
  }

  ghost predicate RowsMove(t: Tables, t': Tables) {
    t.now <= t'.now && forall id :: id in t.runs ==> id in t'.runs && RowMoves(t.runs[id], t'.runs[id], t'.now)
  }

  lemma ExpireMoves(r: Run, now: Time)
    requires RunOk(r, now)
    ensures RowMoves(r, Expire(r, now), now)
  {
  }

  lemma ClaimedMoves(r: Run, worker: Id, lease: int, now: Time)
    requires RunOk(r, now) && Live(r)
    ensures RowMoves(r, Claimed(r, worker, lease, now), now)
  {
  }

  lemma ClaimMoves(t: Tables, worker: Id, lease: int, pick: Option<Id>)
    requires RunsOk(t) && Allowed(t, Claim(worker, lease, pick))
    ensures RowsMove(t, AfterClaim(t, worker, lease, pick))
  {
    forall id | id in t.runs
      ensures RowMoves(t.runs[id], AfterClaim(t, worker, lease, pick).runs[id], t.now)
    {
      ExpireMoves(t.runs[id], t.now);
      if pick == Some(id) {
        ClaimedMoves(Expire(t.runs[id], t.now), worker, lease, t.now);
      }
    }
  }

  lemma WakeMoves(t: Tables, t': Tables)
    requires RunsOk(t) && t'.now == t.now && t'.runs.Keys == t.runs.Keys
    requires forall id ::
      id in t.runs ==> t'.runs[id] == t.runs[id] || (Live(t.runs[id]) && t'.runs[id] == Woken(t.runs[id], t.now))
    ensures RowsMove(t, t')
  {
  }

  lemma ParkMoves(t: Tables, run: Id, worker: Id, at: Time)
    requires RunsOk(t)
    ensures RowsMove(t, AfterPark(t, run, worker, at))
  {
  }

  lemma ExtendMoves(t: Tables, run: Id, worker: Id, lease: int)
    requires RunsOk(t)
    ensures RowsMove(t, AfterExtend(t, run, worker, lease))
  {
  }

  lemma CompleteMoves(t: Tables, run: Id, worker: Id, output: Value)
    requires RunsOk(t)
    ensures RowsMove(t, AfterComplete(t, run, worker, output))
  {
  }

  lemma FailMoves(t: Tables, run: Id, worker: Id, u: Update)
    requires RunsOk(t)
    ensures RowsMove(t, AfterFailRun(t, run, worker, u))
  {
  }

  lemma RescheduleMoves(t: Tables, run: Id, worker: Id, at: Time, error: Value)
    requires RunsOk(t)
    ensures RowsMove(t, AfterReschedule(t, run, worker, at, error))
  {
  }

  lemma CancelMoves(t: Tables, run: Id)
    requires RunsOk(t)
    ensures RowsMove(t, AfterCancel(t, run))
  {
  }

  lemma CreateMoves(t: Tables, op: Op)
    requires RunsOk(t) && op.CreateRun? && op.id !in t.runs
    ensures RowsMove(t, AfterCreateRun(t, op))
  {
  }

  lemma ElapseMoves(t: Tables, ms: nat)
    requires RunsOk(t)
    ensures RowsMove(t, Apply(t, Elapse(ms)))
  {
  }

  lemma OpRowsMove(t: Tables, op: Op)
    requires RunsOk(t) && Allowed(t, op)
    ensures RowsMove(t, Apply(t, op))
  {
    match op
    case CreateRun(_, _, _, _, _, _, _) => CreateMoves(t, op);
    case Claim(worker, lease, pick) => ClaimMoves(t, worker, lease, pick);
    case Extend(run, worker, lease) => ExtendMoves(t, run, worker, lease);
    case Park(run, worker, at) => ParkMoves(t, run, worker, at);
    case Complete(run, worker, output) => CompleteMoves(t, run, worker, output);
    case FailRun(run, worker, error, policy, attempts, deadlineAt) =>
      FailMoves(t, run, worker, FailedUpdate(policy, attempts, deadlineAt, error, t.now));
    case Reschedule(run, worker, at, error) => RescheduleMoves(t, run, worker, at, error);
    case Cancel(run) => CancelMoves(t, run);
    case Wake(child) => WakeMoves(t, AfterWake(t, child));
    case Send(signal, key, data) => WakeMoves(t, AfterSend(t, signal, key, data));
    case Elapse(ms) => ElapseMoves(t, ms);
    case _ =>
  }

  lemma OnlyCreateAddsRuns(t: Tables, op: Op)
    ensures Apply(t, op).runs.Keys == if op.CreateRun? then Apply(t, op).runs.Keys else t.runs.Keys
    ensures op.CreateRun? ==> Apply(t, op) == t || Apply(t, op).runs == t.runs[op.id := NewRun(op, t.now)]
  {
  }

  /** Rows stay consistent, and no row disappears, changes identity or leaves a terminal status. */
  lemma OpMovesRuns(t: Tables, op: Op)
    requires RunsOk(t) && Allowed(t, op)
    ensures RunsOk(Apply(t, op)) && RunsMove(t, Apply(t, op))
  {
    OpRowsMove(t, op);
    OnlyCreateAddsRuns(t, op);
  }

  // ---- who may take a run away ----

  /** The only operations that end an unexpired lease: the owner's own, a cancel, or a claim after the deadline. */
  predicate MayTake(t: Tables, op: Op, id: Id, worker: Id)
    requires id in t.runs
  {
    match op
    case Park(run, w, _) => run == id && w == worker
    case Complete(run, w, _) => run == id && w == worker
    case FailRun(run, w, _, _, _, _) => run == id && w == worker
    case Reschedule(run, w, _, _) => run == id && w == worker
    case Cancel(run) => run == id
    case Claim(_, _, _) => PastDeadline(t.runs[id], t.now)
    case _ => false
  }

  /** While its lease has not run out, a run changes hands exactly by these operations. */
  lemma LeaseIsHeld(t: Tables, op: Op, id: Id, worker: Id)
    requires RunsOk(t) && Allowed(t, op) && Owned(t, id, worker) && t.runs[id].availableAt.value > t.now
    ensures Owned(Apply(t, op), id, worker) <==> !MayTake(t, op, id, worker)
  {
  }

  /** Ownership is gained by a claim of that run and in no other way; before it the run was due. */
  lemma OwnershipIsClaimed(t: Tables, op: Op, id: Id, worker: Id)
    requires RunsOk(t) && Allowed(t, op)
    requires !Owned(t, id, worker) && Owned(Apply(t, op), id, worker)
    ensures op.Claim? && op.worker == worker && op.pick == Some(id) && id in t.runs && Due(t.runs[id], t.now)
  {
  }

  // ---- no run is stranded ----

  /**
    * A claim comes back empty only when no live run within its deadline is due; it fails every run past its deadline.
    */
  lemma EmptyClaim(t: Tables, worker: Id, lease: int, id: Id)
    requires RunsOk(t) && Allowed(t, Claim(worker, lease, None)) && id in t.runs && Live(t.runs[id])
    ensures t.runs[id].availableAt.value > t.now || PastDeadline(t.runs[id], t.now)
    ensures PastDeadline(t.runs[id], t.now) ==> Apply(t, Claim(worker, lease, None)).runs[id].status == Failed
  {
  }

  /** Once the clock has reached the available time of a live run, a claim ends that run or finds some work. */
  lemma NothingIsStranded(t: Tables, id: Id, wait: nat, worker: Id, lease: int, pick: Option<Id>)
    requires RunsOk(t) && id in t.runs && Live(t.runs[id])
    requires t.runs[id].availableAt.value <= t.now + wait
    requires Allowed(Apply(t, Elapse(wait)), Claim(worker, lease, pick))
    ensures
      var t' := Apply(Apply(t, Elapse(wait)), Claim(worker, lease, pick));
      t'.runs[id].status == Failed || (pick.Some? && Owned(t', pick.value, worker))
  {
  }

  /** There is always an allowed claim: the due runs have a first one. */
  lemma {:induction false} SomeFirstDue(runs: map<Id, Run>, now: Time, due: set<Id>) returns (pick: Id)
    requires due != {} && forall id :: id in due ==> id in runs && Due(runs[id], now)
    ensures pick in due && Due(runs[pick], now)
    ensures forall id :: id in due ==> Due(runs[id], now) && NoLater(runs[pick], runs[id])
    decreases |due|
  {
    pick :| pick in due;
    if due != {pick} {
      var rest := due - {pick};
      assert due == rest + {pick};
      var other := SomeFirstDue(runs, now, rest);
      if NoLater(runs[other], runs[pick]) {
        pick := other;
      }
    }
  }

  lemma SomeClaimIsAllowed(t: Tables, worker: Id, lease: int) returns (pick: Option<Id>)
    requires lease > 0
    ensures Allowed(t, Claim(worker, lease, pick))
  {
    var runs := Expired(t.runs, t.now);
    var due := set id | id in runs && Due(runs[id], t.now);
    if due == {} {
      forall id | id in t.runs
        ensures !Due(Expire(t.runs[id], t.now), t.now)
      {
        assert id !in due && runs[id] == Expire(t.runs[id], t.now);
      }
      pick := None;
    } else {
      var first := SomeFirstDue(runs, t.now, due);
      pick := Some(first);
    }
  }

  // ---- idempotency keys ----

  /** Two runs with the same name and key were created more than a day apart. */
  ghost predicate KeysApart(t: Tables) {
    forall i, j ::
      i in t.runs && j in t.runs && i != j
      && t.runs[i].name == t.runs[j].name && t.runs[i].key == t.runs[j].key && t.runs[i].key.Some? ==>
      || t.runs[i].createdAt + IDEMPOTENCY_PERIOD < t.runs[j].createdAt
      || t.runs[j].createdAt + IDEMPOTENCY_PERIOD < t.runs[i].createdAt
  }

  lemma OpKeepsKeysApart(t: Tables, op: Op)
    requires RunsOk(t) && KeysApart(t) && Allowed(t, op)
    ensures KeysApart(Apply(t, op))
  {
    if op.CreateRun? {
      forall i | i in t.runs && !HasMatch(t, op.name, op.key) && op.key.Some?
          && t.runs[i].name == op.name && t.runs[i].key == op.key
        ensures t.runs[i].createdAt + IDEMPOTENCY_PERIOD < t.now
      {
        assert !Matches(t, i, op.name, op.key.value);
      }
    } else {
      OpRowsMove(t, op);
      OnlyCreateAddsRuns(t, op);
    }
  }

  /** So a create that finds a run finds only one, whatever order the rows are read in. */
  lemma MatchIsUnique(t: Tables, i: Id, j: Id, name: string, key: string)
    requires RunsOk(t) && KeysApart(t) && Matches(t, i, name, key) && Matches(t, j, name, key)
    ensures i == j
  {
  }

  /** Creating twice with one key within a day makes one run and finds it again, whatever happened in between. */
  lemma {:induction false} CreateTwice(t: Tables, ops: seq<Op>, i: Id, name: string, key: string)
    requires RunsOk(t) && KeysApart(t) && AllAllowed(t, ops) && Matches(t, i, name, key)
    requires ApplyAll(t, ops).now <= t.runs[i].createdAt + IDEMPOTENCY_PERIOD
    ensures Matches(ApplyAll(t, ops), i, name, key)
    decreases |ops|
  {
    if ops != [] {
      OpKeepsKeysApart(t, ops[0]);
      OpMovesRuns(t, ops[0]);
      ClockRises(Apply(t, ops[0]), ops[1..]);
      CreateTwice(Apply(t, ops[0]), ops[1..], i, name, key);
    }
  }

  lemma {:induction false} ClockRises(t: Tables, ops: seq<Op>)
    ensures t.now <= ApplyAll(t, ops).now
    decreases |ops|
  {
    if ops != [] {
      ClockRises(Apply(t, ops[0]), ops[1..]);
    }
  }

  // ---- whole runs ----

  /** From empty tables, whatever allowed operations follow: rows consistent, keys apart. */
  lemma {:induction false} Reachable(t: Tables, ops: seq<Op>)
    requires RunsOk(t) && KeysApart(t) && AllAllowed(t, ops)
    ensures RunsOk(ApplyAll(t, ops)) && KeysApart(ApplyAll(t, ops)) && RunsMove(t, ApplyAll(t, ops))
    decreases |ops|
  {
    if ops != [] {
      OpKeepsKeysApart(t, ops[0]);
      OpMovesRuns(t, ops[0]);
      Reachable(Apply(t, ops[0]), ops[1..]);
    }
  }
}
