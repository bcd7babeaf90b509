/**
  * A step fails at most as often as its policy allows, and the last allowed failure fails its run, for functions that
  * let step errors out and as long as no pass is lost between a last failure and the run's transition.
  */
module RetryBound {
  import opened Graphs
  import opened Workflows
  import opened Retry
  import opened Store
  import opened Lifecycle
  import opened WakeUp
  import opened StepHistory
  import opened LedgerProofs
  import opened Replay
  import opened ReplayProofs
  import opened ReplaySafety
  import opened ReplayTraces

  // ---- counting failures ----

  ghost predicate FailedOnce(t: Tables, id: Id, run: Id, step: string) {
    id in t.attempts && t.attempts[id].run == run && t.attempts[id].step == step && t.attempts[id].status == StepFailed
  }

  /** The failed attempts of a step. */
  ghost function Failures(t: Tables, run: Id, step: string): set<Id> {
    set id | id in t.attempts && FailedOnce(t, id, run, step)
  }

  ghost function FailedIn(rows: seq<Attempt>, step: string): set<Id> {
    set a | a in rows && a.status == StepFailed && a.step == step :: a.id
  }

  lemma LastRow(rows: seq<Attempt>, step: string)
    requires rows != []
    ensures
      var last := rows[|rows| - 1];
      FailedIn(rows, step)
        == FailedIn(rows[..|rows| - 1], step) + if last.status == StepFailed && last.step == step then {last.id} else {}
  {
    assert rows == rows[..|rows| - 1] + [rows[|rows| - 1]];
  }

  lemma NewIdIsNew(rows: seq<Attempt>, step: string)
    requires rows != [] && forall i, j :: 0 <= i < j < |rows| ==> rows[i].id != rows[j].id
    ensures rows[|rows| - 1].id !in FailedIn(rows[..|rows| - 1], step)
  {
  }

  lemma {:induction false} FailedRowsAreCounted(rows: seq<Attempt>, step: string)
    requires forall i, j :: 0 <= i < j < |rows| ==> rows[i].id != rows[j].id
    ensures FailedRows(rows, step) == |FailedIn(rows, step)|
  {
    if rows == [] {
      assert FailedIn(rows, step) == {};
    } else {
      FailedRowsAreCounted(rows[..|rows| - 1], step);
      LastRow(rows, step);
      NewIdIsNew(rows, step);
    }
  }

  /** The loaded ledger counts the failures in the table. */
  lemma LoadedCounts(t: Tables, run: Id, rows: seq<Attempt>, step: string)
    requires LinksOk(t) && Lists(t, run, rows)
    ensures FailedCount(Rebuilt(rows), step) == |Failures(t, run, step)|
  {
    RebuiltCounts(rows);
    forall i, j | 0 <= i < j < |rows|
      ensures rows[i].id != rows[j].id
    {
      assert t.attempts[rows[i].id] == rows[i] && t.attempts[rows[j].id] == rows[j];
    }
    FailedRowsAreCounted(rows, step);
    forall id
      ensures id in FailedIn(rows, step) <==> id in Failures(t, run, step)
    {
      if id in Failures(t, run, step) {
        assert t.attempts[id] in rows && LinkOk(id, t.attempts[id], t.runs);
      }
      if id in FailedIn(rows, step) {
        var a :| a in rows && a.status == StepFailed && a.step == step && a.id == id;
        var i :| 0 <= i < |rows| && rows[i] == a;
        assert t.attempts[rows[i].id] == rows[i];
      }
    }
    assert FailedIn(rows, step) == Failures(t, run, step);
  }

  /** An owner counts every failure of its run. */
  ghost predicate OwnerCounts(t: Tables, w: Id, p: Pass) {
    Active(p) && Owned(t, p.run, w) ==> forall n :: FailedCount(p.ledger, n) == |Failures(t, p.run, n)|
  }

  /** An attempt fails only by its owner's failing it. */
  lemma NewlyFailed(t: Tables, op: Op, id: Id, run: Id, step: string)
    requires Consistent(t) && Allowed(t, op)
    ensures FailedOnce(t, id, run, step) ==> FailedOnce(Apply(t, op), id, run, step)
    ensures FailedOnce(Apply(t, op), id, run, step) && !FailedOnce(t, id, run, step) ==>
      && op.FailAttempt? && op.attempt == id && OwnedAttempt(t, op.run, op.worker, id)
      && op.run == run && t.attempts[id].step == step
  {
  }

  lemma OtherOpsFailNothing(t: Tables, op: Op, run: Id, step: string)
    requires Consistent(t) && Allowed(t, op)
    requires op.FailAttempt? && OwnedAttempt(t, op.run, op.worker, op.attempt) ==>
      op.run != run || t.attempts[op.attempt].step != step
    ensures Failures(Apply(t, op), run, step) == Failures(t, run, step)
  {
  }

  lemma FailingAddsOne(t: Tables, op: Op)
    requires Consistent(t) && op.FailAttempt? && OwnedAttempt(t, op.run, op.worker, op.attempt)
    ensures
      var step := t.attempts[op.attempt].step;
      |Failures(Apply(t, op), op.run, step)| == |Failures(t, op.run, step)| + 1
  {
    var step := t.attempts[op.attempt].step;
    assert LinkOk(op.attempt, t.attempts[op.attempt], t.runs);
    forall id
      ensures id in Failures(Apply(t, op), op.run, step) <==> id == op.attempt || id in Failures(t, op.run, step)
    {
      NewlyFailed(t, op, id, op.run, step);
    }
    assert op.attempt !in Failures(t, op.run, step);
    assert Failures(Apply(t, op), op.run, step) == Failures(t, op.run, step) + {op.attempt};
  }

  // ---- turns ----

  /** A turn fails an attempt only from its own failing state, and then tells the function so. */
  ghost predicate FailsWell(t: Tables, w: Id, p: Pass, turn: Turn) {
    if turn.op.Some? && turn.op.value.FailAttempt? then
      && p.pc.Failing? && turn.op.value.run == p.run && turn.op.value.worker == w && turn.op.value.attempt == p.pc.a.id
      && OwnedAttempt(t, p.run, w, p.pc.a.id)
      && turn.next.Some?
      && turn.next.value.ledger.failedCounts
        == p.ledger.failedCounts[p.pc.a.step := FailedCount(p.ledger, p.pc.a.step) + 1]
      && turn.next.value.pc.Deciding? && turn.next.value.claims == p.claims
      && turn.next.value.outs
        == p.outs + [Raised(StepFailure(FailedCount(p.ledger, p.pc.a.step) + 1, p.pc.policy, p.pc.failure))]
    else turn.next.Some? && !p.pc.Loading? ==> turn.next.value.ledger.failedCounts == p.ledger.failedCounts
  }

  lemma FailFailsWell(t: Tables, w: Id, p: Pass, c: Choice)
    requires p.pc.Failing?
    ensures FailsWell(t, w, p, FailTurn(t, w, p, c))
  {
  }

  lemma ReadFailsWell(env: Env, t: Tables, w: Id, p: Pass, c: Choice)
    requires p.pc.Loading? || p.pc.Executing? || p.pc.Sending? || p.pc.Waking? || p.pc.Watching? || p.pc.Receiving?
    ensures FailsWell(t, w, p, TurnOf(env, t, w, p, c))
  {
  }

  lemma DecideFailsWell(env: Env, t: Tables, w: Id, p: Pass, c: Choice)
    ensures FailsWell(t, w, p, DecideTurn(env, t, w, p, c)) || p.pc.Loading?
  {
  }

  lemma PrePassFailsWell(env: Env, t: Tables, w: Id, p: Pass, c: Choice)
    requires p.pc.PrePass?
    ensures FailsWell(t, w, p, PrePassTurn(env, t, w, p, c))
  {
  }

  lemma CreateFailsWell(t: Tables, w: Id, p: Pass, c: Choice)
    requires p.pc.Creating?
    ensures FailsWell(t, w, p, CreateTurn(t, w, p, c))
  {
  }

  lemma LinkFailsWell(t: Tables, w: Id, p: Pass, c: Choice)
    requires p.pc.Linking? || p.pc.Binding? || p.pc.Completing?
    ensures FailsWell(t, w, p,
                      if p.pc.Linking? then LinkTurn(t, p, c)
                      else if p.pc.Binding? then BindTurn(t, w, p, c)
                      else CompleteTurn(t, w, p, c))
  {
  }

  lemma EndFailsWell(env: Env, t: Tables, w: Id, p: Pass, c: Choice)
    requires p.pc.Ending? && EndsRun(p.pc.op, p.run, w)
    ensures FailsWell(t, w, p, EndTurn(env, t, w, p, c))
  {
  }

  lemma TurnFailsWell(env: Env, t: Tables, w: Id, p: Pass, c: Choice)
    requires PassOk(t, w, p)
    ensures FailsWell(t, w, p, TurnOf(env, t, w, p, c))
  {
    match p.pc
    case PrePass(_, _) => PrePassFailsWell(env, t, w, p, c);
    case Deciding => DecideFailsWell(env, t, w, p, c);
    case Creating(_, _) => CreateFailsWell(t, w, p, c);
    case Linking(_, _, _, _) => LinkFailsWell(t, w, p, c);
    case Binding(_, _, _) => LinkFailsWell(t, w, p, c);
    case Completing(_, _, _) => LinkFailsWell(t, w, p, c);
    case Failing(_, _, _) => FailFailsWell(t, w, p, c);
    case Ending(_) => EndFailsWell(env, t, w, p, c);
    case _ => ReadFailsWell(env, t, w, p, c);
  }

  // ---- owners keep counting ----

  lemma OthersKeepCounting(t: Tables, op: Op, w: Id, p: Pass)
    requires Consistent(t) && Allowed(t, op) && OwnerCounts(t, w, p)
    requires op.FailAttempt? || op.Claim? ==> op.worker != w
    ensures OwnerCounts(Apply(t, op), w, p)
  {
    if Active(p) && Owned(Apply(t, op), p.run, w) {
      if !Owned(t, p.run, w) {
        OwnershipIsClaimed(t, op, p.run, w);
      }
      forall n
        ensures FailedCount(p.ledger, n) == |Failures(Apply(t, op), p.run, n)|
      {
        OtherOpsFailNothing(t, op, p.run, n);
      }
    }
  }

  lemma ActorKeepsCounting(env: Env, t: Tables, w: Id, p: Pass, c: Choice)
    requires Consistent(t) && PassOk(t, w, p) && OwnerCounts(t, w, p) && Possible(t, p, c)
    ensures
      var turn := TurnOf(env, t, w, p, c);
      turn.next.Some? ==> OwnerCounts(TablesAfter(t, turn), w, turn.next.value)
  {
    var turn := TurnOf(env, t, w, p, c);
    TurnIsOk(env, t, w, p, c);
    TurnFailsWell(env, t, w, p, c);
    if turn.next.Some? && Active(turn.next.value) && Owned(TablesAfter(t, turn), p.run, w) {
      ActiveBefore(env, t, w, p, c);
      if p.pc.Loading? {
        ReadsOnly(env, t, w, p, c);
        LoadCounts(t, w, p, c);
      } else {
        TurnCounts(t, w, p, turn);
      }
    }
  }

  lemma LoadCounts(t: Tables, w: Id, p: Pass, c: Choice)
    requires Consistent(t) && p.pc.Loading? && Lists(t, p.run, c.rows)
    ensures OwnerCounts(t, w, LoadTurn(w, p, c).next.value)
  {
    forall n
      ensures FailedCount(Rebuilt(c.rows), n) == |Failures(t, p.run, n)|
    {
      LoadedCounts(t, p.run, c.rows, n);
    }
  }

  lemma TurnCounts(t: Tables, w: Id, p: Pass, turn: Turn)
    requires Consistent(t) && TurnOk(t, w, p, turn) && FailsWell(t, w, p, turn) && PassOk(t, w, p)
    requires Active(p) && OwnerCounts(t, w, p) && turn.next.Some? && Owned(TablesAfter(t, turn), p.run, w)
    ensures OwnerCounts(TablesAfter(t, turn), w, turn.next.value)
  {
    if turn.op.Some? {
      var op := turn.op.value;
      if !Owned(t, p.run, w) {
        OwnershipIsClaimed(t, op, p.run, w);
      }
      forall n
        ensures FailedCount(turn.next.value.ledger, n) == |Failures(Apply(t, op), p.run, n)|
      {
        if op.FailAttempt? && n == p.pc.a.step {
          FailingAddsOne(t, op);
        } else {
          OtherOpsFailNothing(t, op, p.run, n);
        }
      }
    }
  }

  // ---- the system keeps counting ----

  ghost predicate AllCount(s: Sys) {
    forall w :: w in s.passes ==> OwnerCounts(s.t, w, s.passes[w])
  }

  lemma StepKeepsCounting(env: Env, s: Sys, l: Label)
    requires Safe(s) && AllCount(s) && Enabled(s, l)
    ensures AllCount(Effect(env, s, l))
  {
    var s' := Effect(env, s, l);
    StepOp(env, s, l);
    forall w | w in s'.passes
      ensures OwnerCounts(s'.t, w, s'.passes[w])
    {
      if !Acts(l, w) {
        OthersUnmoved(env, s, l, w);
        if OpOf(env, s, l).Some? {
          OthersKeepCounting(s.t, OpOf(env, s, l).value, w, s.passes[w]);
        }
      } else if l.Go? {
        ActorKeepsCounting(env, s.t, w, s.passes[w], l.c);
      }
    }
  }

  lemma {:induction false} KeepCounting(env: Env, s: Sys, labels: seq<Label>)
    requires Safe(s) && AllCount(s) && Runs(env, s, labels)
    ensures AllCount(After(env, s, labels))
    decreases |labels|
  {
    if labels != [] {
      StepKeepsSafe(env, s, labels[0]);
      StepKeepsCounting(env, s, labels[0]);
      KeepCounting(env, Effect(env, s, labels[0]), labels[1..]);
    }
  }

  // ---- policies ----

  /** The error of a step call always leaves the function. */
  ghost predicate Uncaught(fn: WorkflowFn) {
    forall outs: seq<Outcome> {:trigger fn(outs)} :: outs != [] && outs[|outs| - 1].Raised? ==> fn(outs).Propagate?
  }

  predicate Caps(policy: Policy, limit: nat) {
    1 <= policy.maximumAttempts <= limit
  }

  /** Each step's policy has a maximum, within the limit for its name; steps that are not functions are tried once. */
  ghost predicate Capped(fn: WorkflowFn, limit: string -> nat) {
    forall outs: seq<Outcome> {:trigger fn(outs)} :: fn(outs).Step? ==>
      && limit(NextName(fn, outs)) >= 1
      && (fn(outs).kind == FunctionStep ==> Caps(fn(outs).policy, limit(NextName(fn, outs))))
  }

  /** In every pass. */
  ghost predicate UncaughtRun(fns: Family) {
    forall n: nat :: Uncaught(fns(n))
  }

  ghost predicate CappedRun(fns: Family, limit: string -> nat) {
    forall n: nat :: Capped(fns(n), limit)
  }

  ghost predicate PcCapped(p: Pass, limit: string -> nat) {
    && p.claims >= 1
    && (CurrentStep(p).Some? ==> limit(CurrentStep(p).value) >= 1)
    && match p.pc
       case Creating(step, action) => action.Step? && action.kind == FunctionStep ==> Caps(action.policy, limit(step))
       case Executing(a, policy) => Caps(policy, limit(a.step))
       case Completing(a, _, onError) => onError.Some? ==> Caps(onError.value, limit(a.step))
       case Failing(a, policy, _) => Caps(policy, limit(a.step))
       case _ => true
  }

  /** A new state of the function's current step is capped when the function is. */
  lemma CallCapped(fn: WorkflowFn, p: Pass, c: Choice, limit: string -> nat)
    requires p.claims >= 1 && Capped(fn, limit) && fn(p.outs).Step?
    requires NextName(fn, p.outs) in p.ledger.running ==>
      p.ledger.running[NextName(fn, p.outs)].step == NextName(fn, p.outs)
    ensures PcCapped(CallTurn(p, NextName(fn, p.outs), fn(p.outs), c).next.value, limit)
  {
    CallHasShape(p, NextName(fn, p.outs), fn(p.outs), c);
    CallOpens(p, NextName(fn, p.outs), fn(p.outs), c);
  }

  lemma CallOpens(p: Pass, step: string, action: Action, c: Choice)
    requires action.Step?
    ensures
      var pc := CallTurn(p, step, action, c).next.value.pc;
      !pc.Executing? && !pc.Completing? && !pc.Failing?
  {
  }

  lemma CreateCapped(t: Tables, w: Id, p: Pass, c: Choice, limit: string -> nat)
    requires p.pc.Creating? && PcCapped(p, limit)
    ensures PcCapped(CreateTurn(t, w, p, c).next.value, limit)
  {
  }

  lemma StepCapped(env: Env, t: Tables, w: Id, p: Pass, c: Choice, limit: string -> nat)
    requires p.pc.Executing? || p.pc.Sending? || p.pc.Watching? || p.pc.Receiving?
    requires PcCapped(p, limit)
    ensures PcCapped(TurnOf(env, t, w, p, c).next.value, limit)
  {
  }

  lemma LinkCapped(t: Tables, w: Id, p: Pass, c: Choice, limit: string -> nat)
    requires (p.pc.Linking? || p.pc.Binding?) && PcCapped(p, limit)
    ensures PcCapped(if p.pc.Linking? then LinkTurn(t, p, c).next.value else BindTurn(t, w, p, c).next.value, limit)
  {
  }

  lemma CloseCapped(t: Tables, w: Id, p: Pass, c: Choice, limit: string -> nat)
    requires (p.pc.Completing? || p.pc.Failing?) && PcCapped(p, limit)
    ensures PcCapped(if p.pc.Completing? then CompleteTurn(t, w, p, c).next.value else FailTurn(t, w, p, c).next.value,
                     limit)
  {
  }

  lemma RestCapped(env: Env, t: Tables, w: Id, p: Pass, c: Choice, limit: string -> nat)
    requires p.claims >= 1 && (p.pc.Loading? || p.pc.Ending? || p.pc.Waking?)
    requires TurnOf(env, t, w, p, c).next.Some?
    ensures PcCapped(TurnOf(env, t, w, p, c).next.value, limit)
  {
  }

  lemma PrePassCapped(env: Env, t: Tables, w: Id, p: Pass, c: Choice, limit: string -> nat)
    requires p.claims >= 1 && p.pc.PrePass?
    ensures PcCapped(PrePassTurn(env, t, w, p, c).next.value, limit)
  {
  }

  lemma DecideCapped(env: Env, t: Tables, w: Id, p: Pass, c: Choice, limit: string -> nat)
    requires p.claims >= 1 && p.pc.Deciding? && Follows(FnOf(env, p), p) && PassOk(t, w, p)
    requires Capped(FnOf(env, p), limit)
    ensures PcCapped(DecideTurn(env, t, w, p, c).next.value, limit)
  {
    if FnOf(env, p)(p.outs).Step? {
      CallCapped(FnOf(env, p), p, c, limit);
    }
  }

  lemma TurnCapped(env: Env, t: Tables, w: Id, p: Pass, c: Choice, limit: string -> nat)
    requires PassOk(t, w, p) && Follows(FnOf(env, p), p) && PcCapped(p, limit) && Capped(FnOf(env, p), limit)
    requires TurnOf(env, t, w, p, c).next.Some?
    ensures PcCapped(TurnOf(env, t, w, p, c).next.value, limit)
  {
    match p.pc
    case PrePass(_, _) => PrePassCapped(env, t, w, p, c, limit);
    case Deciding => DecideCapped(env, t, w, p, c, limit);
    case Creating(_, _) => CreateCapped(t, w, p, c, limit);
    case Linking(_, _, _, _) => LinkCapped(t, w, p, c, limit);
    case Binding(_, _, _) => LinkCapped(t, w, p, c, limit);
    case Completing(_, _, _) => CloseCapped(t, w, p, c, limit);
    case Failing(_, _, _) => CloseCapped(t, w, p, c, limit);
    case Loading => RestCapped(env, t, w, p, c, limit);
    case Ending(_) => RestCapped(env, t, w, p, c, limit);
    case Waking => RestCapped(env, t, w, p, c, limit);
    case _ => StepCapped(env, t, w, p, c, limit);
  }

  // ---- the bound ----

  /** A pass that is about to fail its run for good, because a step has used up its tries. */
  predicate Doomed(p: Pass) {
    || (p.pc.Deciding? && p.claims >= 1 && p.outs != [] && p.outs[|p.outs| - 1].Raised?
        && p.outs[|p.outs| - 1].problem.StepFailure?
        && Caps(p.outs[|p.outs| - 1].problem.policy, p.outs[|p.outs| - 1].problem.count))
    || (p.pc.Ending? && p.pc.op.FailRun? && p.pc.op.policy == TERMINAL_POLICY && p.pc.op.attempts >= 1)
  }

  ghost predicate DoomedOwner(s: Sys, run: Id, w: Id) {
    w in s.passes && s.passes[w].run == run && Owned(s.t, run, w) && Doomed(s.passes[w])
  }

  /** The run has ended, or its owner is about to fail it. */
  ghost predicate Settled(s: Sys, run: Id) {
    run in s.t.runs && (Terminal(s.t.runs[run].status) || exists w :: DoomedOwner(s, run, w))
  }

  ghost predicate Exhausted(t: Tables, run: Id, step: string, limit: string -> nat) {
    |Failures(t, run, step)| >= 1 && |Failures(t, run, step)| == limit(step)
  }

  /** No step has failed more often than its limit, and once one has used it up the run is settled. */
  ghost predicate Bounded(s: Sys, run: Id, limit: string -> nat) {
    && (forall n :: |Failures(s.t, run, n)| <= limit(n))
    && (forall n :: Exhausted(s.t, run, n, limit) ==> Settled(s, run))
  }

  /** No pass is lost between a last failure and the transition of its run: no crash, lost lease or refused call. */
  ghost predicate Kept(s: Sys, l: Label, run: Id) {
    forall w :: DoomedOwner(s, run, w) ==>
      && l != Crash(w)
      && (l.Start? ==> l.pick != Some(run))
      && (l.Go? && l.worker == w ==> l.c.ok)
  }

  /** All that the bound rests on. */
  ghost predicate Tracked(env: Env, s: Sys, run: Id, limit: string -> nat) {
    Safe(s) && forall w :: w in s.passes ==> PassTracked(env, s.t, w, s.passes[w], run, limit)
  }

  ghost predicate PassTracked(env: Env, t: Tables, w: Id, p: Pass, run: Id, limit: string -> nat) {
    Follows(FnOf(env, p), p) && OwnerCounts(t, w, p) && (p.run == run ==> PcCapped(p, limit))
  }

  /** An owner keeps its run until it ends the run itself, somebody else claims it, or it is over. */
  lemma OwnershipStays(t: Tables, op: Op, run: Id, w: Id)
    requires RunsOk(t) && Allowed(t, op) && Owned(t, run, w) && !EndsRun(op, run, w)
    requires (op.Claim? ==> op.pick != Some(run))
    ensures Owned(Apply(t, op), run, w) || (run in Apply(t, op).runs && Terminal(Apply(t, op).runs[run].status))
  {
  }

  lemma DoomedDecides(env: Env, t: Tables, w: Id, p: Pass, c: Choice)
    requires Uncaught(FnOf(env, p)) && Doomed(p) && p.pc.Deciding?
    ensures
      var turn := TurnOf(env, t, w, p, c);
      turn.op.None? && turn.next.Some? && turn.next.value.run == p.run && Doomed(turn.next.value)
  {
  }

  lemma DoomedEnds(env: Env, t: Tables, w: Id, p: Pass, c: Choice)
    requires Doomed(p) && p.pc.Ending? && EndsRun(p.pc.op, p.run, w) && Owned(t, p.run, w) && c.ok
    ensures
      var t' := TablesAfter(t, TurnOf(env, t, w, p, c));
      p.run in t'.runs && Terminal(t'.runs[p.run].status)
  {
  }

  // ---- the bound is kept ----

  lemma TerminalStays(env: Env, s: Sys, l: Label, run: Id)
    requires Safe(s) && Enabled(s, l) && run in s.t.runs && Terminal(s.t.runs[run].status)
    ensures Settled(Effect(env, s, l), run)
  {
    StepMoves(env, s, l);
  }

  /** Another's step leaves a doomed owner doomed and owner, unless the run is over. */
  lemma OthersKeepDoomed(env: Env, s: Sys, l: Label, run: Id, v: Id)
    requires Safe(s) && Enabled(s, l) && Kept(s, l, run) && DoomedOwner(s, run, v)
    requires !(l.Go? && l.worker == v)
    ensures Settled(Effect(env, s, l), run)
  {
    var s' := Effect(env, s, l);
    OthersLeaveOwner(env, s, l, run, v);
    assert v in s'.passes && s'.passes[v] == s.passes[v];
    assert Owned(s'.t, run, v) ==> DoomedOwner(s', run, v);
  }

  lemma OthersLeaveOwner(env: Env, s: Sys, l: Label, run: Id, v: Id)
    requires Safe(s) && Enabled(s, l) && Owned(s.t, run, v)
    requires !(l.Go? && l.worker == v) && (l.Start? ==> l.pick != Some(run))
    ensures
      var t' := Effect(env, s, l).t;
      run in t'.runs && (Owned(t', run, v) || Terminal(t'.runs[run].status))
  {
    StepOp(env, s, l);
    if l.Go? {
      TurnIsOk(env, s.t, l.worker, s.passes[l.worker], l.c);
    }
    if OpOf(env, s, l).Some? {
      OwnershipStays(s.t, OpOf(env, s, l).value, run, v);
    }
  }

  lemma DoomedGoes(env: Env, s: Sys, v: Id, c: Choice, run: Id)
    requires Safe(s) && Enabled(s, Go(v, c)) && Kept(s, Go(v, c), run) && DoomedOwner(s, run, v)
    requires UncaughtRun(env.fns(run))
    ensures Settled(Effect(env, s, Go(v, c)), run)
  {
    var p, s' := s.passes[v], Effect(env, s, Go(v, c));
    assert PassOk(s.t, v, p);
    if p.pc.Deciding? {
      DoomedDecides(env, s.t, v, p, c);
      assert DoomedOwner(s', run, v);
    } else {
      DoomedEnds(env, s.t, v, p, c);
    }
  }

  lemma SettledStays(env: Env, s: Sys, l: Label, run: Id)
    requires Safe(s) && Enabled(s, l) && Kept(s, l, run) && Settled(s, run) && UncaughtRun(env.fns(run))
    ensures Settled(Effect(env, s, l), run)
  {
    if Terminal(s.t.runs[run].status) {
      TerminalStays(env, s, l, run);
    } else {
      var v :| DoomedOwner(s, run, v);
      if l.Go? && l.worker == v {
        DoomedGoes(env, s, v, l.c, run);
      } else {
        OthersKeepDoomed(env, s, l, run, v);
      }
    }
  }

  /** The operation that a step applies, if any, fails no attempt of the run. */
  ghost predicate FailsNone(env: Env, s: Sys, l: Label, run: Id)
    requires Enabled(s, l)
  {
    var op := OpOf(env, s, l);
    op.Some? && op.value.FailAttempt? ==> op.value.run != run
  }

  lemma SameFailures(env: Env, s: Sys, l: Label, run: Id, n: string)
    requires Safe(s) && Enabled(s, l) && FailsNone(env, s, l, run)
    ensures Failures(Effect(env, s, l).t, run, n) == Failures(s.t, run, n)
  {
    StepOp(env, s, l);
    if OpOf(env, s, l).Some? {
      OtherOpsFailNothing(s.t, OpOf(env, s, l).value, run, n);
    }
  }

  lemma QuietStepKeepsBounded(env: Env, s: Sys, l: Label, run: Id, limit: string -> nat)
    requires Safe(s) && Bounded(s, run, limit) && Enabled(s, l) && Kept(s, l, run) && UncaughtRun(env.fns(run))
    requires FailsNone(env, s, l, run)
    ensures Bounded(Effect(env, s, l), run, limit)
  {
    var s' := Effect(env, s, l);
    forall n
      ensures |Failures(s'.t, run, n)| <= limit(n) && (Exhausted(s'.t, run, n, limit) ==> Settled(s', run))
    {
      SameFailures(env, s, l, run, n);
      if Exhausted(s.t, run, n, limit) {
        SettledStays(env, s, l, run);
      }
    }
  }

  lemma FailingIsNotSettled(s: Sys, run: Id, w: Id)
    requires w in s.passes && s.passes[w].run == run && Owned(s.t, run, w) && s.passes[w].pc.Failing?
    ensures !Settled(s, run)
  {
  }

  lemma CountsAfterFailure(t: Tables, op: Op, step: string, n: string)
    requires Consistent(t) && Allowed(t, op) && op.FailAttempt? && OwnedAttempt(t, op.run, op.worker, op.attempt)
    requires t.attempts[op.attempt].step == step
    ensures |Failures(Apply(t, op), op.run, n)| == |Failures(t, op.run, n)| + if n == step then 1 else 0
  {
    if n == step {
      FailingAddsOne(t, op);
    } else {
      OtherOpsFailNothing(t, op, op.run, n);
    }
  }

  /** One more failure of one step of an unsettled run keeps the bound, if the last one settles it. */
  lemma OneMoreIsBounded(s: Sys, s': Sys, run: Id, step: string, limit: string -> nat)
    requires Bounded(s, run, limit) && !Settled(s, run) && limit(step) >= 1
    requires forall n :: |Failures(s'.t, run, n)| == |Failures(s.t, run, n)| + if n == step then 1 else 0
    requires |Failures(s.t, run, step)| + 1 == limit(step) ==> Settled(s', run)
    ensures Bounded(s', run, limit)
  {
    forall n
      ensures |Failures(s'.t, run, n)| <= limit(n) && (Exhausted(s'.t, run, n, limit) ==> Settled(s', run))
    {
      assert !Exhausted(s.t, run, n, limit);
      assert |Failures(s.t, run, n)| <= limit(n);
    }
  }

  /** The failure itself: with the last one its pass is doomed. */
  lemma FailureIsBounded(s: Sys, s': Sys, w: Id, p: Pass, turn: Turn, limit: string -> nat, bound: string -> nat)
    requires Consistent(s.t) && Bounded(s, p.run, bound) && w in s.passes && s.passes[w] == p
    requires PassOk(s.t, w, p) && PcCapped(p, limit) && OwnerCounts(s.t, w, p) && forall n :: limit(n) <= bound(n)
    requires FailsWell(s.t, w, p, turn) && turn.op.Some? && turn.op.value.FailAttempt? && Allowed(s.t, turn.op.value)
    requires turn.next.value.run == p.run
    requires s'.t == Apply(s.t, turn.op.value) && w in s'.passes && s'.passes[w] == turn.next.value
    ensures Bounded(s', p.run, bound)
  {
    var step := p.pc.a.step;
    assert s.t.attempts[p.pc.a.id].step == step;
    forall n
      ensures |Failures(s'.t, p.run, n)| == |Failures(s.t, p.run, n)| + if n == step then 1 else 0
    {
      CountsAfterFailure(s.t, turn.op.value, step, n);
    }
    FailingIsNotSettled(s, p.run, w);
    if |Failures(s.t, p.run, step)| + 1 == bound(step) {
      LastFailureDooms(s, s', w, p, turn, limit);
    }
    OneMoreIsBounded(s, s', p.run, step, bound);
  }

  lemma LastFailureDooms(s: Sys, s': Sys, w: Id, p: Pass, turn: Turn, limit: string -> nat)
    requires p.pc.Failing? && PcCapped(p, limit) && OwnerCounts(s.t, w, p) && Owned(s.t, p.run, w)
    requires FailsWell(s.t, w, p, turn) && turn.op.Some? && turn.op.value.FailAttempt? && turn.next.value.run == p.run
    requires s'.t == Apply(s.t, turn.op.value) && w in s'.passes && s'.passes[w] == turn.next.value
    requires |Failures(s.t, p.run, p.pc.a.step)| + 1 >= limit(p.pc.a.step)
    ensures Settled(s', p.run)
  {
    assert DoomedOwner(s', p.run, w);
  }

  lemma FailureKeepsBounded(env: Env, s: Sys, w: Id, c: Choice, run: Id, limit: string -> nat, bound: string -> nat)
    requires Tracked(env, s, run, limit) && Bounded(s, run, bound) && Enabled(s, Go(w, c))
    requires !FailsNone(env, s, Go(w, c), run)
    requires forall n :: limit(n) <= bound(n)
    ensures Bounded(Effect(env, s, Go(w, c)), run, bound)
  {
    var p := s.passes[w];
    var turn := TurnOf(env, s.t, w, p, c);
    TurnIsOk(env, s.t, w, p, c);
    TurnFailsWell(env, s.t, w, p, c);
    assert PassTracked(env, s.t, w, p, run, limit);
    FailureIsBounded(s, Effect(env, s, Go(w, c)), w, p, turn, limit, bound);
  }

  lemma StepKeepsBounded(env: Env, s: Sys, l: Label, run: Id, limit: string -> nat, bound: string -> nat)
    requires Tracked(env, s, run, limit) && Bounded(s, run, bound) && Enabled(s, l) && Kept(s, l, run)
    requires UncaughtRun(env.fns(run)) && forall n :: limit(n) <= bound(n)
    ensures Bounded(Effect(env, s, l), run, bound)
  {
    if FailsNone(env, s, l, run) {
      QuietStepKeepsBounded(env, s, l, run, bound);
    } else {
      FailerActs(env, s, l);
      FailureKeepsBounded(env, s, l.worker, l.c, run, limit, bound);
    }
  }

  lemma FailerActs(env: Env, s: Sys, l: Label)
    requires Safe(s) && Enabled(s, l) && OpOf(env, s, l).Some? && OpOf(env, s, l).value.FailAttempt?
    ensures l.Go? && s.passes[l.worker].pc.Failing?
  {
    StepOp(env, s, l);
    TurnFailsWell(env, s.t, l.worker, s.passes[l.worker], l.c);
  }

  // ---- lost passes ----

  ghost function OneMore(bound: string -> nat): string -> nat {
    n => bound(n) + 1
  }

  /** A lost pass lets each step fail once more. */
  lemma LossRaisesBound(env: Env, s: Sys, l: Label, run: Id, bound: string -> nat)
    requires Safe(s) && Bounded(s, run, bound) && Enabled(s, l) && !Kept(s, l, run)
    ensures Bounded(Effect(env, s, l), run, OneMore(bound))
  {
    if !FailsNone(env, s, l, run) {
      FailerActs(env, s, l);
    }
    forall n
      ensures |Failures(Effect(env, s, l).t, run, n)| <= bound(n)
    {
      SameFailures(env, s, l, run, n);
    }
  }

  lemma OthersStayTracked(env: Env, s: Sys, l: Label, v: Id, run: Id, limit: string -> nat)
    requires Tracked(env, s, run, limit) && Enabled(s, l) && v in Effect(env, s, l).passes && !Acts(l, v)
    ensures PassTracked(env, Effect(env, s, l).t, v, Effect(env, s, l).passes[v], run, limit)
  {
    OthersUnmoved(env, s, l, v);
    StepOp(env, s, l);
    if OpOf(env, s, l).Some? {
      OthersKeepCounting(s.t, OpOf(env, s, l).value, v, s.passes[v]);
    }
  }

  lemma NewPassTracked(env: Env, t: Tables, w: Id, id: Id, registered: bool, run: Id, limit: string -> nat)
    requires RunsOk(t) && id in t.runs && t.runs[id].status == Running
    ensures PassTracked(env, t, w, NewPass(w, id, t.runs[id], registered), run, limit)
  {
  }

  lemma ActorStaysTracked(env: Env, s: Sys, w: Id, c: Choice, run: Id, limit: string -> nat)
    requires Tracked(env, s, run, limit) && Enabled(s, Go(w, c)) && CappedRun(env.fns(run), limit)
    ensures
      var turn := TurnOf(env, s.t, w, s.passes[w], c);
      turn.next.Some? ==> PassTracked(env, TablesAfter(s.t, turn), w, turn.next.value, run, limit)
  {
    var p := s.passes[w];
    TurnIsOk(env, s.t, w, p, c);
    ActorKeepsCounting(env, s.t, w, p, c);
    if TurnOf(env, s.t, w, p, c).next.Some? {
      TurnFollows(env, s.t, w, p, c);
      if p.run == run {
        TurnCapped(env, s.t, w, p, c, limit);
      }
    }
  }

  lemma StepKeepsTracked(env: Env, s: Sys, l: Label, run: Id, limit: string -> nat)
    requires Tracked(env, s, run, limit) && Enabled(s, l) && CappedRun(env.fns(run), limit)
    ensures Tracked(env, Effect(env, s, l), run, limit)
  {
    var s' := Effect(env, s, l);
    StepKeepsSafe(env, s, l);
    forall w | w in s'.passes
      ensures PassTracked(env, s'.t, w, s'.passes[w], run, limit)
    {
      if !Acts(l, w) {
        OthersStayTracked(env, s, l, w, run, limit);
      } else if l.Go? {
        ActorStaysTracked(env, s, w, l.c, run, limit);
      } else {
        NewPassTracked(env, s'.t, w, l.pick.value, l.registered, run, limit);
      }
    }
  }

  // ---- the main theorem ----

  /** The passes lost between a last failure and the transition of the run. */
  ghost function Losses(env: Env, s: Sys, labels: seq<Label>, run: Id): nat
    requires Runs(env, s, labels)
    decreases |labels|
  {
    if labels == [] then 0
    else (if Kept(s, labels[0], run) then 0 else 1) + Losses(env, Effect(env, s, labels[0]), labels[1..], run)
  }

  lemma {:induction false} StaysBounded(env: Env, s: Sys, labels: seq<Label>, run: Id, limit: string -> nat,
                                        bound: string -> nat, step: string)
    requires Tracked(env, s, run, limit) && Bounded(s, run, bound) && Runs(env, s, labels)
    requires UncaughtRun(env.fns(run)) && CappedRun(env.fns(run), limit) && forall n :: limit(n) <= bound(n)
    ensures
      var s', most := After(env, s, labels), bound(step) + Losses(env, s, labels, run);
      |Failures(s'.t, run, step)| <= most && (1 <= |Failures(s'.t, run, step)| == most ==> Settled(s', run))
    decreases |labels|
  {
    if labels == [] {
      assert Exhausted(s.t, run, step, bound) ==> Settled(s, run);
    } else {
      StepKeepsTracked(env, s, labels[0], run, limit);
      if Kept(s, labels[0], run) {
        StepKeepsBounded(env, s, labels[0], run, limit, bound);
        StaysBounded(env, Effect(env, s, labels[0]), labels[1..], run, limit, bound, step);
      } else {
        LossRaisesBound(env, s, labels[0], run, bound);
        StaysBounded(env, Effect(env, s, labels[0]), labels[1..], run, limit, OneMore(bound), step);
      }
    }
  }

  /**
    * From empty tables, over every interleaving: each step has failed at most as often as its limit allows, and once
    * more for each pass lost between a last failure and the run's transition; and when it has used that up
    * the run has ended or its owner is about to fail it.
    */
  lemma FailuresAreBounded(env: Env, now: Time, labels: seq<Label>, run: Id, limit: string -> nat, step: string)
    requires Runs(env, Initial(now), labels) && UncaughtRun(env.fns(run)) && CappedRun(env.fns(run), limit)
    ensures
      var s, most := After(env, Initial(now), labels), limit(step) + Losses(env, Initial(now), labels, run);
      |Failures(s.t, run, step)| <= most && (1 <= |Failures(s.t, run, step)| == most ==> Settled(s, run))
  {
    var s := Initial(now);
    NothingRunsYet(now);
    forall n
      ensures Failures(s.t, run, n) == {}
    {
    }
    StaysBounded(env, s, labels, run, limit, limit, step);
  }
}
