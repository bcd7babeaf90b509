/** How a pass leaves its run: what the function did last decides the row, with its delay and its error. */
module Endings {
  import opened Graphs
  import opened Workflows
  import opened Retry
  import opened Store
  import opened Lifecycle
  import opened Replay
  import opened ReplayProofs
  import opened ReplaySafety
  import ReplayTraces
  import StepNames
  import StepResults
  import WakeUp
  import RunResults
  import opened RetryBound

  // ---- rows ----

  /** The n-th delay of a policy: exponential from the initial interval, capped, in whole milliseconds. */
  function Delay(policy: Policy, n: int): int {
    var grown := policy.initialInterval as real * Power(policy.coefficient, if n <= 1 then 0 else n - 1);
    (if grown <= policy.maximumInterval as real then grown else policy.maximumInterval as real).Floor
  }

  /** Back in the queue: due at the time, with the error, held by nobody. */
  ghost predicate Queued(r: Run, r': Run, at: Time, error: Value) {
    r' == r.(status := Pending, worker := None, availableAt := Some(at), finishedAt := None, startedAt := None,
             error := error)
  }

  ghost predicate FailedFor(r: Run, r': Run, now: Time, error: Value) {
    r' == r.(status := Failed, worker := None, availableAt := None, finishedAt := Some(now), startedAt := None,
             error := error)
  }

  predicate DeadlineBy(r: Run, at: Time) {
    r.deadlineAt.Some? && r.deadlineAt.value <= at
  }

  /**
    * A failure that is the n-th try's: the run goes back into the queue for the n-th delay after the decision, unless
    * the tries are used up or that is not before its deadline; then it has failed for good. The decision is written a
    * while after it is made.
    */
  ghost predicate Decides(r: Run, r': Run, policy: Policy, n: int, decided: Time, written: Time, error: Value) {
    var at := decided + Delay(policy, n);
    if (policy.maximumAttempts > 0 && n >= policy.maximumAttempts) || DeadlineBy(r, decided) || DeadlineBy(r, at) then
      FailedFor(r, r', written, if DeadlineBy(r, written) then DEADLINE_EXCEEDED else error)
    else Queued(r, r', at, error)
  }

  // ---- a pass knows its run's deadline ----

  ghost predicate DeadlineKnown(t: Tables, p: Pass) {
    p.run in t.runs && p.deadlineAt == t.runs[p.run].deadlineAt
  }

  ghost predicate DeadlinesKnown(s: Sys) {
    forall w :: w in s.passes ==> DeadlineKnown(s.t, s.passes[w])
  }

  lemma CallKeepsDeadline(p: Pass, step: string, action: Action, c: Choice)
    requires action.Step?
    ensures CallTurn(p, step, action, c).next.value.deadlineAt == p.deadlineAt
  {
  }

  lemma StepKeepsDeadline(env: Env, t: Tables, w: Id, p: Pass, c: Choice)
    requires !p.pc.Deciding? && TurnOf(env, t, w, p, c).next.Some?
    ensures TurnOf(env, t, w, p, c).next.value.deadlineAt == p.deadlineAt
  {
  }

  lemma TurnKeepsDeadline(env: Env, t: Tables, w: Id, p: Pass, c: Choice)
    requires TurnOf(env, t, w, p, c).next.Some?
    ensures TurnOf(env, t, w, p, c).next.value.deadlineAt == p.deadlineAt
  {
    if p.pc.Deciding? {
      var action := FnOf(env, p)(p.outs);
      if action.Step? {
        CallKeepsDeadline(p, StepNames.Resolved(Elems(p.names), action.base), action, c);
      }
    } else {
      StepKeepsDeadline(env, t, w, p, c);
    }
  }

  lemma StepKeepsDeadlines(env: Env, s: Sys, l: Label)
    requires Safe(s) && DeadlinesKnown(s) && Enabled(s, l)
    ensures DeadlinesKnown(Effect(env, s, l))
  {
    var s' := Effect(env, s, l);
    StepMoves(env, s, l);
    forall w | w in s'.passes
      ensures DeadlineKnown(s'.t, s'.passes[w])
    {
      if !Acts(l, w) {
        OthersUnmoved(env, s, l, w);
      } else if l.Go? {
        TurnIsOk(env, s.t, w, s.passes[w], l.c);
        TurnKeepsDeadline(env, s.t, w, s.passes[w], l.c);
      }
    }
  }

  /** What every reachable state keeps for the end of a pass. */
  ghost predicate Orderly(s: Sys) {
    Safe(s) && DeadlinesKnown(s) && RunResults.OwnersAreLast(s)
  }

  lemma {:induction false} StaysOrderly(env: Env, s: Sys, labels: seq<Label>)
    requires Orderly(s) && Runs(env, s, labels)
    ensures Orderly(After(env, s, labels))
    decreases |labels|
  {
    if labels != [] {
      StepKeepsSafe(env, s, labels[0]);
      StepKeepsDeadlines(env, s, labels[0]);
      RunResults.StepKeepsLast(env, s, labels[0]);
      StaysOrderly(env, Effect(env, s, labels[0]), labels[1..]);
    }
  }

  lemma ReachableIsOrderly(env: Env, now: Time, labels: seq<Label>)
    requires Runs(env, Initial(now), labels)
    ensures Orderly(After(env, Initial(now), labels))
  {
    NothingRunsYet(now);
    StaysOrderly(env, Initial(now), labels);
  }

  // ---- from the decision to the row ----

  /** Steps of others, among them neither a crash of this worker nor a claim by it. */
  ghost predicate Others(labels: seq<Label>, w: Id) {
    forall l :: l in labels ==> !Acts(l, w) && l != Crash(w)
  }

  lemma {:induction false} StandsStill(env: Env, s: Sys, labels: seq<Label>, w: Id)
    requires Runs(env, s, labels) && Others(labels, w) && w in s.passes
    ensures
      var s' := After(env, s, labels);
      w in s'.passes && s'.passes[w] == s.passes[w]
    decreases |labels|
  {
    if labels != [] {
      assert labels[0] in labels;
      var s1 := Effect(env, s, labels[0]);
      assert w in s1.passes;
      OthersUnmoved(env, s, labels[0], w);
      StandsStill(env, s1, labels[1..], w);
    }
  }

  /** The pass decides in s, others make steps, and then its last call is accepted while it still owns the run. */
  ghost predicate Finishes(env: Env, s: Sys, w: Id, c: Choice, others: seq<Label>, last: Choice) {
    && w in s.passes && s.passes[w].pc.Deciding? && Others(others, w)
    && Runs(env, Effect(env, s, Go(w, c)), others)
    && Owned(After(env, Effect(env, s, Go(w, c)), others).t, s.passes[w].run, w) && last.ok
    && !FnOf(env, s.passes[w])(s.passes[w].outs).Step?
  }

  /** The state in which the last call is made. */
  ghost function AtLast(env: Env, s: Sys, w: Id, c: Choice, others: seq<Label>): Sys
    requires w in s.passes && s.passes[w].pc.Deciding? && Runs(env, Effect(env, s, Go(w, c)), others)
  {
    After(env, Effect(env, s, Go(w, c)), others)
  }

  /** The pass stands where the decision put it, in a state that is still orderly. */
  lemma StandsAtLast(env: Env, s: Sys, w: Id, c: Choice, others: seq<Label>, last: Choice)
    requires Orderly(s) && Finishes(env, s, w, c, others, last)
    ensures
      var s2 := AtLast(env, s, w, c, others);
      && Orderly(s2) && w in s2.passes && s2.passes[w] == DecideTurn(env, s.t, w, s.passes[w], c).next.value
      && s2.passes[w].run == s.passes[w].run && s2.passes[w].claims == s.passes[w].claims
      && s2.passes[w].deadlineAt == s.passes[w].deadlineAt && s2.t.now >= s.t.now
  {
    var p, s1 := s.passes[w], Effect(env, s, Go(w, c));
    StepKeepsSafe(env, s, Go(w, c));
    StepKeepsDeadlines(env, s, Go(w, c));
    RunResults.StepKeepsLast(env, s, Go(w, c));
    StaysOrderly(env, s1, others);
    StandsStill(env, s1, others, w);
    StepMoves(env, s, Go(w, c));
    AttemptsOnlyMove(env, s1, others);
    TurnKeepsDeadline(env, s.t, w, p, c);
    TurnIsOk(env, s.t, w, p, c);
  }

  /** The last call is the operation that the decision named, on a row that still has the run's deadline and claims. */
  lemma LastCall(env: Env, s: Sys, w: Id, c: Choice, others: seq<Label>, last: Choice)
    requires Orderly(s) && Finishes(env, s, w, c, others, last)
    ensures
      var p, s2 := s.passes[w], AtLast(env, s, w, c, others);
      var q := DecideTurn(env, s.t, w, p, c).next.value;
      && q.pc.Ending? && Enabled(s2, Go(w, last)) && p.run in s2.t.runs
      && s2.t.runs[p.run].deadlineAt == p.deadlineAt && s2.t.runs[p.run].attempts == p.claims && p.claims >= 1
      && Effect(env, s2, Go(w, last)).t == Apply(s2.t, q.pc.op) && s2.t.now >= s.t.now
      && p.run in Effect(env, s2, Go(w, last)).t.runs
  {
    var s2 := AtLast(env, s, w, c, others);
    StandsAtLast(env, s, w, c, others, last);
    DecisionEnds(env, s.t, w, s.passes[w], c);
    LastTurn(env, s2, w, s2.passes[w], last);
    StepMoves(env, s2, Go(w, last));
    assert RunResults.LastClaim(s2.t, w, s2.passes[w]);
    assert DeadlineKnown(s2.t, s2.passes[w]);
    assert RunOk(s2.t.runs[s.passes[w].run], s2.t.now);
  }

  lemma DecisionEnds(env: Env, t: Tables, w: Id, p: Pass, c: Choice)
    requires !FnOf(env, p)(p.outs).Step?
    ensures DecideTurn(env, t, w, p, c).next.value.pc.Ending?
  {
  }

  lemma LastTurn(env: Env, s: Sys, w: Id, p: Pass, last: Choice)
    requires w in s.passes && s.passes[w] == p && p.pc.Ending? && last.ok && Enabled(s, Go(w, last))
    ensures Effect(env, s, Go(w, last)).t == Apply(s.t, p.pc.op)
  {
  }

  // ---- what the last call does ----

  lemma FailsOrQueues(t: Tables, run: Id, w: Id, error: Value, policy: Policy, n: int, deadlineAt: Option<Time>)
    requires Owned(t, run, w) && t.runs[run].deadlineAt == deadlineAt
    ensures
      var t' := Apply(t, FailRun(run, w, error, policy, n, deadlineAt));
      run in t'.runs && Decides(t.runs[run], t'.runs[run], policy, n, t.now, t.now, error)
  {
    DelayWritten(policy, n);
  }

  lemma DelayWritten(policy: Policy, n: int)
    ensures BackoffDelay(policy, n).Floor == Delay(policy, n)
  {
  }

  /** One try, which is used up. */
  lemma OneTryFails(t: Tables, run: Id, w: Id, error: Value, n: int, deadlineAt: Option<Time>)
    requires Owned(t, run, w) && t.runs[run].deadlineAt == deadlineAt && n >= 1
    ensures
      var t' := Apply(t, FailRun(run, w, error, TERMINAL_POLICY, n, deadlineAt));
      && run in t'.runs
      && FailedFor(t.runs[run], t'.runs[run], t.now,
                   if DeadlineBy(t.runs[run], t.now) then DEADLINE_EXCEEDED else error)
  {
  }

  lemma QueuesAt(t: Tables, run: Id, w: Id, at: Time, error: Value)
    requires Owned(t, run, w)
    ensures
      var t' := Apply(t, Reschedule(run, w, at, error));
      run in t'.runs && Queued(t.runs[run], t'.runs[run], at, error)
  {
  }

  ghost predicate LastOutcome(p: Pass, out: Outcome) {
    p.outs != [] && p.outs[|p.outs| - 1] == out
  }

  /** The call that a step error leads to. */
  lemma StepErrorOp(env: Env, t: Tables, w: Id, p: Pass, n: nat, policy: Policy, error: Value)
    requires LastOutcome(p, Raised(StepFailure(n, policy, error)))
    ensures
      var at := t.now + Delay(policy, n);
      var op := PropagateOp(env, t, w, p);
      if (policy.maximumAttempts > 0 && n >= policy.maximumAttempts)
         || (p.deadlineAt.Some? && (p.deadlineAt.value <= t.now || p.deadlineAt.value <= at)) then
        op == FailRun(p.run, w, error, TERMINAL_POLICY, p.claims, p.deadlineAt)
      else op == Reschedule(p.run, w, at, error)
  {
    DelayWritten(policy, n);
  }

  lemma StepErrorRow(env: Env, t: Tables, t': Tables, w: Id, p: Pass, n: nat, policy: Policy, error: Value)
    requires LastOutcome(p, Raised(StepFailure(n, policy, error))) && Owned(t', p.run, w) && p.claims >= 1
    requires t'.runs[p.run].deadlineAt == p.deadlineAt
    ensures
      var after := Apply(t', PropagateOp(env, t, w, p));
      p.run in after.runs && Decides(t'.runs[p.run], after.runs[p.run], policy, n, t.now, t'.now, error)
  {
    StepErrorOp(env, t, w, p, n, policy, error);
    OneTryFails(t', p.run, w, error, p.claims, p.deadlineAt);
    QueuesAt(t', p.run, w, t.now + Delay(policy, n), error);
  }

  // ---- what each way to end leaves ----

  /** The call with which the pass ends. */
  ghost function OpAfter(env: Env, s: Sys, w: Id, c: Choice): Op
    requires w in s.passes && s.passes[w].pc.Deciding? && !FnOf(env, s.passes[w])(s.passes[w].outs).Step?
  {
    DecideTurn(env, s.t, w, s.passes[w], c).next.value.pc.op
  }

  /** The row that the pass leaves. */
  ghost function Left(env: Env, s: Sys, w: Id, c: Choice, others: seq<Label>, last: Choice): Run
    requires Orderly(s) && Finishes(env, s, w, c, others, last)
  {
    LastCall(env, s, w, c, others, last);
    Effect(env, AtLast(env, s, w, c, others), Go(w, last)).t.runs[s.passes[w].run]
  }

  /** The row before that. */
  ghost function Held(env: Env, s: Sys, w: Id, c: Choice, others: seq<Label>, last: Choice): Run
    requires Orderly(s) && Finishes(env, s, w, c, others, last)
  {
    AtLast(env, s, w, c, others).t.runs[s.passes[w].run]
  }

  /** Where the run stands before and after the last call. */
  lemma LeftByOp(env: Env, s: Sys, w: Id, c: Choice, others: seq<Label>, last: Choice)
    returns (t: Tables, run: Id, op: Op)
    requires Orderly(s) && Finishes(env, s, w, c, others, last)
    ensures t == AtLast(env, s, w, c, others).t && run == s.passes[w].run && op == OpAfter(env, s, w, c)
    ensures FnOf(env, s.passes[w])(s.passes[w].outs).Propagate? ==> op == PropagateOp(env, s.t, w, s.passes[w])
    ensures Owned(t, run, w) && run in Apply(t, op).runs
    ensures Held(env, s, w, c, others, last) == t.runs[run]
    ensures Left(env, s, w, c, others, last) == Apply(t, op).runs[run]
    ensures
      && t.runs[run].deadlineAt == s.passes[w].deadlineAt && t.runs[run].attempts == s.passes[w].claims
      && s.passes[w].claims >= 1 && t.now >= s.t.now
  {
    LastCall(env, s, w, c, others, last);
    t, run, op := AtLast(env, s, w, c, others).t, s.passes[w].run, OpAfter(env, s, w, c);
  }

  /**
    * The function lets a step's error out: the run waits for the delay that the step's policy sets for its failures so
    * far, counted from the decision, or fails for good.
    */
  lemma StepErrorIsRetried(env: Env, s: Sys, w: Id, c: Choice, others: seq<Label>, last: Choice, n: nat, policy: Policy,
                           error: Value)
    requires Orderly(s) && Finishes(env, s, w, c, others, last) && FnOf(env, s.passes[w])(s.passes[w].outs).Propagate?
    requires LastOutcome(s.passes[w], Raised(StepFailure(n, policy, error)))
    ensures Decides(Held(env, s, w, c, others, last), Left(env, s, w, c, others, last), policy, n, s.t.now,
                    AtLast(env, s, w, c, others).t.now, error)
  {
    var t, run, op := LeftByOp(env, s, w, c, others, last);
    StepErrorRow(env, s.t, t, w, s.passes[w], n, policy, error);
  }

  /** The function throws: the run's own policy decides, by the number of its claims, when the call is made. */
  lemma ThrownErrorIsRetried(env: Env, s: Sys, w: Id, c: Choice, others: seq<Label>, last: Choice)
    requires Orderly(s) && Finishes(env, s, w, c, others, last) && FnOf(env, s.passes[w])(s.passes[w].outs).Throw?
    ensures
      var r, now := Held(env, s, w, c, others, last), AtLast(env, s, w, c, others).t.now;
      Decides(r, Left(env, s, w, c, others, last), env.policies(s.passes[w].run), r.attempts, now, now,
              FnOf(env, s.passes[w])(s.passes[w].outs).error)
  {
    var t, run, op := LeftByOp(env, s, w, c, others, last);
    FailsOrQueues(t, run, w, op.error, op.policy, op.attempts, op.deadlineAt);
  }

  /** So does an error that the runtime itself raised in a step call. */
  lemma RuntimeErrorIsRetried(env: Env, s: Sys, w: Id, c: Choice, others: seq<Label>, last: Choice, message: string)
    requires Orderly(s) && Finishes(env, s, w, c, others, last) && FnOf(env, s.passes[w])(s.passes[w].outs).Propagate?
    requires LastOutcome(s.passes[w], Raised(Unexpected(message)))
    ensures
      var r, now := Held(env, s, w, c, others, last), AtLast(env, s, w, c, others).t.now;
      Decides(r, Left(env, s, w, c, others, last), env.policies(s.passes[w].run), r.attempts, now, now,
              Record([("message", Text(message))]))
  {
    var t, run, op := LeftByOp(env, s, w, c, others, last);
    FailsOrQueues(t, run, w, op.error, op.policy, op.attempts, op.deadlineAt);
  }

  /** A run that has too many steps fails for good. */
  lemma LimitFailsForGood(env: Env, s: Sys, w: Id, c: Choice, others: seq<Label>, last: Choice)
    requires Orderly(s) && Finishes(env, s, w, c, others, last) && FnOf(env, s.passes[w])(s.passes[w].outs).Propagate?
    requires LastOutcome(s.passes[w], Raised(LimitExceeded))
    ensures
      var r, now := Held(env, s, w, c, others, last), AtLast(env, s, w, c, others).t.now;
      FailedFor(r, Left(env, s, w, c, others, last), now,
                if DeadlineBy(r, now) then DEADLINE_EXCEEDED else LIMIT_ERROR)
  {
    var t, run, op := LeftByOp(env, s, w, c, others, last);
    LimitOp(env, s.t, w, s.passes[w]);
    OneTryFails(t, run, w, LIMIT_ERROR, s.passes[w].claims, s.passes[w].deadlineAt);
  }

  lemma LimitOp(env: Env, t: Tables, w: Id, p: Pass)
    requires LastOutcome(p, Raised(LimitExceeded))
    ensures PropagateOp(env, t, w, p) == FailRun(p.run, w, LIMIT_ERROR, TERMINAL_POLICY, p.claims, p.deadlineAt)
  {
  }

  /** The function returns: the run is completed with its result. */
  lemma ResultCompletes(env: Env, s: Sys, w: Id, c: Choice, others: seq<Label>, last: Choice)
    requires Orderly(s) && Finishes(env, s, w, c, others, last) && FnOf(env, s.passes[w])(s.passes[w].outs).Finish?
    ensures
      var result := FnOf(env, s.passes[w])(s.passes[w].outs).output;
      Left(env, s, w, c, others, last)
      == Held(env, s, w, c, others, last).(
           status := Completed, output := if result == Undefined then Null else result, error := Null,
           availableAt := None, finishedAt := Some(AtLast(env, s, w, c, others).t.now))
  {
    var t, run, op := LeftByOp(env, s, w, c, others, last);
  }

  // ---- which policy a step's error carries ----

  /** A function step has the policy of its call; any other step is tried once. */
  function PolicyOf(action: Action): Policy
    requires action.Step?
  {
    if action.kind == FunctionStep then action.policy else Policy(1000, 2.0, 100000, 1)
  }

  predicate InOtherStep(pc: Pc) {
    pc.Linking? || pc.Binding? || pc.Watching? || pc.Sending? || pc.Receiving?
  }

  /** The policy that the pass holds for the step in progress is that of the call. */
  ghost predicate HoldsPolicy(pc: Pc, action: Action) {
    && (pc.Executing? ==> action.Step? && action.kind == FunctionStep && pc.policy == PolicyOf(action))
    && (InOtherStep(pc) ==> action.Step? && action.kind != FunctionStep)
    && (pc.Completing? && pc.onError.Some? ==> action.Step? && pc.onError.value == PolicyOf(action))
    && (pc.Failing? ==> action.Step? && pc.policy == PolicyOf(action))
  }

  ghost predicate CarriesPolicy(out: Outcome, action: Action) {
    out.Raised? && out.problem.StepFailure? ==> action.Step? && out.problem.policy == PolicyOf(action)
  }

  /** And so does each step error that the function was given. */
  ghost predicate Governed(fn: WorkflowFn, p: Pass) {
    && HoldsPolicy(p.pc, fn(p.outs))
    && forall k :: 0 <= k < |p.outs| ==> CarriesPolicy(p.outs[k], fn(p.outs[..k]))
  }

  /** What a turn may do to a governed pass: go on inside the step, or answer the call. */
  ghost predicate TurnGoverned(fn: WorkflowFn, p: Pass, p': Pass) {
    || (p'.outs == p.outs && HoldsPolicy(p'.pc, fn(p.outs)))
    || (p'.pc.Deciding? && |p'.outs| == |p.outs| + 1 && p'.outs[..|p.outs|] == p.outs
        && CarriesPolicy(p'.outs[|p.outs|], fn(p.outs)))
  }

  lemma StaysGoverned(fn: WorkflowFn, p: Pass, p': Pass)
    requires Governed(fn, p) && TurnGoverned(fn, p, p')
    ensures Governed(fn, p')
  {
    if p'.outs != p.outs {
      forall k | 0 <= k < |p'.outs|
        ensures CarriesPolicy(p'.outs[k], fn(p'.outs[..k]))
      {
        assert p'.outs[..k] == p.outs[..k];
        assert k < |p.outs| ==> p'.outs[k] == p.outs[k];
      }
    }
  }

  lemma CallGoverned(fn: WorkflowFn, p: Pass, step: string, c: Choice)
    requires fn(p.outs).Step?
    ensures TurnGoverned(fn, p, CallTurn(p, step, fn(p.outs), c).next.value)
  {
  }

  lemma CreateGoverned(fn: WorkflowFn, t: Tables, w: Id, p: Pass, c: Choice)
    requires p.pc.Creating? && p.pc.action == fn(p.outs)
    ensures TurnGoverned(fn, p, CreateTurn(t, w, p, c).next.value)
  {
  }

  lemma LinkGoverned(fn: WorkflowFn, t: Tables, w: Id, p: Pass, c: Choice)
    requires (p.pc.Linking? || p.pc.Binding?) && HoldsPolicy(p.pc, fn(p.outs))
    ensures TurnGoverned(fn, p, if p.pc.Linking? then LinkTurn(t, p, c).next.value else BindTurn(t, w, p, c).next.value)
  {
  }

  lemma WaitGoverned(env: Env, fn: WorkflowFn, t: Tables, w: Id, p: Pass, c: Choice)
    requires (p.pc.Watching? || p.pc.Receiving? || p.pc.Sending? || p.pc.Executing?) && HoldsPolicy(p.pc, fn(p.outs))
    ensures TurnGoverned(fn, p, TurnOf(env, t, w, p, c).next.value)
  {
  }

  lemma CloseGoverned(env: Env, fn: WorkflowFn, t: Tables, w: Id, p: Pass, c: Choice)
    requires (p.pc.Completing? || p.pc.Failing?) && HoldsPolicy(p.pc, fn(p.outs))
    ensures TurnGoverned(fn, p, TurnOf(env, t, w, p, c).next.value)
  {
  }

  lemma RestGoverned(env: Env, fn: WorkflowFn, t: Tables, w: Id, p: Pass, c: Choice)
    requires p.pc.Loading? || p.pc.PrePass? || p.pc.Ending? || p.pc.Waking?
    requires TurnOf(env, t, w, p, c).next.Some?
    ensures TurnGoverned(fn, p, TurnOf(env, t, w, p, c).next.value)
  {
  }

  lemma ActorGoverned(env: Env, t: Tables, w: Id, p: Pass, c: Choice)
    requires ReplayTraces.Follows(FnOf(env, p), p) && Governed(FnOf(env, p), p) && TurnOf(env, t, w, p, c).next.Some?
    ensures TurnGoverned(FnOf(env, p), p, TurnOf(env, t, w, p, c).next.value)
  {
    var fn := FnOf(env, p);
    match p.pc
    case Deciding =>
      if fn(p.outs).Step? {
        CallGoverned(fn, p, StepNames.Resolved(Elems(p.names), fn(p.outs).base), c);
      }
    case Creating(_, _) => CreateGoverned(fn, t, w, p, c);
    case Linking(_, _, _, _) => LinkGoverned(fn, t, w, p, c);
    case Binding(_, _, _) => LinkGoverned(fn, t, w, p, c);
    case Completing(_, _, _) => CloseGoverned(env, fn, t, w, p, c);
    case Failing(_, _, _) => CloseGoverned(env, fn, t, w, p, c);
    case Loading => RestGoverned(env, fn, t, w, p, c);
    case PrePass(_, _) => RestGoverned(env, fn, t, w, p, c);
    case Ending(_) => RestGoverned(env, fn, t, w, p, c);
    case Waking => RestGoverned(env, fn, t, w, p, c);
    case _ => WaitGoverned(env, fn, t, w, p, c);
  }

  ghost predicate AllGoverned(env: Env, s: Sys) {
    forall w :: w in s.passes ==> Governed(FnOf(env, s.passes[w]), s.passes[w])
  }

  lemma StepKeepsGoverned(env: Env, s: Sys, l: Label)
    requires Safe(s) && StepResults.AllReady(env, s) && AllGoverned(env, s) && Enabled(s, l)
    ensures AllGoverned(env, Effect(env, s, l))
  {
    var s' := Effect(env, s, l);
    forall w | w in s'.passes
      ensures Governed(FnOf(env, s'.passes[w]), s'.passes[w])
    {
      if !Acts(l, w) {
        OthersUnmoved(env, s, l, w);
      } else if l.Go? {
        TurnIsOk(env, s.t, w, s.passes[w], l.c);
        ActorGoverned(env, s.t, w, s.passes[w], l.c);
        StaysGoverned(FnOf(env, s.passes[w]), s.passes[w], s'.passes[w]);
      }
    }
  }

  lemma {:induction false} StayGoverned(env: Env, s: Sys, labels: seq<Label>)
    requires Safe(s) && StepResults.AllReady(env, s) && AllGoverned(env, s) && Runs(env, s, labels)
    ensures AllGoverned(env, After(env, s, labels))
    decreases |labels|
  {
    if labels != [] {
      StepKeepsSafe(env, s, labels[0]);
      StepResults.StepKeepsReady(env, s, labels[0]);
      StepKeepsGoverned(env, s, labels[0]);
      StayGoverned(env, Effect(env, s, labels[0]), labels[1..]);
    }
  }

  /** In every state that workers reach, each step error that a function was given carries the policy of its call. */
  lemma ErrorsCarryTheirPolicy(env: Env, now: Time, labels: seq<Label>)
    requires Runs(env, Initial(now), labels)
    ensures AllGoverned(env, After(env, Initial(now), labels))
  {
    NothingRunsYet(now);
    StayGoverned(env, Initial(now), labels);
  }

  /**
    * A failure that its owner stores is told to the function as the step's n-th, where n is the number of failed
    * attempts of the step in the table, this one included.
    */
  lemma FailureIsCounted(env: Env, now: Time, labels: seq<Label>, w: Id, c: Choice)
    requires Runs(env, Initial(now), labels) && w in After(env, Initial(now), labels).passes
    requires
      var s := After(env, Initial(now), labels);
      var p := s.passes[w];
      p.pc.Failing? && c.ok && OwnedAttempt(s.t, p.run, w, p.pc.a.id)
    ensures
      var s := After(env, Initial(now), labels);
      var p, s' := s.passes[w], Effect(env, s, Go(w, c));
      && w in s'.passes && s'.passes[w].pc.Deciding?
      && LastOutcome(s'.passes[w],
                     Raised(StepFailure(|Failures(s'.t, p.run, p.pc.a.step)|, p.pc.policy, p.pc.failure)))
      && p.pc.a.id in s'.t.attempts
      && s'.t.attempts[p.pc.a.id]
         == s.t.attempts[p.pc.a.id].(status := StepFailed, output := Null, error := p.pc.failure)
  {
    var s := After(env, Initial(now), labels);
    NothingRunsYet(now);
    StaysSafe(env, Initial(now), labels);
    KeepCounting(env, Initial(now), labels);
    FailureTurn(env, s, w, c);
  }

  lemma FailureTurn(env: Env, s: Sys, w: Id, c: Choice)
    requires Safe(s) && AllCount(s) && w in s.passes && s.passes[w].pc.Failing? && c.ok
    requires OwnedAttempt(s.t, s.passes[w].run, w, s.passes[w].pc.a.id)
    ensures
      var p, s' := s.passes[w], Effect(env, s, Go(w, c));
      && w in s'.passes && s'.passes[w].pc.Deciding?
      && LastOutcome(s'.passes[w],
                     Raised(StepFailure(|Failures(s'.t, p.run, p.pc.a.step)|, p.pc.policy, p.pc.failure)))
      && p.pc.a.id in s'.t.attempts
      && s'.t.attempts[p.pc.a.id]
         == s.t.attempts[p.pc.a.id].(status := StepFailed, output := Null, error := p.pc.failure)
  {
    var p := s.passes[w];
    var op := FailAttempt(p.run, w, p.pc.a.id, p.pc.failure);
    assert OwnerCounts(s.t, w, p);
    assert FailTurn(s.t, w, p, c).op == Some(op);
    assert WakeUp.LinkOk(p.pc.a.id, s.t.attempts[p.pc.a.id], s.t.runs);
    FailingAddsOne(s.t, op);
  }

  /** The pass stores a failure of the step in hand, and some time later its function ends on that error. */
  ghost predicate FailsAndEnds(env: Env, s: Sys, w: Id, fail: Choice, between: seq<Label>, c: Choice,
                               others: seq<Label>, last: Choice)
  {
    && w in s.passes && s.passes[w].pc.Failing? && fail.ok
    && OwnedAttempt(s.t, s.passes[w].run, w, s.passes[w].pc.a.id)
    && Others(between, w) && Runs(env, Effect(env, s, Go(w, fail)), between)
    && var s' := After(env, Effect(env, s, Go(w, fail)), between);
       && Finishes(env, s', w, c, others, last)
       && FnOf(env, s'.passes[w])(s'.passes[w].outs).Propagate?
  }

  /**
    * From the failure of a step to the row: the run is tried again after as many of the delays that the policy of the
    * call sets as the step has failed attempts, unless these are all its tries or the deadline comes first.
    */
  lemma FailedStepIsRetried(env: Env, now: Time, labels: seq<Label>, w: Id, fail: Choice, between: seq<Label>,
                            c: Choice, others: seq<Label>, last: Choice)
    requires Runs(env, Initial(now), labels)
    requires FailsAndEnds(env, After(env, Initial(now), labels), w, fail, between, c, others, last)
    ensures
      var s := After(env, Initial(now), labels);
      var s1 := Effect(env, s, Go(w, fail));
      var p, s2 := s.passes[w], After(env, s1, between);
      && FnOf(env, p)(p.outs).Step? && Orderly(s2)
      && Decides(Held(env, s2, w, c, others, last), Left(env, s2, w, c, others, last), PolicyOf(FnOf(env, p)(p.outs)),
                 |Failures(s1.t, p.run, p.pc.a.step)|, s2.t.now, AtLast(env, s2, w, c, others).t.now, p.pc.failure)
  {
    var s := After(env, Initial(now), labels);
    var s1 := Effect(env, s, Go(w, fail));
    var p := s.passes[w];
    ReachableIsOrderly(env, now, labels);
    ErrorsCarryTheirPolicy(env, now, labels);
    assert Governed(FnOf(env, p), p);
    FailureIsCounted(env, now, labels, w, fail);
    StepKeepsSafe(env, s, Go(w, fail));
    StepKeepsDeadlines(env, s, Go(w, fail));
    RunResults.StepKeepsLast(env, s, Go(w, fail));
    StaysOrderly(env, s1, between);
    StandsStill(env, s1, between, w);
    StepErrorIsRetried(env, After(env, s1, between), w, c, others, last, |Failures(s1.t, p.run, p.pc.a.step)|,
                       p.pc.policy, p.pc.failure);
  }

  // ---- runs that nobody here can run, and runs with too many steps ----

  /** A claimed run without a registered function is tried again later, however often it was claimed. */
  lemma UnregisteredIsRetried(env: Env, s: Sys, w: Id, lease: int, run: Id, others: seq<Label>, last: Choice)
    requires Orderly(s) && Enabled(s, Start(w, lease, Some(run), false)) && Others(others, w)
    requires Runs(env, Effect(env, s, Start(w, lease, Some(run), false)), others) && last.ok
    requires Owned(After(env, Effect(env, s, Start(w, lease, Some(run), false)), others).t, run, w)
    ensures
      var s2 := After(env, Effect(env, s, Start(w, lease, Some(run), false)), others);
      && Enabled(s2, Go(w, last)) && run in Effect(env, s2, Go(w, last)).t.runs
      && Decides(s2.t.runs[run], Effect(env, s2, Go(w, last)).t.runs[run], Policy(5000, 2.0, 300000, 0),
                 s2.t.runs[run].attempts, s2.t.now, s2.t.now, Record([("message", Text("not registered"))]))
  {
    var l := Start(w, lease, Some(run), false);
    var s1 := Effect(env, s, l);
    StepKeepsSafe(env, s, l);
    StepKeepsDeadlines(env, s, l);
    RunResults.StepKeepsLast(env, s, l);
    StaysOrderly(env, s1, others);
    StandsStill(env, s1, others, w);
    var s2 := After(env, s1, others);
    var op := s2.passes[w].pc.op;
    assert RunResults.LastClaim(s2.t, w, s2.passes[w]) && DeadlineKnown(s2.t, s2.passes[w]);
    LastTurn(env, s2, w, s2.passes[w], last);
    FailsOrQueues(s2.t, run, w, op.error, op.policy, op.attempts, op.deadlineAt);
  }

  /** A pass counts the attempts that it loaded and each one that it inserts, and stops at a thousand. */
  lemma CountsItsAttempts(env: Env, t: Tables, w: Id, p: Pass, c: Choice)
    requires PassOk(t, w, p) && TurnOf(env, t, w, p, c).next.Some?
    ensures
      var turn := TurnOf(env, t, w, p, c);
      if p.pc.Loading? then
        if |c.rows| <= 1000 then turn.next.value.count == |c.rows| else turn.next.value.pc.Ending?
      else if turn.op.Some? && turn.op.value.CreateAttempt? then p.count < 1000 && turn.next.value.count == p.count + 1
      else turn.next.value.count == p.count
  {
    match p.pc
    case Deciding =>
      if FnOf(env, p)(p.outs).Step? {
        CallCountsNothing(p, StepNames.Resolved(Elems(p.names), FnOf(env, p)(p.outs).base), FnOf(env, p)(p.outs), c);
      }
    case Creating(_, _) => CreateCounts(t, w, p, c);
    case PrePass(_, _) =>
    case Loading =>
    case _ => RestCounts(env, t, w, p, c);
  }

  lemma RestCounts(env: Env, t: Tables, w: Id, p: Pass, c: Choice)
    requires !p.pc.Loading? && !p.pc.PrePass? && !p.pc.Deciding? && !p.pc.Creating? && PassOk(t, w, p)
    requires TurnOf(env, t, w, p, c).next.Some?
    ensures
      var turn := TurnOf(env, t, w, p, c);
      turn.next.value.count == p.count && !(turn.op.Some? && turn.op.value.CreateAttempt?)
  {
    if TurnOf(env, t, w, p, c).op.Some? {
      CallsFromThere(env, t, w, p, c);
    }
  }

  lemma CallCountsNothing(p: Pass, step: string, action: Action, c: Choice)
    requires action.Step?
    ensures CallTurn(p, step, action, c).next.value.count == p.count && CallTurn(p, step, action, c).op.None?
  {
  }

  lemma CreateCounts(t: Tables, w: Id, p: Pass, c: Choice)
    requires p.pc.Creating?
    ensures
      var turn := CreateTurn(t, w, p, c);
      if turn.op.Some? && turn.op.value.CreateAttempt? then p.count < 1000 && turn.next.value.count == p.count + 1
      else turn.next.value.count == p.count
  {
  }

  // ---- a step in progress is taken up again ----

  predicate TakenUp(kind: StepKind) {
    kind == WorkflowStep || kind == SignalSend || kind == SignalWait
  }

  /** A pass never opens a second attempt of a child, a wait or a send while it knows of one that is running. */
  ghost predicate OpensOnlyNew(p: Pass) {
    p.pc.Creating? && p.pc.action.Step? && TakenUp(p.pc.action.kind) ==>
      !(p.pc.step in p.ledger.running && p.ledger.running[p.pc.step].kind == p.pc.action.kind)
  }

  lemma CallOpensNew(p: Pass, step: string, action: Action, c: Choice)
    requires action.Step?
    ensures OpensOnlyNew(CallTurn(p, step, action, c).next.value)
  {
  }

  lemma TurnOpensNew(env: Env, t: Tables, w: Id, p: Pass, c: Choice)
    requires TurnOf(env, t, w, p, c).next.Some?
    ensures OpensOnlyNew(TurnOf(env, t, w, p, c).next.value)
  {
    match p.pc
    case Deciding =>
      if FnOf(env, p)(p.outs).Step? {
        CallOpensNew(p, StepNames.Resolved(Elems(p.names), FnOf(env, p)(p.outs).base), FnOf(env, p)(p.outs), c);
      }
    case Creating(_, _) => CreateOpensNothing(t, w, p, c);
    case _ =>
  }

  lemma CreateOpensNothing(t: Tables, w: Id, p: Pass, c: Choice)
    requires p.pc.Creating?
    ensures !CreateTurn(t, w, p, c).next.value.pc.Creating?
  {
  }

  lemma {:induction false} AllOpenOnlyNew(env: Env, s: Sys, labels: seq<Label>)
    requires Runs(env, s, labels) && forall w :: w in s.passes ==> OpensOnlyNew(s.passes[w])
    ensures forall w :: w in After(env, s, labels).passes ==> OpensOnlyNew(After(env, s, labels).passes[w])
    decreases |labels|
  {
    if labels != [] {
      var s' := Effect(env, s, labels[0]);
      forall w | w in s'.passes
        ensures OpensOnlyNew(s'.passes[w])
      {
        if !Acts(labels[0], w) {
          OthersUnmoved(env, s, labels[0], w);
        } else if labels[0].Go? {
          TurnOpensNew(env, s.t, w, s.passes[w], labels[0].c);
        }
      }
      AllOpenOnlyNew(env, s', labels[1..]);
    }
  }
}
