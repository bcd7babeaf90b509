/** A completed run holds what its function returns on stored step outputs. */
module RunResults {
  import opened Graphs
  import opened Workflows
  import opened Retry
  import opened Store
  import opened Lifecycle
  import opened WakeUp
  import opened Replay
  import opened ReplayProofs
  import opened ReplaySafety
  import opened ReplayTraces
  import opened StepResults

  /**
    * The function called a step for each outcome, and each output it was given is stored in a completed attempt of that
    * step.
    */
  ghost predicate Explains(t: Tables, run: Id, fn: WorkflowFn, outs: seq<Outcome>) {
    && Calls(fn, outs)
    && forall k: nat {:trigger outs[k]} ::
         k < |outs| && outs[k].Returned? ==> Stored(t, run, NamesAlong(fn, outs)[k], outs[k].value)
  }

  ghost predicate Stored(t: Tables, run: Id, step: string, output: Value) {
    exists id :: Done(t, id, run, step) && t.attempts[id].output == output
  }

  /** The function returns this result; an absent one is null. */
  ghost predicate ReturnsAfter(fn: WorkflowFn, outs: seq<Outcome>, result: Value) {
    fn(outs).Finish? && result == Normalized(fn(outs).output)
  }

  /** Some stored outputs lead the function to this result. */
  ghost predicate Explained(t: Tables, run: Id, fn: WorkflowFn, result: Value) {
    exists outs :: Explains(t, run, fn, outs) && ReturnsAfter(fn, outs, result)
  }

  /** The pass of the run's last claim returned its output after stored outputs. */
  ghost predicate AllExplained(env: Env, t: Tables) {
    forall run :: run in t.runs && t.runs[run].status == Completed ==> LastPassReturns(env, t, run)
  }

  ghost predicate LastPassReturns(env: Env, t: Tables, run: Id)
    requires run in t.runs
  {
    t.runs[run].attempts >= 0 && Explained(t, run, env.fns(run)(t.runs[run].attempts), t.runs[run].output)
  }

  // ---- the owner is the last claim's pass ----

  ghost predicate LastClaim(t: Tables, w: Id, p: Pass) {
    Owned(t, p.run, w) ==> t.runs[p.run].attempts == p.claims
  }

  ghost predicate OwnersAreLast(s: Sys) {
    forall w :: w in s.passes ==> LastClaim(s.t, w, s.passes[w])
  }

  /** A run that stays its owner's is not claimed in between. */
  lemma ClaimsStay(t: Tables, op: Op, run: Id, w: Id)
    requires RunsOk(t) && Allowed(t, op) && Owned(t, run, w) && Owned(Apply(t, op), run, w)
    requires op.Claim? ==> op.pick != Some(run)
    ensures Apply(t, op).runs[run].attempts == t.runs[run].attempts
  {
  }

  lemma OpKeepsLast(t: Tables, op: Op, w: Id, p: Pass)
    requires RunsOk(t) && Allowed(t, op) && LastClaim(t, w, p) && (op.Claim? ==> op.worker != w)
    ensures LastClaim(Apply(t, op), w, p)
  {
    if Owned(Apply(t, op), p.run, w) {
      if !Owned(t, p.run, w) {
        OwnershipIsClaimed(t, op, p.run, w);
      }
      ClaimsStay(t, op, p.run, w);
    }
  }

  lemma PassKeepsLast(env: Env, s: Sys, l: Label, w: Id)
    requires Safe(s) && OwnersAreLast(s) && Enabled(s, l) && w in Effect(env, s, l).passes
    ensures LastClaim(Effect(env, s, l).t, w, Effect(env, s, l).passes[w])
  {
    StepOp(env, s, l);
    if Acts(l, w) && l.Start? {
      assert Effect(env, s, l).passes[w].claims == Effect(env, s, l).t.runs[l.pick.value].attempts;
    } else {
      if Acts(l, w) {
        TurnIsOk(env, s.t, w, s.passes[w], l.c);
      } else {
        OthersUnmoved(env, s, l, w);
      }
      if OpOf(env, s, l).Some? {
        OpKeepsLast(s.t, OpOf(env, s, l).value, w, s.passes[w]);
      }
    }
  }

  lemma StepKeepsLast(env: Env, s: Sys, l: Label)
    requires Safe(s) && OwnersAreLast(s) && Enabled(s, l)
    ensures OwnersAreLast(Effect(env, s, l))
  {
    forall w | w in Effect(env, s, l).passes
      ensures LastClaim(Effect(env, s, l).t, w, Effect(env, s, l).passes[w])
    {
      PassKeepsLast(env, s, l, w);
    }
  }

  // ---- stored outputs ----

  lemma StaysStored(t: Tables, t': Tables, run: Id, step: string, output: Value)
    requires Stored(t, run, step, output) && AttemptsMove(t, t')
    ensures Stored(t', run, step, output)
  {
    var id :| Done(t, id, run, step) && t.attempts[id].output == output;
    assert Done(t', id, run, step);
  }

  lemma StaysExplained(t: Tables, t': Tables, run: Id, fn: WorkflowFn, result: Value)
    requires Explained(t, run, fn, result) && AttemptsMove(t, t')
    ensures Explained(t', run, fn, result)
  {
    var outs: seq<Outcome> :| Explains(t, run, fn, outs) && ReturnsAfter(fn, outs, result);
    forall k: nat | k < |outs| && outs[k].Returned?
      ensures Stored(t', run, NamesAlong(fn, outs)[k], outs[k].value)
    {
      StaysStored(t, t', run, NamesAlong(fn, outs)[k], outs[k].value);
    }
    assert Explains(t', run, fn, outs);
  }

  /** A pass has been given stored outputs only. */
  lemma PassIsExplained(t: Tables, w: Id, p: Pass, fn: WorkflowFn)
    requires Follows(fn, p) && PassOk(t, w, p)
    ensures Explains(t, p.run, fn, p.outs)
  {
    forall k: nat | k < |p.outs| && p.outs[k].Returned?
      ensures Stored(t, p.run, NamesAlong(fn, p.outs)[k], p.outs[k].value)
    {
      assert p.names[k] in p.ledger.cache;
    }
  }

  /** Only a completion by its owner completes a run. */
  lemma NewlyCompleted(t: Tables, op: Op, run: Id)
    requires run in Apply(t, op).runs && Apply(t, op).runs[run].status == Completed
    requires run in t.runs ==> t.runs[run].status != Completed
    ensures op.Complete? && op.run == run && op.output == Apply(t, op).runs[run].output
    ensures Owned(t, run, op.worker) && Apply(t, op).runs[run].attempts == t.runs[run].attempts
  {
  }

  /** A pass completes its run with what its function returned. */
  lemma CompletesWithResult(env: Env, t: Tables, w: Id, p: Pass, c: Choice)
    requires PassOk(t, w, p) && Follows(FnOf(env, p), p) && Possible(t, p, c)
    requires TurnOf(env, t, w, p, c).op.Some? && TurnOf(env, t, w, p, c).op.value.Complete?
    ensures
      var op := TurnOf(env, t, w, p, c).op.value;
      op.run == p.run && op.worker == w && ReturnsAfter(FnOf(env, p), p.outs, op.output)
  {
    TurnIsOk(env, t, w, p, c);
  }

  lemma CompletionIsExplained(env: Env, s: Sys, l: Label, run: Id)
    requires Safe(s) && AllReady(env, s) && OwnersAreLast(s) && Enabled(s, l)
    requires
      var t' := Effect(env, s, l).t;
      run in t'.runs && t'.runs[run].status == Completed && !(run in s.t.runs && s.t.runs[run].status == Completed)
    ensures LastPassReturns(env, Effect(env, s, l).t, run)
  {
    var t', op := Effect(env, s, l).t, OpOf(env, s, l).value;
    StepOp(env, s, l);
    StepMoves(env, s, l);
    NewlyCompleted(s.t, op, run);
    var p := s.passes[l.worker];
    CompletesWithResult(env, s.t, l.worker, p, l.c);
    PassIsExplained(s.t, l.worker, p, FnOf(env, p));
    assert LastClaim(s.t, l.worker, p);
    assert Explained(s.t, run, FnOf(env, p), op.output);
    StaysExplained(s.t, t', run, FnOf(env, p), op.output);
  }

  lemma StepKeepsExplained(env: Env, s: Sys, l: Label)
    requires Safe(s) && AllReady(env, s) && OwnersAreLast(s) && AllExplained(env, s.t) && Enabled(s, l)
    ensures AllExplained(env, Effect(env, s, l).t)
  {
    var t' := Effect(env, s, l).t;
    StepMoves(env, s, l);
    forall run | run in t'.runs && t'.runs[run].status == Completed
      ensures LastPassReturns(env, t', run)
    {
      if run in s.t.runs && s.t.runs[run].status == Completed {
        var r := s.t.runs[run];
        StaysExplained(s.t, t', run, env.fns(run)(r.attempts), r.output);
      } else {
        CompletionIsExplained(env, s, l, run);
      }
    }
  }

  lemma {:induction false} StaysAllExplained(env: Env, s: Sys, labels: seq<Label>)
    requires Safe(s) && AllReady(env, s) && OwnersAreLast(s) && AllExplained(env, s.t) && Runs(env, s, labels)
    ensures AllExplained(env, After(env, s, labels).t)
    decreases |labels|
  {
    if labels != [] {
      StepKeepsExplained(env, s, labels[0]);
      StepKeepsLast(env, s, labels[0]);
      StepKeepsSafe(env, s, labels[0]);
      StepKeepsReady(env, s, labels[0]);
      StaysAllExplained(env, Effect(env, s, labels[0]), labels[1..]);
    }
  }

  /**
    * In every state that workers can reach, for every function: a completed run holds what its function returned, in
    * the pass of the run's last claim, after outcomes in which every output is stored in a completed attempt of the
    * step that was called for it.
    */
  lemma CompletedRunsAreExplained(env: Env, now: Time, labels: seq<Label>)
    requires Runs(env, Initial(now), labels)
    ensures AllExplained(env, After(env, Initial(now), labels).t)
  {
    NothingRunsYet(now);
    StaysAllExplained(env, Initial(now), labels);
  }
}
