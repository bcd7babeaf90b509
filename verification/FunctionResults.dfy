/** What a function step stores: what its function returned or threw when it was run for that very attempt. */
module FunctionResults {
  import opened Graphs
  import opened Workflows
  import opened Store
  import opened WakeUp
  import opened StepHistory
  import opened Replay
  import opened ReplayProofs
  import opened ReplaySafety
  import opened StepResults
  import opened StepErrors
  import opened RetryBound
  import opened SendResults

  /** The j-th step runs the function of this attempt, which returns or throws the value. */
  ghost predicate RunMade(env: Env, s: Sys, labels: seq<Label>, j: nat, id: Id, ok: bool, value: Value) {
    && j < |labels| && Runs(env, s, labels[..j]) && labels[j].Go?
    && var now := After(env, s, labels[..j]);
       && labels[j].worker in now.passes
       && RunsNow(now.passes[labels[j].worker], labels[j].c, id, ok, value)
  }

  ghost predicate RunsNow(p: Pass, c: Choice, id: Id, ok: bool, value: Value) {
    p.pc.Executing? && p.pc.a.id == id && c.ok == ok && c.value == value
  }

  /** The function returned this; nothing counts as null. */
  ghost predicate ReturnedFor(env: Env, s: Sys, labels: seq<Label>, id: Id, output: Value) {
    exists j: nat, v :: RunMade(env, s, labels, j, id, true, v) && output == if v == Undefined then Null else v
  }

  /** The function threw this, or it returned and that was not accepted. */
  ghost predicate ThrewFor(env: Env, s: Sys, labels: seq<Label>, id: Id, error: Value) {
    || (exists j: nat :: RunMade(env, s, labels, j, id, false, error))
    || (error == Message("mark step attempt completed") && exists j: nat, v :: RunMade(env, s, labels, j, id, true, v))
  }

  ghost predicate RowTold(env: Env, s: Sys, labels: seq<Label>, a: Attempt) {
    a.kind == FunctionStep ==>
      && (a.status == StepCompleted ==> ReturnedFor(env, s, labels, a.id, a.output))
      && (a.status == StepFailed ==> ThrewFor(env, s, labels, a.id, a.error))
  }

  ghost predicate PassTold(env: Env, s: Sys, labels: seq<Label>, p: Pass) {
    && (p.pc.Completing? && p.pc.a.kind == FunctionStep ==> ReturnedFor(env, s, labels, p.pc.a.id, p.pc.output))
    && (p.pc.Failing? && p.pc.a.kind == FunctionStep ==> ThrewFor(env, s, labels, p.pc.a.id, p.pc.failure))
  }

  ghost predicate AllTold(env: Env, s: Sys, labels: seq<Label>)
    requires Runs(env, s, labels)
  {
    var now := After(env, s, labels);
    && (forall id :: id in now.t.attempts ==> RowTold(env, s, labels, now.t.attempts[id]))
    && (forall w :: w in now.passes ==> PassTold(env, s, labels, now.passes[w]))
  }

  // ---- what was told stays told ----

  lemma StaysMade(env: Env, s: Sys, labels: seq<Label>, j: nat, id: Id, ok: bool, v: Value)
    requires labels != [] && RunMade(env, s, labels[..|labels| - 1], j, id, ok, v)
    ensures RunMade(env, s, labels, j, id, ok, v)
  {
    assert labels[..|labels| - 1][..j] == labels[..j];
  }

  lemma StaysReturned(env: Env, s: Sys, labels: seq<Label>, id: Id, output: Value)
    requires labels != [] && ReturnedFor(env, s, labels[..|labels| - 1], id, output)
    ensures ReturnedFor(env, s, labels, id, output)
  {
    var j: nat, v :|
      RunMade(env, s, labels[..|labels| - 1], j, id, true, v) && output == if v == Undefined then Null else v;
    StaysMade(env, s, labels, j, id, true, v);
  }

  lemma StaysThrown(env: Env, s: Sys, labels: seq<Label>, id: Id, error: Value)
    requires labels != [] && ThrewFor(env, s, labels[..|labels| - 1], id, error)
    ensures ThrewFor(env, s, labels, id, error)
  {
    var before := labels[..|labels| - 1];
    if j: nat :| RunMade(env, s, before, j, id, false, error) {
      StaysMade(env, s, labels, j, id, false, error);
    } else {
      var j: nat, v :| RunMade(env, s, before, j, id, true, v);
      StaysMade(env, s, labels, j, id, true, v);
    }
  }

  lemma PassStaysTold(env: Env, s: Sys, labels: seq<Label>, p: Pass)
    requires labels != [] && PassTold(env, s, labels[..|labels| - 1], p)
    ensures PassTold(env, s, labels, p)
  {
    if p.pc.Completing? && p.pc.a.kind == FunctionStep {
      StaysReturned(env, s, labels, p.pc.a.id, p.pc.output);
    }
    if p.pc.Failing? && p.pc.a.kind == FunctionStep {
      StaysThrown(env, s, labels, p.pc.a.id, p.pc.failure);
    }
  }

  lemma RowStaysTold(env: Env, s: Sys, labels: seq<Label>, a: Attempt)
    requires labels != [] && RowTold(env, s, labels[..|labels| - 1], a)
    ensures RowTold(env, s, labels, a)
  {
    if a.kind == FunctionStep && a.status == StepCompleted {
      StaysReturned(env, s, labels, a.id, a.output);
    }
    if a.kind == FunctionStep && a.status == StepFailed {
      StaysThrown(env, s, labels, a.id, a.error);
    }
  }

  // ---- the turn ----

  /** A pass comes to complete a function step only by running it. */
  lemma CompletesOwnRun(env: Env, t: Tables, w: Id, p: Pass, c: Choice)
    requires KindFits(p) && Possible(t, p, c)
    requires TurnOf(env, t, w, p, c).next.Some? && TurnOf(env, t, w, p, c).next.value.pc.Completing?
    requires TurnOf(env, t, w, p, c).next.value.pc.a.kind == FunctionStep
    ensures
      var pc := TurnOf(env, t, w, p, c).next.value.pc;
      RunsNow(p, c, pc.a.id, true, c.value) && pc.output == if c.value == Undefined then Null else c.value
  {
    CompletesFrom(env, t, w, p, c);
  }

  /** It comes to fail one by running it, or when its completion is not accepted. */
  lemma FailsOwnRun(env: Env, t: Tables, w: Id, p: Pass, c: Choice)
    requires PassOk(t, w, p) && KindFits(p)
    requires TurnOf(env, t, w, p, c).next.Some? && TurnOf(env, t, w, p, c).next.value.pc.Failing?
    requires TurnOf(env, t, w, p, c).next.value.pc.a.kind == FunctionStep
    ensures
      var pc := TurnOf(env, t, w, p, c).next.value.pc;
      || RunsNow(p, c, pc.a.id, false, pc.failure)
      || (p.pc.Completing? && p.pc.a == pc.a && pc.failure == Message("mark step attempt completed"))
  {
    FailsFrom(env, t, w, p, c);
    if p.pc.Watching? || p.pc.Receiving? {
      WaitFailsOther(env, t, w, p, c);
    } else {
      CallFails(env, t, w, p, c);
    }
  }

  lemma WaitFailsOther(env: Env, t: Tables, w: Id, p: Pass, c: Choice)
    requires (p.pc.Watching? || p.pc.Receiving?) && KindFits(p)
    ensures
      var pc := TurnOf(env, t, w, p, c).next.value.pc;
      pc.Failing? ==> pc.a.kind != FunctionStep
  {
  }

  lemma ActorIsTold(env: Env, s: Sys, labels: seq<Label>, w: Id)
    requires labels != [] && Runs(env, s, labels)
    requires
      var n := |labels| - 1;
      && Runs(env, s, labels[..n]) && AllTold(env, s, labels[..n])
      && Safe(After(env, s, labels[..n])) && AllReady(env, After(env, s, labels[..n]))
      && labels[n].Go? && labels[n].worker == w && w in After(env, s, labels).passes
    ensures PassTold(env, s, labels, After(env, s, labels).passes[w])
  {
    var n := |labels| - 1;
    LastStep(env, s, labels);
    var now, c := After(env, s, labels[..n]), labels[n].c;
    var p, q := now.passes[w], After(env, s, labels).passes[w];
    assert PassReady(env, now.t, w, p);
    if q.pc.Completing? && q.pc.a.kind == FunctionStep {
      CompletesOwnRun(env, now.t, w, p, c);
      assert RunMade(env, s, labels, n, q.pc.a.id, true, c.value);
    }
    if q.pc.Failing? && q.pc.a.kind == FunctionStep {
      FailsOwnRun(env, now.t, w, p, c);
      if p.pc.Completing? {
        StaysReturned(env, s, labels, p.pc.a.id, p.pc.output);
        var j: nat, v :| RunMade(env, s, labels, j, p.pc.a.id, true, v);
      } else {
        assert RunMade(env, s, labels, n, q.pc.a.id, false, q.pc.failure);
      }
    }
  }

  // ---- the rows ----

  /** A row that ends now was ended by a pass that held its result. */
  lemma RowIsTold(env: Env, s: Sys, labels: seq<Label>, id: Id)
    requires labels != [] && Runs(env, s, labels)
    requires
      var n := |labels| - 1;
      && Runs(env, s, labels[..n]) && AllTold(env, s, labels[..n])
      && Safe(After(env, s, labels[..n])) && AllReady(env, After(env, s, labels[..n]))
    requires id in After(env, s, labels).t.attempts
    ensures RowTold(env, s, labels, After(env, s, labels).t.attempts[id])
  {
    var n := |labels| - 1;
    var now, l := After(env, s, labels[..n]), labels[n];
    LastStep(env, s, labels);
    var a := After(env, s, labels).t.attempts[id];
    StepMoves(env, now, l);
    if id in now.t.attempts && now.t.attempts[id].status != StepRunning {
      RowStaysTold(env, s, labels, now.t.attempts[id]);
    } else if a.kind == FunctionStep && a.status != StepRunning {
      EndedByHolder(env, now, l, id);
      PassStaysTold(env, s, labels, now.passes[l.worker]);
    }
  }

  /** What ends a running attempt of a function step, or one that is new, is the pass that holds it. */
  lemma EndedByHolder(env: Env, s: Sys, l: Label, id: Id)
    requires Safe(s) && Enabled(s, l) && id in Effect(env, s, l).t.attempts
    requires id in s.t.attempts ==> s.t.attempts[id].status == StepRunning
    requires
      var a := Effect(env, s, l).t.attempts[id];
      a.kind == FunctionStep && a.status != StepRunning
    ensures l.Go? && l.worker in s.passes
    ensures
      var p, a := s.passes[l.worker], Effect(env, s, l).t.attempts[id];
      && a.id == id
      && if a.status == StepCompleted then
           p.pc.Completing? && p.pc.a.kind == FunctionStep && p.pc.a.id == id && p.pc.output == a.output
         else p.pc.Failing? && p.pc.a.kind == FunctionStep && p.pc.a.id == id && p.pc.failure == a.error
  {
    StepKeepsTables(env, s, l);
    assert LinkOk(id, Effect(env, s, l).t.attempts[id], Effect(env, s, l).t.runs);
    if Effect(env, s, l).t.attempts[id].status == StepCompleted {
      CompletedByHolder(env, s, l, id);
    } else {
      FailedByHolder(env, s, l, id);
    }
  }

  lemma CompletedByHolder(env: Env, s: Sys, l: Label, id: Id)
    requires Safe(s) && Enabled(s, l) && id in Effect(env, s, l).t.attempts
    requires id in s.t.attempts ==> s.t.attempts[id].status == StepRunning
    requires
      var a := Effect(env, s, l).t.attempts[id];
      a.kind == FunctionStep && a.status == StepCompleted
    ensures l.Go? && l.worker in s.passes
    ensures
      var p := s.passes[l.worker];
      && p.pc.Completing? && p.pc.a.kind == FunctionStep && p.pc.a.id == id
      && p.pc.output == Effect(env, s, l).t.attempts[id].output
  {
    StepOp(env, s, l);
    var a := Effect(env, s, l).t.attempts[id];
    assert Done(Effect(env, s, l).t, id, a.run, a.step) && !Done(s.t, id, a.run, a.step);
    NewlyDone(s.t, OpOf(env, s, l).value, id, a.run, a.step);
    CompletedByPass(env, s.t, l.worker, s.passes[l.worker], l.c);
  }

  lemma FailedByHolder(env: Env, s: Sys, l: Label, id: Id)
    requires Safe(s) && Enabled(s, l) && id in Effect(env, s, l).t.attempts
    requires id in s.t.attempts ==> s.t.attempts[id].status == StepRunning
    requires
      var a := Effect(env, s, l).t.attempts[id];
      a.kind == FunctionStep && a.status == StepFailed
    ensures l.Go? && l.worker in s.passes
    ensures
      var p := s.passes[l.worker];
      && p.pc.Failing? && p.pc.a.kind == FunctionStep && p.pc.a.id == id
      && p.pc.failure == Effect(env, s, l).t.attempts[id].error
  {
    StepOp(env, s, l);
    var a := Effect(env, s, l).t.attempts[id];
    assert FailedOnce(Effect(env, s, l).t, id, a.run, a.step) && !FailedOnce(s.t, id, a.run, a.step);
    NewlyFailed(s.t, OpOf(env, s, l).value, id, a.run, a.step);
    FailedByPass(env, s.t, l.worker, s.passes[l.worker], l.c);
    FailedRow(s.t, OpOf(env, s, l).value);
  }

  lemma CompletedByPass(env: Env, t: Tables, w: Id, p: Pass, c: Choice)
    requires PassOk(t, w, p) && Possible(t, p, c)
    requires TurnOf(env, t, w, p, c).op.Some? && TurnOf(env, t, w, p, c).op.value.CompleteAttempt?
    requires
      var id := TurnOf(env, t, w, p, c).op.value.attempt;
      id in t.attempts && t.attempts[id].kind == FunctionStep
    ensures
      var op := TurnOf(env, t, w, p, c).op.value;
      p.pc.Completing? && p.pc.a.kind == FunctionStep && p.pc.a.id == op.attempt && p.pc.output == op.output
  {
    TurnIsOk(env, t, w, p, c);
    if p.pc.Completing? {
      CompletesHand(env, t, w, p, c);
    } else {
      PrePassCache(env, t, w, p, c);
    }
  }

  lemma FailedByPass(env: Env, t: Tables, w: Id, p: Pass, c: Choice)
    requires PassOk(t, w, p) && TurnOf(env, t, w, p, c).op.Some? && TurnOf(env, t, w, p, c).op.value.FailAttempt?
    requires
      var id := TurnOf(env, t, w, p, c).op.value.attempt;
      id in t.attempts && t.attempts[id].kind == FunctionStep
    ensures
      var op := TurnOf(env, t, w, p, c).op.value;
      p.pc.Failing? && p.pc.a.kind == FunctionStep && p.pc.a.id == op.attempt && p.pc.failure == op.error
  {
    TurnFailsWell(env, t, w, p, c);
    FailsHand(env, t, w, p, c);
  }

  lemma {:induction false} StaysAllTold(env: Env, s: Sys, labels: seq<Label>)
    requires Safe(s) && AllReady(env, s) && Runs(env, s, labels) && AllTold(env, s, [])
    ensures AllTold(env, s, labels)
    decreases |labels|
  {
    if labels != [] {
      var n := |labels| - 1;
      LastStep(env, s, labels);
      StaysAllTold(env, s, labels[..n]);
      StaysReady(env, s, labels[..n]);
      var now := After(env, s, labels);
      forall id | id in now.t.attempts
        ensures RowTold(env, s, labels, now.t.attempts[id])
      {
        RowIsTold(env, s, labels, id);
      }
      forall w | w in now.passes
        ensures PassTold(env, s, labels, now.passes[w])
      {
        if Acts(labels[n], w) && labels[n].Go? {
          ActorIsTold(env, s, labels, w);
        } else if !Acts(labels[n], w) {
          OthersUnmoved(env, After(env, s, labels[..n]), labels[n], w);
          PassStaysTold(env, s, labels, now.passes[w]);
        }
      }
    }
  }

  /**
    * In every state that workers can reach: a completed function step holds what its function returned when it was run
    * for that attempt, and a failed one what it threw, unless its completion was not accepted.
    */
  lemma FunctionsStoreResults(env: Env, now: Time, labels: seq<Label>)
    requires Runs(env, Initial(now), labels)
    ensures AllTold(env, Initial(now), labels)
  {
    NothingRunsYet(now);
    StaysAllTold(env, Initial(now), labels);
  }
}
