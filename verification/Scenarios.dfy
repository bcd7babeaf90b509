/** Runs of the system from empty tables that show where a property ends. */
module Scenarios {
  import opened Graphs
  import opened Workflows
  import opened Retry
  import opened Store
  import opened StepNames
  import opened StepHistory
  import opened LedgerProofs
  import opened Replay

  // ---- putting runs together ----

  ghost predicate Leads(env: Env, s: Sys, labels: seq<Label>, s': Sys) {
    Runs(env, s, labels) && After(env, s, labels) == s'
  }

  ghost predicate Led(env: Env, s: Sys, s': Sys) {
    exists labels :: Leads(env, s, labels, s')
  }

  ghost predicate ClosedUnderSteps(env: Env, states: iset<Sys>) {
    forall s, l {:trigger Effect(env, s, l)} :: s in states && Enabled(s, l) ==> Effect(env, s, l) in states
  }

  /** Whatever holds of the one state and is kept by every step holds of the other. */
  ghost predicate CanReach(env: Env, s: Sys, s': Sys) {
    forall states: iset<Sys> :: s in states && ClosedUnderSteps(env, states) ==> s' in states
  }

  lemma OneTo(env: Env, s: Sys, l: Label, s': Sys)
    requires Enabled(s, l) && Effect(env, s, l) == s'
    ensures CanReach(env, s, s')
  {
  }

  lemma Then(env: Env, s: Sys, s1: Sys, s2: Sys)
    requires CanReach(env, s, s1) && CanReach(env, s1, s2)
    ensures CanReach(env, s, s2)
  {
  }

  lemma {:induction false} OneMoreStep(env: Env, s: Sys, labels: seq<Label>, l: Label)
    requires Runs(env, s, labels) && Enabled(After(env, s, labels), l)
    ensures Leads(env, s, labels + [l], Effect(env, After(env, s, labels), l))
    decreases |labels|
  {
    if labels == [] {
      assert (labels + [l])[1..] == [];
      assert Runs(env, Effect(env, s, l), []);
    } else {
      OneMoreStep(env, Effect(env, s, labels[0]), labels[1..], l);
      assert (labels + [l])[1..] == labels[1..] + [l];
    }
  }

  /** Some steps lead from a state to each state that it can reach. */
  lemma SomeStepsLead(env: Env, s: Sys, s': Sys) returns (labels: seq<Label>)
    requires CanReach(env, s, s')
    ensures Leads(env, s, labels, s')
  {
    var led := iset x: Sys | Led(env, s, x);
    assert Leads(env, s, [], s);
    forall x, l | x in led && Enabled(x, l)
      ensures Effect(env, x, l) in led
    {
      var before :| Leads(env, s, before, x);
      OneMoreStep(env, s, before, l);
    }
    assert s' in led;
    labels :| Leads(env, s, labels, s');
  }

  /** The state in which the worker's pass has become q and the tables t. */
  function Moved(s: Sys, w: Id, t: Tables, q: Pass): Sys {
    s.(t := t, passes := s.passes[w := q])
  }

  /** One turn of a live pass that goes on. */
  lemma Goes(env: Env, s: Sys, w: Id, c: Choice, op: Option<Op>, q: Pass)
    requires w in s.passes && Possible(s.t, s.passes[w], c)
    requires TurnOf(env, s.t, w, s.passes[w], c) == Turn(op, Some(q)) && (op.Some? ==> !op.value.Forget?)
    ensures CanReach(env, s, Moved(s, w, AfterOp(s.t, op), q))
  {
    OneTo(env, s, Go(w, c), Moved(s, w, AfterOp(s.t, op), q));
  }

  lemma GoesTwice(env: Env, s: Sys, w: Id, p: Pass, c1: Choice, op1: Option<Op>, p1: Pass, c2: Choice, op2: Option<Op>,
                  p2: Pass)
    requires w in s.passes && s.passes[w] == p && Possible(s.t, p, c1)
    requires TurnOf(env, s.t, w, p, c1) == Turn(op1, Some(p1)) && (op1.Some? ==> !op1.value.Forget?)
    requires Possible(AfterOp(s.t, op1), p1, c2)
    requires TurnOf(env, AfterOp(s.t, op1), w, p1, c2) == Turn(op2, Some(p2)) && (op2.Some? ==> !op2.value.Forget?)
    ensures CanReach(env, s, Moved(s, w, AfterOp(AfterOp(s.t, op1), op2), p2))
  {
    var s1 := Moved(s, w, AfterOp(s.t, op1), p1);
    Goes(env, s, w, c1, op1, p1);
    Goes(env, s1, w, c2, op2, p2);
    MovedTwice(s, w, AfterOp(s.t, op1), p1, AfterOp(s1.t, op2), p2);
    Then(env, s, s1, Moved(s1, w, AfterOp(s1.t, op2), p2));
  }

  lemma MovedTwice(s: Sys, w: Id, t: Tables, p: Pass, t': Tables, q: Pass)
    ensures Moved(Moved(s, w, t, p), w, t', q) == Moved(s, w, t', q)
  {
    assert s.passes[w := p][w := q] == s.passes[w := q];
  }

  function Pick(ok: bool): Choice {
    Choice(ok, "", "", 0, Null, [], [], "")
  }

  // ---- a pass starts ----

  lemma Claims(env: Env, s: Sys, w: Id, lease: nat, run: Id)
    requires w !in s.passes && lease > 0 && FirstDue(Expired(s.t.runs, s.t.now), s.t.now, run)
    ensures
      var t' := AfterClaim(s.t, w, lease, Some(run));
      CanReach(env, s, Moved(s, w, t', NewPass(w, run, t'.runs[run], true)))
  {
    var t' := AfterClaim(s.t, w, lease, Some(run));
    OneTo(env, s, Start(w, lease, Some(run), true), Moved(s, w, t', NewPass(w, run, t'.runs[run], true)));
  }

  /** Rows that a pass loads at once: none is a sleep, and their ledger is l. */
  ghost predicate Loadable(t: Tables, run: Id, rows: seq<Attempt>, l: Ledger) {
    && Lists(t, run, rows) && |rows| <= STEP_LIMIT && l == Rebuilt(rows)
    && forall i :: 0 <= i < |rows| ==> rows[i].kind != SleepStep
  }

  /** A worker claims the first due run, loads its rows and finds no sleep to complete. */
  lemma Starts(env: Env, s: Sys, w: Id, lease: nat, run: Id, rows: seq<Attempt>, l: Ledger)
    requires w !in s.passes && lease > 0 && FirstDue(Expired(s.t.runs, s.t.now), s.t.now, run)
    requires Loadable(s.t, run, rows, l)
    ensures
      var t' := AfterClaim(s.t, w, lease, Some(run));
      var p := Pass(run, t'.runs[run].attempts, t'.runs[run].deadlineAt, l, |rows|, [], [], Deciding);
      CanReach(env, s, Moved(s, w, t', p))
  {
    var t' := AfterClaim(s.t, w, lease, Some(run));
    var p := NewPass(w, run, t'.runs[run], true);
    Claims(env, s, w, lease, run);
    Loads(env, s, w, t', p, rows, l);
    Then(env, s, Moved(s, w, t', p), Moved(s, w, t', p.(ledger := l, count := |rows|, pc := Deciding)));
  }

  lemma Loads(env: Env, s: Sys, w: Id, t: Tables, p: Pass, rows: seq<Attempt>, l: Ledger)
    requires p.pc.Loading? && Loadable(t, p.run, rows, l)
    ensures CanReach(env, Moved(s, w, t, p), Moved(s, w, t, p.(ledger := l, count := |rows|, pc := Deciding)))
  {
    var p1 := p.(ledger := l, count := |rows|, pc := PrePass(map[], false));
    LoadsRows(env, s, w, t, p, rows, l);
    PassesOverSleeps(env, s, w, t, p1);
    Then(env, Moved(s, w, t, p), Moved(s, w, t, p1), Moved(s, w, t, p1.(pc := Deciding)));
  }

  lemma LoadsRows(env: Env, s: Sys, w: Id, t: Tables, p: Pass, rows: seq<Attempt>, l: Ledger)
    requires p.pc.Loading? && Loadable(t, p.run, rows, l)
    ensures CanReach(env, Moved(s, w, t, p),
                     Moved(s, w, t, p.(ledger := l, count := |rows|, pc := PrePass(map[], false))))
  {
    var p1 := p.(ledger := l, count := |rows|, pc := PrePass(map[], false));
    LoadsQuietly(env, t, w, p, rows);
    GoesOn(env, s, w, t, p, Pick(true).(rows := rows), p1);
  }

  /** A turn without a call. */
  lemma GoesOn(env: Env, s: Sys, w: Id, t: Tables, p: Pass, c: Choice, q: Pass)
    requires Possible(t, p, c) && TurnOf(env, t, w, p, c) == Turn(None, Some(q))
    ensures CanReach(env, Moved(s, w, t, p), Moved(s, w, t, q))
  {
    MovedTwice(s, w, t, p, t, q);
    Goes(env, Moved(s, w, t, p), w, c, None, q);
  }

  lemma PassesOverSleeps(env: Env, s: Sys, w: Id, t: Tables, p: Pass)
    requires p.pc == PrePass(map[], false)
    ensures CanReach(env, Moved(s, w, t, p), Moved(s, w, t, p.(pc := Deciding)))
  {
    NothingElapsed(env, t, w, p);
    GoesOn(env, s, w, t, p, Pick(true), p.(pc := Deciding));
  }

  lemma LoadsQuietly(env: Env, t: Tables, w: Id, p: Pass, rows: seq<Attempt>)
    requires p.pc.Loading? && |rows| <= STEP_LIMIT && forall i :: 0 <= i < |rows| ==> rows[i].kind != SleepStep
    ensures
      var p1 := p.(ledger := Rebuilt(rows), count := |rows|, pc := PrePass(map[], false));
      TurnOf(env, t, w, p, Pick(true).(rows := rows)) == Turn(None, Some(p1))
  {
    NoSleeps(rows);
  }

  lemma NothingElapsed(env: Env, t: Tables, w: Id, p: Pass)
    requires p.pc == PrePass(map[], false)
    ensures TurnOf(env, t, w, p, Pick(true)) == Turn(None, Some(p.(pc := Deciding)))
  {
  }

  lemma NoSleeps(rows: seq<Attempt>)
    requires forall i :: 0 <= i < |rows| ==> rows[i].kind != SleepStep
    ensures (map n | n in Rebuilt(rows).running && IsSleep(Rebuilt(rows).running[n]) :: Rebuilt(rows).running[n])
      == map[]
  {
    forall n | n in Rebuilt(rows).running
      ensures !IsSleep(Rebuilt(rows).running[n])
    {
      var i := RunningEntry(rows, n);
    }
  }

  // ---- a function step ----

  /** A pass that is about to call a new function step, and may. */
  ghost predicate CallsFunction(env: Env, s: Sys, w: Id, base: string, policy: Policy) {
    w in s.passes && var p := s.passes[w];
    && p.pc.Deciding? && Owned(s.t, p.run, w) && p.count < STEP_LIMIT
    && FnOf(env, p)(p.outs) == Step(FunctionStep, base, "", Null, policy, Accept)
    && base !in p.names && base !in p.ledger.cache
  }

  function Accept(v: Value): Option<Value> {
    Some(v)
  }

  function NewAttempt(s: Sys, p: Pass, id: Id, base: string): Attempt {
    Attempt(id, p.run, base, FunctionStep, StepRunning, NoContext, None, s.t.now, Null, Null)
  }

  /** The state while the new step's function runs. */
  ghost function Begun(s: Sys, w: Id, base: string, policy: Policy, id: Id): Sys
    requires w in s.passes
  {
    var p := s.passes[w];
    var a := NewAttempt(s, p, id, base);
    Moved(s, w, WithAttempt(s.t, a),
          p.(ledger := WithRunning(p.ledger, a), count := p.count + 1, pc := Executing(a, policy)))
  }

  /** The call, the insert, and the start of the function. */
  lemma StepBegins(env: Env, s: Sys, w: Id, base: string, policy: Policy, id: Id)
    requires CallsFunction(env, s, w, base, policy) && id !in s.t.attempts
    ensures CanReach(env, s, Begun(s, w, base, policy, id))
  {
    var p := s.passes[w];
    var a := NewAttempt(s, p, id, base);
    ResolvesToOne(Elems(p.names), base, base, Resolved(Elems(p.names), base));
    var p1 := p.(pc := Creating(base, FnOf(env, p)(p.outs)));
    var p2 := p.(ledger := WithRunning(p.ledger, a), count := p.count + 1, pc := Executing(a, policy));
    var op := CreateAttempt(id, p.run, base, FunctionStep, NoContext);
    GoesTwice(env, s, w, p, Pick(true), None, p1, Pick(true).(id := id), Some(op), p2);
  }

  /** The executed function returns, and its step is completed. */
  lemma Returns(env: Env, s: Sys, w: Id, a: Attempt, policy: Policy, v: Value)
    requires w in s.passes && s.passes[w].pc == Executing(a, policy) && OwnedAttempt(s.t, s.passes[w].run, w, a.id)
    requires s.t.attempts[a.id] == a && v != Undefined
    ensures
      var p := s.passes[w];
      var q := Answer(p.(ledger := WithCompletion(p.ledger, CompletedCopy(a, v))), a.step, Returned(v));
      CanReach(env, s, Moved(s, w, WithAttempt(s.t, CompletedCopy(a, v)), q))
  {
    var p := s.passes[w];
    var p1 := p.(pc := Completing(a, v, Some(policy)));
    var q := Answer(p.(ledger := WithCompletion(p.ledger, CompletedCopy(a, v))), a.step, Returned(v));
    GoesTwice(env, s, w, p, Pick(true).(value := v), None, p1, Pick(true), Some(CompleteAttempt(p.run, w, a.id, v)), q);
  }

  lemma ThrowingFails(env: Env, t: Tables, w: Id, p: Pass, a: Attempt, policy: Policy)
    requires p.pc == Executing(a, policy)
    ensures TurnOf(env, t, w, p, Pick(false)) == Turn(None, Some(p.(pc := Failing(a, policy, Null))))
  {
  }

  lemma FailingFails(env: Env, t: Tables, w: Id, p: Pass, a: Attempt, policy: Policy)
    requires OwnedAttempt(t, p.run, w, a.id)
    ensures
      var p1 := p.(pc := Failing(a, policy, Null));
      var l := WithFailure(p.ledger, FailedCopy(a, Null));
      var q := Answer(p.(ledger := l), a.step, Raised(StepFailure(FailedCount(l, a.step), policy, Null)));
      TurnOf(env, t, w, p1, Pick(true)) == Turn(Some(FailAttempt(p.run, w, a.id, Null)), Some(q))
  {
  }

  /** The executed function throws, and its step is failed. */
  lemma Throws(env: Env, s: Sys, w: Id, a: Attempt, policy: Policy)
    requires w in s.passes && s.passes[w].pc == Executing(a, policy) && OwnedAttempt(s.t, s.passes[w].run, w, a.id)
    requires s.t.attempts[a.id] == a
    ensures
      var p := s.passes[w];
      var l := WithFailure(p.ledger, FailedCopy(a, Null));
      var q := Answer(p.(ledger := l), a.step, Raised(StepFailure(FailedCount(l, a.step), policy, Null)));
      CanReach(env, s, Moved(s, w, WithAttempt(s.t, FailedCopy(a, Null)), q))
  {
    var p := s.passes[w];
    var p1 := p.(pc := Failing(a, policy, Null));
    var l := WithFailure(p.ledger, FailedCopy(a, Null));
    var q := Answer(p.(ledger := l), a.step, Raised(StepFailure(FailedCount(l, a.step), policy, Null)));
    ThrowingFails(env, s.t, w, p, a, policy);
    FailingFails(env, s.t, w, p, a, policy);
    GoesTwice(env, s, w, p, Pick(false), None, p1, Pick(true), Some(FailAttempt(p.run, w, a.id, Null)), q);
  }

  lemma AttemptTwice(t: Tables, a: Attempt, b: Attempt)
    requires a.id == b.id
    ensures WithAttempt(WithAttempt(t, a), b) == WithAttempt(t, b)
  {
    assert t.attempts[a.id := a][b.id := b] == t.attempts[b.id := b];
  }

  /** A function step that is called, inserted, executed and completed. */
  lemma StepReturns(env: Env, s: Sys, w: Id, base: string, policy: Policy, id: Id, v: Value)
    requires CallsFunction(env, s, w, base, policy) && id !in s.t.attempts && v != Undefined
    ensures
      var p := s.passes[w];
      var a := NewAttempt(s, p, id, base);
      var l := WithCompletion(WithRunning(p.ledger, a), CompletedCopy(a, v));
      var q := Answer(p.(ledger := l, count := p.count + 1), base, Returned(v));
      CanReach(env, s, Moved(s, w, WithAttempt(s.t, CompletedCopy(a, v)), q))
  {
    var p := s.passes[w];
    var a := NewAttempt(s, p, id, base);
    var s1 := Begun(s, w, base, policy, id);
    StepBegins(env, s, w, base, policy, id);
    Returns(env, s1, w, a, policy, v);
    AttemptTwice(s.t, a, CompletedCopy(a, v));
    var l := WithCompletion(WithRunning(p.ledger, a), CompletedCopy(a, v));
    var q := Answer(p.(ledger := l, count := p.count + 1), base, Returned(v));
    MovedTwice(s, w, s1.t, s1.passes[w], WithAttempt(s.t, CompletedCopy(a, v)), q);
    Then(env, s, s1, Moved(s, w, WithAttempt(s.t, CompletedCopy(a, v)), q));
  }

  /** A function step that is called, inserted, executed, and fails. */
  lemma StepFails(env: Env, s: Sys, w: Id, base: string, policy: Policy, id: Id)
    requires CallsFunction(env, s, w, base, policy) && id !in s.t.attempts
    ensures
      var p := s.passes[w];
      var a := NewAttempt(s, p, id, base);
      var l := WithFailure(WithRunning(p.ledger, a), FailedCopy(a, Null));
      var q := Answer(p.(ledger := l, count := p.count + 1), base,
                      Raised(StepFailure(FailedCount(l, base), policy, Null)));
      CanReach(env, s, Moved(s, w, WithAttempt(s.t, FailedCopy(a, Null)), q))
  {
    var p := s.passes[w];
    var a := NewAttempt(s, p, id, base);
    var s1 := Begun(s, w, base, policy, id);
    StepBegins(env, s, w, base, policy, id);
    Throws(env, s1, w, a, policy);
    AttemptTwice(s.t, a, FailedCopy(a, Null));
    var l := WithFailure(WithRunning(p.ledger, a), FailedCopy(a, Null));
    var q := Answer(p.(ledger := l, count := p.count + 1), base,
                    Raised(StepFailure(FailedCount(l, base), policy, Null)));
    MovedTwice(s, w, s1.t, s1.passes[w], WithAttempt(s.t, FailedCopy(a, Null)), q);
    Then(env, s, s1, Moved(s, w, WithAttempt(s.t, FailedCopy(a, Null)), q));
  }
}
