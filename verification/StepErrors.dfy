/** Why a step failed: its child's error or its time, a refused signal, or a call of its own that was refused. */
module StepErrors {
  import opened Graphs
  import opened Workflows
  import opened Store
  import opened Lifecycle
  import opened WakeUp
  import opened Signals
  import opened Leases
  import opened StepHistory
  import opened Replay
  import opened ReplayProofs
  import opened ReplaySafety
  import opened ReplayTraces
  import opened StepResults
  import opened RetryBound

  // ---- right errors ----

  /** Until when a workflow step waits for its child: to the time that its context names, or for a year. */
  function ChildLimit(a: Attempt): Option<Time> {
    match a.context
    case ChildUntil(Some(at)) => Some(at)
    case SignalUntil(_, at) => Some(at)
    case ChildUntil(None) => Some(a.createdAt + 365 * 24 * 60 * 60 * 1000)
    case _ => None
  }

  /** The child failed or was canceled, or had not ended by its time. */
  ghost predicate ChildFailedStep(now: Time, a: Attempt, child: Run, error: Value) {
    || (child.status == Failed && error == child.error)
    || (child.status == Canceled && error == Message("canceled"))
    || (error == Message("timed out") && ChildLimit(a).Some? && ChildLimit(a).value <= now
        && (child.finishedAt.Some? ==> child.finishedAt.value >= ChildLimit(a).value))
  }

  /** The schema of the call refuses the delivered data. */
  ghost predicate IsRefused(t: Tables, a: Attempt, action: Action)
    requires action.Step? && a.id in t.signals
  {
    action.schema(Normalized(t.signals[a.id].data)).None?
  }

  /** Why a step of each kind may fail; a function may throw anything, and a sleep never fails. */
  ghost predicate RightError(t: Tables, fns: Family, a: Attempt, error: Value) {
    match a.kind
    case FunctionStep => true
    case SleepStep => false
    case WorkflowStep =>
      if a.child.None? then error == Message("link")
      else a.child.value in t.runs && ChildFailedStep(t.now, a, t.runs[a.child.value], error)
    case SignalWait =>
      && error == Message("schema") && a.id in t.signals
      && exists action: Action :: action.Step? && CalledWith(fns, a, action) && IsRefused(t, a, action)
    case SignalSend => error == Message("send") || error == Message("mark step attempt completed")
  }

  ghost predicate ErrorsRight(env: Env, t: Tables) {
    forall id :: id in t.attempts && t.attempts[id].status == StepFailed ==>
      RightError(t, env.fns(t.attempts[id].run), t.attempts[id], t.attempts[id].error)
  }

  // ---- they stay right ----

  /** A child that ends now ends now. */
  lemma EndsNow(t: Tables, op: Op, id: Id)
    requires RunsOk(t) && Allowed(t, op) && id in t.runs && t.runs[id].finishedAt.None?
    ensures
      var r := Apply(t, op).runs[id];
      r.finishedAt.Some? ==> r.finishedAt.value >= t.now
  {
    OpMovesRuns(t, op);
    if Apply(t, op).runs[id].finishedAt.Some? {
      OpEnds(t, op, id);
    }
  }

  lemma OpKeepsRightError(t: Tables, op: Op, fns: Family, a: Attempt, error: Value)
    requires Consistent(t) && Allowed(t, op) && RightError(t, fns, a, error)
    ensures RightError(Apply(t, op), fns, a, error)
  {
    OpMovesRuns(t, op);
    if a.kind == WorkflowStep && a.child.Some? {
      OpKeepsChildError(t, op, a, error);
    }
    if a.kind == SignalWait {
      OpKeepsDeliveries(t, op);
      var action: Action :| action.Step? && CalledWith(fns, a, action) && IsRefused(t, a, action);
      assert IsRefused(Apply(t, op), a, action);
    }
  }

  lemma OpKeepsChildError(t: Tables, op: Op, a: Attempt, error: Value)
    requires Consistent(t) && Allowed(t, op) && a.child.Some? && a.child.value in t.runs
    requires ChildFailedStep(t.now, a, t.runs[a.child.value], error)
    ensures a.child.value in Apply(t, op).runs
    ensures ChildFailedStep(Apply(t, op).now, a, Apply(t, op).runs[a.child.value], error)
  {
    OpMovesRuns(t, op);
    if t.runs[a.child.value].finishedAt.None? {
      EndsNow(t, op, a.child.value);
    }
  }

  // ---- the turn that comes to fail a step ----

  lemma WatchFails(t: Tables, fns: Family, w: Id, p: Pass)
    requires PassOk(t, w, p) && p.pc.Watching? && p.pc.a.kind == WorkflowStep && RunsOk(t)
    requires WatchTurn(t, w, p).next.value.pc.Failing?
    ensures
      var pc := WatchTurn(t, w, p).next.value.pc;
      pc.a == p.pc.a && RightError(t, fns, pc.a, pc.failure)
  {
  }

  lemma ReceiveFails(env: Env, t: Tables, w: Id, p: Pass)
    requires p.pc.Receiving? && p.pc.a.kind == SignalWait && Follows(FnOf(env, p), p)
    requires ReceiveTurn(t, w, p).next.value.pc.Failing?
    ensures
      var pc := ReceiveTurn(t, w, p).next.value.pc;
      pc.a == p.pc.a && RightError(t, env.fns(p.run), pc.a, pc.failure)
  {
    var action := FnOf(env, p)(p.outs);
    assert CalledAfter(FnOf(env, p), p.pc.a, p.outs);
    assert CalledWith(env.fns(p.run), p.pc.a, action);
    assert IsRefused(t, p.pc.a, action);
  }

  /** Only a step in hand comes to be failed. */
  lemma FailsFrom(env: Env, t: Tables, w: Id, p: Pass, c: Choice)
    requires TurnOf(env, t, w, p, c).next.Some? && TurnOf(env, t, w, p, c).next.value.pc.Failing?
    ensures
      || p.pc.Executing? || p.pc.Sending? || p.pc.Linking? || p.pc.Binding? || p.pc.Watching? || p.pc.Receiving?
      || p.pc.Completing?
  {
    match p.pc
    case Deciding =>
      if FnOf(env, p)(p.outs).Step? {
        CallOpens(p, StepNames.Resolved(Elems(p.names), FnOf(env, p)(p.outs).base), FnOf(env, p)(p.outs), c);
      }
    case Creating(_, _) => CreateFailsNothing(t, w, p, c);
    case _ =>
  }

  lemma CreateFailsNothing(t: Tables, w: Id, p: Pass, c: Choice)
    requires p.pc.Creating?
    ensures !CreateTurn(t, w, p, c).next.value.pc.Failing?
  {
  }

  lemma CallFails(env: Env, t: Tables, w: Id, p: Pass, c: Choice)
    requires PassOk(t, w, p) && KindFits(p)
    requires p.pc.Executing? || p.pc.Sending? || p.pc.Linking? || p.pc.Binding? || p.pc.Completing?
    requires TurnOf(env, t, w, p, c).next.Some? && TurnOf(env, t, w, p, c).next.value.pc.Failing?
    ensures
      var turn := TurnOf(env, t, w, p, c);
      turn.op.None? && turn.next.value.pc.a == p.pc.a
      && RightError(t, env.fns(p.run), p.pc.a, turn.next.value.pc.failure)
  {
  }

  lemma TurnFailsRightly(env: Env, t: Tables, w: Id, p: Pass, c: Choice)
    requires Consistent(t) && PassOk(t, w, p) && KindFits(p) && Follows(FnOf(env, p), p)
    requires TurnOf(env, t, w, p, c).next.Some? && TurnOf(env, t, w, p, c).next.value.pc.Failing?
    ensures
      var turn := TurnOf(env, t, w, p, c);
      turn.op.None? && RightError(t, env.fns(p.run), turn.next.value.pc.a, turn.next.value.pc.failure)
  {
    FailsFrom(env, t, w, p, c);
    if p.pc.Watching? {
      WatchFails(t, env.fns(p.run), w, p);
    } else if p.pc.Receiving? {
      ReceiveFails(env, t, w, p);
    } else {
      CallFails(env, t, w, p, c);
    }
  }

  // ---- the system ----

  ghost predicate FailsRightly(env: Env, t: Tables, p: Pass) {
    p.pc.Failing? ==> RightError(t, env.fns(p.run), p.pc.a, p.pc.failure)
  }

  ghost predicate AllRight(env: Env, s: Sys) {
    ErrorsRight(env, s.t) && forall w :: w in s.passes ==> FailsRightly(env, s.t, s.passes[w])
  }

  lemma FailedRow(t: Tables, op: Op)
    requires LinksOk(t) && op.FailAttempt? && OwnedAttempt(t, op.run, op.worker, op.attempt)
    ensures Apply(t, op).attempts[op.attempt] == FailedCopy(t.attempts[op.attempt], op.error)
  {
    assert LinkOk(op.attempt, t.attempts[op.attempt], t.runs);
  }

  /** An error that is right for an attempt is right for it when failed. */
  lemma SameCallErrs(t: Tables, fns: Family, a: Attempt, b: Attempt, error: Value)
    requires RightError(t, fns, a, error) && b == FailedCopy(a, error)
    ensures RightError(t, fns, b, error)
  {
    if a.kind == SignalWait {
      var action: Action :| action.Step? && CalledWith(fns, a, action) && IsRefused(t, a, action);
      SameCall(fns, a, b, action);
      assert IsRefused(t, b, action);
    }
  }

  lemma OpKeepsErrors(env: Env, t: Tables, op: Op)
    requires Consistent(t) && Allowed(t, op) && ErrorsRight(env, t)
    requires op.FailAttempt? && OwnedAttempt(t, op.run, op.worker, op.attempt) ==>
      RightError(t, env.fns(op.run), t.attempts[op.attempt], op.error)
    ensures ErrorsRight(env, Apply(t, op))
  {
    var t' := Apply(t, op);
    forall id | id in t'.attempts && t'.attempts[id].status == StepFailed
      ensures RightError(t', env.fns(t'.attempts[id].run), t'.attempts[id], t'.attempts[id].error)
    {
      var run, step := t'.attempts[id].run, t'.attempts[id].step;
      assert FailedOnce(t', id, run, step);
      NewlyFailed(t, op, id, run, step);
      OpMovesAttempts(t, op);
      if FailedOnce(t, id, run, step) {
        OpKeepsRightError(t, op, env.fns(run), t.attempts[id], t.attempts[id].error);
      } else {
        OpKeepsRightError(t, op, env.fns(run), t.attempts[id], op.error);
        FailedRow(t, op);
        SameCallErrs(t', env.fns(run), t.attempts[id], t'.attempts[id], op.error);
      }
    }
  }

  /** The pass that fails an attempt holds its row and its error. */
  lemma FailureIsRight(env: Env, s: Sys, w: Id, c: Choice)
    requires Safe(s) && AllReady(env, s) && AllRight(env, s) && Enabled(s, Go(w, c))
    requires OpOf(env, s, Go(w, c)).Some? && OpOf(env, s, Go(w, c)).value.FailAttempt?
    ensures
      var op := OpOf(env, s, Go(w, c)).value;
      && OwnedAttempt(s.t, op.run, op.worker, op.attempt)
      && RightError(s.t, env.fns(op.run), s.t.attempts[op.attempt], op.error)
  {
    var p := s.passes[w];
    CallsFromThere(env, s.t, w, p, c);
    assert FailsRightly(env, s.t, p) && PassReady(env, s.t, w, p);
    FailsHand(env, s.t, w, p, c);
  }

  lemma FailsHand(env: Env, t: Tables, w: Id, p: Pass, c: Choice)
    requires p.pc.Failing?
    ensures
      var op := TurnOf(env, t, w, p, c).op;
      op.Some? ==>
        op.value == FailAttempt(p.run, w, p.pc.a.id, p.pc.failure) && OwnedAttempt(t, p.run, w, p.pc.a.id)
  {
  }

  lemma StepKeepsErrors(env: Env, s: Sys, l: Label)
    requires Safe(s) && AllReady(env, s) && AllRight(env, s) && Enabled(s, l)
    ensures ErrorsRight(env, Effect(env, s, l).t)
  {
    StepOp(env, s, l);
    var op := OpOf(env, s, l);
    if op.Some? {
      if op.value.FailAttempt? {
        FailureIsRight(env, s, l.worker, l.c);
      }
      OpKeepsErrors(env, s.t, op.value);
    }
  }

  lemma PassStaysRight(env: Env, s: Sys, l: Label, w: Id)
    requires Safe(s) && AllReady(env, s) && AllRight(env, s) && Enabled(s, l) && w in Effect(env, s, l).passes
    ensures FailsRightly(env, Effect(env, s, l).t, Effect(env, s, l).passes[w])
  {
    if !Acts(l, w) {
      OthersUnmoved(env, s, l, w);
      StepOp(env, s, l);
      if OpOf(env, s, l).Some? && s.passes[w].pc.Failing? {
        var p := s.passes[w];
        OpKeepsRightError(s.t, OpOf(env, s, l).value, env.fns(p.run), p.pc.a, p.pc.failure);
      }
    } else if l.Go? && Effect(env, s, l).passes[w].pc.Failing? {
      TurnIsOk(env, s.t, w, s.passes[w], l.c);
      TurnFailsRightly(env, s.t, w, s.passes[w], l.c);
    }
  }

  lemma StepKeepsRight(env: Env, s: Sys, l: Label)
    requires Safe(s) && AllReady(env, s) && AllRight(env, s) && Enabled(s, l)
    ensures AllRight(env, Effect(env, s, l))
  {
    StepKeepsErrors(env, s, l);
    forall w | w in Effect(env, s, l).passes
      ensures FailsRightly(env, Effect(env, s, l).t, Effect(env, s, l).passes[w])
    {
      PassStaysRight(env, s, l, w);
    }
  }

  lemma {:induction false} StaysRight(env: Env, s: Sys, labels: seq<Label>)
    requires Safe(s) && AllReady(env, s) && AllRight(env, s) && Runs(env, s, labels)
    ensures AllRight(env, After(env, s, labels))
    decreases |labels|
  {
    if labels != [] {
      StepKeepsSafe(env, s, labels[0]);
      StepKeepsReady(env, s, labels[0]);
      StepKeepsRight(env, s, labels[0]);
      StaysRight(env, Effect(env, s, labels[0]), labels[1..]);
    }
  }

  /**
    * In every state that workers can reach: a workflow step failed with its child's error, or because its child was
    * canceled, could not be linked, or had not ended by its time; a wait failed only on data that the schema of its
    * call refuses, and a send only because its own calls were refused; no sleep ever fails.
    */
  lemma ErrorsAreRight(env: Env, now: Time, labels: seq<Label>)
    requires Runs(env, Initial(now), labels)
    ensures ErrorsRight(env, After(env, Initial(now), labels).t)
  {
    NothingRunsYet(now);
    StaysRight(env, Initial(now), labels);
  }

  // ---- what a child is asked ----

  /** The run was created by a call of its parent step: under the name and with the input of the call. */
  ghost predicate IsAsked(env: Env, t: Tables, r: Run) {
    r.parent.Some? ==>
      && r.parent.value in t.attempts
      && var a := t.attempts[r.parent.value];
         exists action: Action ::
           && action.Step? && CalledWith(env.fns(a.run), a, action) && r.name == action.target && r.input == action.data
  }

  ghost predicate AllAsked(env: Env, t: Tables) {
    forall id :: id in t.runs ==> IsAsked(env, t, t.runs[id])
  }

  lemma StaysAsked(env: Env, t: Tables, t': Tables, r: Run, r': Run)
    requires IsAsked(env, t, r) && AttemptsMove(t, t') && SameRun(r, r')
    ensures IsAsked(env, t', r')
  {
    if r.parent.Some? {
      var a, a' := t.attempts[r.parent.value], t'.attempts[r.parent.value];
      var action: Action :|
        action.Step? && CalledWith(env.fns(a.run), a, action) && r.name == action.target && r.input == action.data;
      SameCall(env.fns(a.run), a, a', action);
    }
  }

  /** A child is created from the call in progress, for an attempt that is in the table. */
  lemma CreatesAsked(env: Env, t: Tables, w: Id, p: Pass, c: Choice)
    requires PassOk(t, w, p) && Follows(FnOf(env, p), p) && KindFits(p)
    requires TurnOf(env, t, w, p, c).op.Some? && TurnOf(env, t, w, p, c).op.value.CreateRun?
    ensures
      var op := TurnOf(env, t, w, p, c).op.value;
      IsAsked(env, t, NewRun(op, t.now))
  {
    CreatesFromLink(env, t, w, p, c);
    var a, action := p.pc.a, FnOf(env, p)(p.outs);
    assert CalledAfter(FnOf(env, p), a, p.outs);
    assert CalledWith(env.fns(p.run), a, action);
    SameCall(env.fns(p.run), a, t.attempts[a.id], action);
  }

  lemma CreatesFromLink(env: Env, t: Tables, w: Id, p: Pass, c: Choice)
    requires PassOk(t, w, p)
    requires TurnOf(env, t, w, p, c).op.Some? && TurnOf(env, t, w, p, c).op.value.CreateRun?
    ensures p.pc.Linking?
    ensures
      var op := TurnOf(env, t, w, p, c).op.value;
      op.parent == Some(p.pc.a.id) && op.name == p.pc.target && op.input == p.pc.data
  {
    CallsFromThere(env, t, w, p, c);
  }

  lemma StepKeepsAsked(env: Env, s: Sys, l: Label)
    requires Safe(s) && AllReady(env, s) && AllAsked(env, s.t) && Enabled(s, l)
    ensures AllAsked(env, Effect(env, s, l).t)
  {
    StepMoves(env, s, l);
    var t, t' := s.t, Effect(env, s, l).t;
    forall id | id in t'.runs
      ensures IsAsked(env, t', t'.runs[id])
    {
      if id in t.runs {
        StaysAsked(env, t, t', t.runs[id], t'.runs[id]);
      } else {
        var op := OpOf(env, s, l).value;
        OnlyCreateAddsRuns(t, op);
        if l.Go? {
          CreatesAsked(env, t, l.worker, s.passes[l.worker], l.c);
        }
        StaysAsked(env, t, t', NewRun(op, t.now), t'.runs[id]);
      }
    }
  }

  lemma {:induction false} StayAsked(env: Env, s: Sys, labels: seq<Label>)
    requires Safe(s) && AllReady(env, s) && AllAsked(env, s.t) && Runs(env, s, labels)
    ensures AllAsked(env, After(env, s, labels).t)
    decreases |labels|
  {
    if labels != [] {
      StepKeepsSafe(env, s, labels[0]);
      StepKeepsReady(env, s, labels[0]);
      StepKeepsAsked(env, s, labels[0]);
      StayAsked(env, Effect(env, s, labels[0]), labels[1..]);
    }
  }

  /** In every state that workers can reach, each child run has the name and the input of a call of its parent step. */
  lemma ChildrenAreAsked(env: Env, now: Time, labels: seq<Label>)
    requires Runs(env, Initial(now), labels)
    ensures AllAsked(env, After(env, Initial(now), labels).t)
  {
    NothingRunsYet(now);
    StayAsked(env, Initial(now), labels);
  }

  // ---- what a wait listens for, and what a send says ----

  /** The wait listens for the signal that some call of the step names. */
  ghost predicate ListensRight(env: Env, a: Attempt) {
    a.kind == SignalWait ==>
      a.context.SignalUntil? && exists action: Action ::
        action.Step? && CalledWith(env.fns(a.run), a, action) && a.context.signal == action.target
  }

  ghost predicate AllListen(env: Env, t: Tables) {
    forall id :: id in t.attempts ==> ListensRight(env, t.attempts[id])
  }

  /** What makes an attempt new: the insert of a pass for the call in progress. */
  lemma CreatesFromCall(env: Env, t: Tables, w: Id, p: Pass, c: Choice)
    requires PassOk(t, w, p) && Follows(FnOf(env, p), p)
    requires TurnOf(env, t, w, p, c).op.Some? && TurnOf(env, t, w, p, c).op.value.CreateAttempt?
    ensures
      var op, action := TurnOf(env, t, w, p, c).op.value, FnOf(env, p)(p.outs);
      && action.Step? && op.run == p.run && op.kind == action.kind && op.step == NextName(FnOf(env, p), p.outs)
      && (action.kind == SignalWait ==> op.context == SignalUntil(action.target, c.at))
  {
    InsertsWhenCreating(env, t, w, p, c);
  }

  lemma InsertsWhenCreating(env: Env, t: Tables, w: Id, p: Pass, c: Choice)
    requires PassOk(t, w, p)
    requires TurnOf(env, t, w, p, c).op.Some? && TurnOf(env, t, w, p, c).op.value.CreateAttempt?
    ensures p.pc.Creating?
  {
    CallsFromThere(env, t, w, p, c);
  }

  lemma NewAttemptListens(env: Env, t: Tables, w: Id, p: Pass, c: Choice)
    requires PassOk(t, w, p) && Follows(FnOf(env, p), p)
    requires TurnOf(env, t, w, p, c).op.Some? && TurnOf(env, t, w, p, c).op.value.CreateAttempt?
    ensures
      var op := TurnOf(env, t, w, p, c).op.value;
      ListensRight(env, Attempt(op.id, op.run, op.step, op.kind, StepRunning, op.context, None, t.now, Null, Null))
  {
    CreatesFromCall(env, t, w, p, c);
    var op := TurnOf(env, t, w, p, c).op.value;
    var a := Attempt(op.id, op.run, op.step, op.kind, StepRunning, op.context, None, t.now, Null, Null);
    assert CalledAfter(FnOf(env, p), a, p.outs);
    assert CalledWith(env.fns(p.run), a, FnOf(env, p)(p.outs));
  }

  lemma StaysListening(env: Env, a: Attempt, a': Attempt)
    requires ListensRight(env, a) && AttemptMoves(a, a')
    ensures ListensRight(env, a')
  {
    if a.kind == SignalWait {
      var action: Action :|
        action.Step? && CalledWith(env.fns(a.run), a, action) && a.context.signal == action.target;
      SameCall(env.fns(a.run), a, a', action);
    }
  }

  lemma OnlyCreateAddsAttempts(t: Tables, op: Op)
    requires LinksOk(t)
    ensures !op.CreateAttempt? ==> Apply(t, op).attempts.Keys == t.attempts.Keys
    ensures op.CreateAttempt? ==>
      Apply(t, op).attempts
      == t.attempts[op.id := Attempt(op.id, op.run, op.step, op.kind, StepRunning, op.context, None, t.now, Null, Null)]
  {
    assert op.Link? || op.CompleteAttempt? || op.FailAttempt? ==>
      (op.attempt in t.attempts ==> LinkOk(op.attempt, t.attempts[op.attempt], t.runs));
  }

  lemma StepKeepsListening(env: Env, s: Sys, l: Label)
    requires Safe(s) && AllReady(env, s) && AllListen(env, s.t) && Enabled(s, l)
    ensures AllListen(env, Effect(env, s, l).t)
  {
    StepMoves(env, s, l);
    var t, t' := s.t, Effect(env, s, l).t;
    forall id | id in t'.attempts
      ensures ListensRight(env, t'.attempts[id])
    {
      if id in t.attempts {
        StaysListening(env, t.attempts[id], t'.attempts[id]);
      } else {
        OnlyCreateAddsAttempts(t, OpOf(env, s, l).value);
        assert PassReady(env, t, l.worker, s.passes[l.worker]);
        NewAttemptListens(env, t, l.worker, s.passes[l.worker], l.c);
      }
    }
  }

  lemma {:induction false} StayListening(env: Env, s: Sys, labels: seq<Label>)
    requires Safe(s) && AllReady(env, s) && AllListen(env, s.t) && Runs(env, s, labels)
    ensures AllListen(env, After(env, s, labels).t)
    decreases |labels|
  {
    if labels != [] {
      StepKeepsSafe(env, s, labels[0]);
      StepKeepsReady(env, s, labels[0]);
      StepKeepsListening(env, s, labels[0]);
      StayListening(env, Effect(env, s, labels[0]), labels[1..]);
    }
  }

  /** In every state that workers can reach, each wait listens for the signal that some call of its step names. */
  lemma WaitsListenRight(env: Env, now: Time, labels: seq<Label>)
    requires Runs(env, Initial(now), labels)
    ensures AllListen(env, After(env, Initial(now), labels).t)
  {
    NothingRunsYet(now);
    StayListening(env, Initial(now), labels);
  }

  /** And each send that a pass makes has the signal and the data of its call, under the key of its step. */
  lemma SendsSayWhatIsAsked(env: Env, now: Time, labels: seq<Label>, w: Id, c: Choice)
    requires Runs(env, Initial(now), labels)
    requires
      var s := After(env, Initial(now), labels);
      && Enabled(s, Go(w, c)) && OpOf(env, s, Go(w, c)).Some? && OpOf(env, s, Go(w, c)).value.Send?
    ensures
      var s := After(env, Initial(now), labels);
      var p, op := s.passes[w], OpOf(env, s, Go(w, c)).value;
      var action := FnOf(env, p)(p.outs);
      && action.Step? && action.kind == SignalSend && op.signal == action.target && op.data == action.data
      && op.senderKey == Some("__signal:" + p.run + ":" + NextName(FnOf(env, p), p.outs))
  {
    var s := After(env, Initial(now), labels);
    NothingRunsYet(now);
    StaysReady(env, Initial(now), labels);
    assert PassReady(env, s.t, w, s.passes[w]);
    SendsFromCall(env, s.t, w, s.passes[w], c);
  }

  lemma SendsFromCall(env: Env, t: Tables, w: Id, p: Pass, c: Choice)
    requires PassOk(t, w, p) && TurnOf(env, t, w, p, c).op.Some? && TurnOf(env, t, w, p, c).op.value.Send?
    ensures p.pc.Sending?
    ensures TurnOf(env, t, w, p, c).op.value == Send(p.pc.target, Some(SignalKey(p.run, p.pc.a.step)), p.pc.data)
  {
    CallsFromThere(env, t, w, p, c);
  }
}
