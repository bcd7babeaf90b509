/** What a completed step returned: its child's output, its delivered signal, or nothing after its time ran out. */
module StepResults {
  import opened Graphs
  import opened Workflows
  import opened Store
  import opened Lifecycle
  import opened WakeUp
  import opened Signals
  import opened StepHistory
  import opened LedgerProofs
  import opened Replay
  import opened ReplayProofs
  import opened ReplaySafety
  import opened ReplayTraces
  import opened ReplayDeterminism

  // ---- right results ----

  function WaitEnd(a: Attempt): Time {
    TimeoutAt(a).GetOr(a.createdAt + DEFAULT_WAIT)
  }

  /** The function calls the step after these outcomes. */
  ghost predicate CalledAfter(fn: WorkflowFn, a: Attempt, outs: seq<Outcome>) {
    fn(outs).Step? && fn(outs).kind == a.kind && NextName(fn, outs) == a.step
  }

  /** Some pass calls the step with this action. */
  ghost predicate CalledWith(fns: Family, a: Attempt, action: Action) {
    exists n: nat, outs :: CalledAfter(fns(n), a, outs) && fns(n)(outs) == action
  }

  /** What the schema of the call makes of the delivered data. */
  ghost predicate IsDelivered(t: Tables, a: Attempt, action: Action, output: Value)
    requires action.Step? && a.id in t.signals
  {
    var v := action.schema(Normalized(t.signals[a.id].data));
    v.Some? && output == Envelope(v.value)
  }

  /** The runs listed are all those that the step's signal has reached, each once; the list may be empty. */
  ghost predicate ListsReached(t: Tables, run: Id, a: Attempt, action: Action, output: Value)
    requires action.Step?
  {
    exists ids: seq<Id> ::
      && output == RunIds(ids) && Distinct(ids)
      && (ids == [] || Elems(ids) == Recipients(t, action.target, SignalKey(run, a.step)))
  }

  /** The result of a step by its kind; a function may return anything. */
  ghost predicate RightResult(t: Tables, fns: Family, run: Id, a: Attempt, output: Value) {
    match a.kind
    case FunctionStep => true
    case SleepStep => output == Null && a.context.SleepUntil? && a.context.resumeAt <= t.now
    case WorkflowStep =>
      && a.child.Some? && a.child.value in t.runs && t.runs[a.child.value].status == Completed
      && output == t.runs[a.child.value].output
    case SignalWait =>
      if output == Null then t.now >= WaitEnd(a)
      else a.id in t.signals && exists action: Action ::
        action.Step? && CalledWith(fns, a, action) && IsDelivered(t, a, action, output)
    case SignalSend =>
      exists action: Action :: action.Step? && CalledWith(fns, a, action) && ListsReached(t, run, a, action, output)
  }

  ghost predicate ResultsRight(env: Env, t: Tables) {
    forall id :: id in t.attempts && t.attempts[id].status == StepCompleted ==>
      RightResult(t, env.fns(t.attempts[id].run), t.attempts[id].run, t.attempts[id], t.attempts[id].output)
  }

  /** What others do keeps results right: an ended child never changes, signals stay and time passes. */
  lemma OpKeepsRight(t: Tables, op: Op, fns: Family, run: Id, a: Attempt, output: Value)
    requires Consistent(t) && Allowed(t, op) && RightResult(t, fns, run, a, output)
    ensures RightResult(Apply(t, op), fns, run, a, output)
  {
    OpMovesRuns(t, op);
    OpKeepsDeliveries(t, op);
    if a.kind == SignalWait && output != Null {
      var action: Action :| action.Step? && CalledWith(fns, a, action) && IsDelivered(t, a, action, output);
      assert IsDelivered(Apply(t, op), a, action, output);
    }
    if a.kind == SignalSend {
      var action: Action :| action.Step? && CalledWith(fns, a, action) && ListsReached(t, run, a, action, output);
      OpKeepsReached(t, op, run, a, action, output);
    }
  }

  lemma OpKeepsReached(t: Tables, op: Op, run: Id, a: Attempt, action: Action, output: Value)
    requires action.Step? && ListsReached(t, run, a, action, output)
    ensures ListsReached(Apply(t, op), run, a, action, output)
  {
    var key := SignalKey(run, a.step);
    var ids: seq<Id> :|
      && output == RunIds(ids) && Distinct(ids)
      && (ids == [] || Elems(ids) == Recipients(t, action.target, key));
    if ids != [] {
      assert ids[0] in Elems(ids);
      OpKeepsRecipients(t, op, action.target, key);
    }
  }

  // ---- what a pass holds ----

  /** The pass's copy is the row, and it is running. */
  predicate SameRow(t: Tables, a: Attempt) {
    a.id in t.attempts && t.attempts[a.id] == a && a.status == StepRunning
  }

  function InHandOf(p: Pass): Option<Attempt> {
    match p.pc
    case Executing(a, _) => Some(a)
    case Linking(a, _, _, _) => Some(a)
    case Binding(a, _, _) => Some(a)
    case Watching(a) => Some(a)
    case Sending(a, _, _) => Some(a)
    case Receiving(a, _) => Some(a)
    case Completing(a, _, _) => Some(a)
    case Failing(a, _, _) => Some(a)
    case _ => None
  }

  predicate KindFits(p: Pass) {
    match p.pc
    case Executing(a, _) => a.kind == FunctionStep
    case Linking(a, _, _, _) => a.kind == WorkflowStep
    case Binding(a, _, _) => a.kind == WorkflowStep
    case Watching(a) => a.kind == WorkflowStep
    case Sending(a, _, _) => a.kind == SignalSend
    case Receiving(a, _) => a.kind == SignalWait
    case Completing(a, _, onError) => onError.Some? ==> a.kind == FunctionStep || a.kind == SignalSend
    case _ => true
  }

  /** The owner's copies of running attempts are the rows. */
  ghost predicate CopiesFresh(t: Tables, p: Pass) {
    && (forall n :: n in p.ledger.running ==> SameRow(t, p.ledger.running[n]))
    && (InHandOf(p).Some? ==> SameRow(t, InHandOf(p).value))
  }

  ghost predicate OwnerFresh(t: Tables, w: Id, p: Pass) {
    Active(p) && Owned(t, p.run, w) ==> CopiesFresh(t, p)
  }

  ghost predicate ResultReady(t: Tables, fns: Family, p: Pass) {
    KindFits(p) && (p.pc.Completing? ==> RightResult(t, fns, p.run, p.pc.a, p.pc.output))
  }

  ghost predicate PassReady(env: Env, t: Tables, w: Id, p: Pass) {
    OwnerFresh(t, w, p) && ResultReady(t, env.fns(p.run), p) && Follows(FnOf(env, p), p)
  }

  // ---- others ----

  predicate Touches(op: Op, id: Id) {
    (op.Link? || op.CompleteAttempt? || op.FailAttempt?) && op.attempt == id
  }

  /** A row stays as it is under operations on others. */
  lemma RowStays(t: Tables, op: Op, a: Attempt)
    requires Consistent(t) && Allowed(t, op) && SameRow(t, a) && !Touches(op, a.id)
    ensures SameRow(Apply(t, op), a)
  {
    assert op.Link? || op.CompleteAttempt? || op.FailAttempt? ==>
      (op.attempt in t.attempts ==> LinkOk(op.attempt, t.attempts[op.attempt], t.runs));
  }

  /** Only its owner changes an attempt of a run. */
  lemma OthersKeepRow(t: Tables, op: Op, w: Id, run: Id, a: Attempt)
    requires Consistent(t) && Allowed(t, op) && Owned(t, run, w) && Known(t, run, a) && SameRow(t, a)
    requires op.Link? || op.CompleteAttempt? || op.FailAttempt? ==> op.worker != w
    ensures SameRow(Apply(t, op), a)
  {
    if Touches(op, a.id) {
      assert Apply(t, op) == t;
    } else {
      RowStays(t, op, a);
    }
  }

  /** The attempt in hand is one of the pass's run. */
  lemma HandIsKnown(t: Tables, w: Id, p: Pass)
    requires PassOk(t, w, p) && InHandOf(p).Some?
    ensures Known(t, p.run, InHandOf(p).value)
  {
  }

  lemma OthersKeepFresh(t: Tables, op: Op, w: Id, p: Pass)
    requires Consistent(t) && Allowed(t, op) && PassOk(t, w, p) && OwnerFresh(t, w, p)
    requires op.Link? || op.CompleteAttempt? || op.FailAttempt? || op.Claim? ==> op.worker != w
    ensures OwnerFresh(Apply(t, op), w, p)
  {
    if Active(p) && Owned(Apply(t, op), p.run, w) {
      if !Owned(t, p.run, w) {
        OwnershipIsClaimed(t, op, p.run, w);
      }
      forall n | n in p.ledger.running
        ensures SameRow(Apply(t, op), p.ledger.running[n])
      {
        OthersKeepRow(t, op, w, p.run, p.ledger.running[n]);
      }
      if InHandOf(p).Some? {
        HandIsKnown(t, w, p);
        OthersKeepRow(t, op, w, p.run, InHandOf(p).value);
      }
    }
  }

  lemma OthersKeepReady(env: Env, t: Tables, op: Op, w: Id, p: Pass)
    requires Consistent(t) && Allowed(t, op) && PassOk(t, w, p) && PassReady(env, t, w, p)
    requires op.Link? || op.CompleteAttempt? || op.FailAttempt? || op.Claim? ==> op.worker != w
    ensures PassReady(env, Apply(t, op), w, p)
  {
    OthersKeepFresh(t, op, w, p);
    if p.pc.Completing? {
      OpKeepsRight(t, op, env.fns(p.run), p.run, p.pc.a, p.pc.output);
    }
  }

  // ---- the acting pass ----

  /** What a turn gives the pass in hand is what it had, one of its running attempts, or a row as it now stands. */
  ghost predicate HandFrom(t: Tables, p: Pass, q: Pass) {
    && (forall n :: n in q.ledger.running ==>
          (n in p.ledger.running && q.ledger.running[n] == p.ledger.running[n]) || SameRow(t, q.ledger.running[n]))
    && (InHandOf(q).Some? ==>
          || InHandOf(q) == InHandOf(p) || SameRow(t, InHandOf(q).value)
          || (InHandOf(q).value.step in p.ledger.running
              && p.ledger.running[InHandOf(q).value.step] == InHandOf(q).value))
    && KindFits(q)
  }

  lemma LoadHand(t: Tables, w: Id, p: Pass, c: Choice)
    requires p.pc.Loading? && Lists(t, p.run, c.rows)
    ensures HandFrom(t, p, LoadTurn(w, p, c).next.value)
  {
    var running := Rebuilt(c.rows).running;
    forall n | n in running
      ensures SameRow(t, running[n])
    {
      var i := RunningEntry(c.rows, n);
    }
  }

  lemma PrePassHand(env: Env, t: Tables, t': Tables, w: Id, p: Pass, c: Choice)
    requires p.pc.PrePass?
    ensures HandFrom(t', p, PrePassTurn(env, t, w, p, c).next.value)
  {
  }

  lemma CallHand(t: Tables, p: Pass, step: string, action: Action, c: Choice)
    requires action.Step? && (step in p.ledger.running ==> p.ledger.running[step].step == step)
    ensures HandFrom(t, p, CallTurn(p, step, action, c).next.value)
  {
  }

  lemma DecideHand(env: Env, t: Tables, w: Id, p: Pass, c: Choice)
    requires RunningFrom(t, p.run, p.ledger.running)
    ensures HandFrom(t, p, DecideTurn(env, t, w, p, c).next.value)
  {
    var action := FnOf(env, p)(p.outs);
    if action.Step? {
      CallHand(t, p, StepNames.Resolved(Elems(p.names), action.base), action, c);
    }
  }

  /** An insert puts the new row in hand, or parks; a refused one answers the call. */
  lemma CreateOpens(t: Tables, w: Id, p: Pass, c: Choice)
    requires p.pc.Creating?
    ensures
      var turn := CreateTurn(t, w, p, c);
      && KindFits(turn.next.value) && !turn.next.value.pc.Completing?
      && (InHandOf(turn.next.value).Some? ==>
            && turn.op.Some? && c.id in Apply(t, turn.op.value).attempts
            && InHandOf(turn.next.value).value == Apply(t, turn.op.value).attempts[c.id])
      && (turn.op.None? ==> turn.next.value.ledger == p.ledger)
  {
  }

  lemma CreateHand(t: Tables, t': Tables, w: Id, p: Pass, c: Choice)
    requires p.pc.Creating? && p.pc.step !in p.ledger.cache && Possible(t, p, c)
    requires t' == TablesAfter(t, CreateTurn(t, w, p, c))
    requires LinksOk(t')
    ensures HandFrom(t', p, CreateTurn(t, w, p, c).next.value)
  {
    CreateOpens(t, w, p, c);
    CreatedAttempt(t, w, p, c);
    if CreateTurn(t, w, p, c).op.Some? {
      assert LinkOk(c.id, t'.attempts[c.id], t'.runs);
    }
  }

  lemma LinkHand(t: Tables, p: Pass, c: Choice)
    requires p.pc.Linking? && KindFits(p)
    ensures
      var turn := LinkTurn(t, p, c);
      HandFrom(TablesAfter(t, turn), p, turn.next.value)
  {
  }

  lemma BindHand(t: Tables, w: Id, p: Pass, c: Choice)
    requires p.pc.Binding? && KindFits(p) && (Owned(t, p.run, w) ==> SameRow(t, p.pc.a))
    ensures
      var turn := BindTurn(t, w, p, c);
      HandFrom(TablesAfter(t, turn), p, turn.next.value)
  {
  }

  lemma WaitHand(env: Env, t: Tables, w: Id, p: Pass, c: Choice)
    requires (p.pc.Watching? || p.pc.Receiving?) && KindFits(p)
    ensures HandFrom(t, p, TurnOf(env, t, w, p, c).next.value)
  {
  }

  lemma CloseHand(t: Tables, t': Tables, w: Id, p: Pass, c: Choice)
    requires p.pc.Completing? || p.pc.Failing?
    ensures HandFrom(t', p, if p.pc.Completing? then CompleteTurn(t, w, p, c).next.value
                            else FailTurn(t, w, p, c).next.value)
  {
  }

  lemma RestHand(env: Env, t: Tables, t': Tables, w: Id, p: Pass, c: Choice)
    requires (p.pc.Executing? || p.pc.Sending? || p.pc.Ending? || p.pc.Waking?) && KindFits(p)
    requires TurnOf(env, t, w, p, c).next.Some?
    ensures HandFrom(t', p, TurnOf(env, t, w, p, c).next.value)
  {
  }

  lemma TurnHand(env: Env, t: Tables, w: Id, p: Pass, c: Choice)
    requires Consistent(t) && PassOk(t, w, p) && OwnerFresh(t, w, p) && KindFits(p) && Possible(t, p, c)
    requires TurnOf(env, t, w, p, c).next.Some?
    ensures
      var turn := TurnOf(env, t, w, p, c);
      HandFrom(TablesAfter(t, turn), p, turn.next.value)
  {
    if p.pc.Loading? || p.pc.Deciding? || p.pc.Watching? || p.pc.Receiving? {
      ReadsOnly(env, t, w, p, c);
      ReadHand(env, t, w, p, c);
    } else {
      WriteHand(env, t, TablesAfter(t, TurnOf(env, t, w, p, c)), w, p, c);
    }
  }

  lemma ReadHand(env: Env, t: Tables, w: Id, p: Pass, c: Choice)
    requires p.pc.Loading? || p.pc.Deciding? || p.pc.Watching? || p.pc.Receiving?
    requires PassOk(t, w, p) && KindFits(p) && Possible(t, p, c) && TurnOf(env, t, w, p, c).next.Some?
    ensures HandFrom(t, p, TurnOf(env, t, w, p, c).next.value)
  {
    match p.pc
    case Loading => LoadHand(t, w, p, c);
    case Deciding => DecideHand(env, t, w, p, c);
    case _ => WaitHand(env, t, w, p, c);
  }

  lemma WriteHand(env: Env, t: Tables, t': Tables, w: Id, p: Pass, c: Choice)
    requires !p.pc.Loading? && !p.pc.Deciding? && !p.pc.Watching? && !p.pc.Receiving?
    requires Consistent(t) && PassOk(t, w, p) && OwnerFresh(t, w, p) && KindFits(p) && Possible(t, p, c)
    requires TurnOf(env, t, w, p, c).next.Some? && t' == TablesAfter(t, TurnOf(env, t, w, p, c))
    ensures HandFrom(t', p, TurnOf(env, t, w, p, c).next.value)
  {
    match p.pc
    case PrePass(_, _) => PrePassHand(env, t, t', w, p, c);
    case Creating(_, _) =>
      CreateOk(t, w, p, c);
      if CreateTurn(t, w, p, c).op.Some? {
        OpKeepsLinks(t, CreateTurn(t, w, p, c).op.value);
      }
      CreateHand(t, t', w, p, c);
    case Linking(_, _, _, _) => LinkHand(t, p, c);
    case Binding(_, _, _) => BindHand(t, w, p, c);
    case Completing(_, _, _) => CloseHand(t, t', w, p, c);
    case Failing(_, _, _) => CloseHand(t, t', w, p, c);
    case _ => RestHand(env, t, t', w, p, c);
  }

  /** Linking changes the attempt in hand and its copy together. */
  lemma BindStaysFresh(t: Tables, w: Id, p: Pass, c: Choice)
    requires Consistent(t) && PassOk(t, w, p) && p.pc.Binding? && OwnerFresh(t, w, p) && BindTurn(t, w, p, c).op.Some?
    ensures
      var turn := BindTurn(t, w, p, c);
      CopiesFresh(TablesAfter(t, turn), turn.next.value)
  {
    var turn := BindTurn(t, w, p, c);
    var a, q, t' := p.pc.a, turn.next.value, TablesAfter(t, turn);
    forall n | n in q.ledger.running
      ensures SameRow(t', q.ledger.running[n])
    {
      if n != a.step {
        assert Known(t, p.run, p.ledger.running[n]);
        RowStays(t, turn.op.value, p.ledger.running[n]);
      }
    }
  }

  lemma LinksWhenBinding(env: Env, t: Tables, w: Id, p: Pass, c: Choice)
    requires PassOk(t, w, p)
    ensures
      var op := TurnOf(env, t, w, p, c).op;
      op.Some? && op.value.Link? ==> p.pc.Binding?
  {
    if TurnOf(env, t, w, p, c).op.Some? {
      CallsFromThere(env, t, w, p, c);
    }
  }

  lemma ActorStaysFresh(env: Env, t: Tables, w: Id, p: Pass, c: Choice)
    requires Consistent(t) && PassOk(t, w, p) && OwnerFresh(t, w, p) && KindFits(p) && Possible(t, p, c)
    ensures
      var turn := TurnOf(env, t, w, p, c);
      turn.next.Some? ==> OwnerFresh(TablesAfter(t, turn), w, turn.next.value) && KindFits(turn.next.value)
  {
    var turn := TurnOf(env, t, w, p, c);
    var t' := TablesAfter(t, turn);
    TurnIsOk(env, t, w, p, c);
    if turn.next.Some? {
      TurnHand(env, t, w, p, c);
      if Active(turn.next.value) && Owned(t', p.run, w) {
        ActiveBefore(env, t, w, p, c);
        LinksWhenBinding(env, t, w, p, c);
        if turn.op.Some? && turn.op.value.Link? {
          assert turn == BindTurn(t, w, p, c);
          BindStaysFresh(t, w, p, c);
        } else if p.pc.Loading? {
          ReadsOnly(env, t, w, p, c);
          LoadIsFresh(t, w, p, c);
        } else {
          HandStaysFresh(t, t', w, p, turn);
        }
      }
    }
  }

  lemma LoadIsFresh(t: Tables, w: Id, p: Pass, c: Choice)
    requires p.pc.Loading? && Lists(t, p.run, c.rows) && Active(LoadTurn(w, p, c).next.value)
    ensures CopiesFresh(t, LoadTurn(w, p, c).next.value)
  {
    var running := Rebuilt(c.rows).running;
    forall n | n in running
      ensures SameRow(t, running[n])
    {
      var i := RunningEntry(c.rows, n);
    }
  }

  lemma HandStaysFresh(t: Tables, t': Tables, w: Id, p: Pass, turn: Turn)
    requires Consistent(t) && PassOk(t, w, p) && OwnerFresh(t, w, p) && Active(p) && TurnOk(t, w, p, turn)
    requires t' == TablesAfter(t, turn) && turn.next.Some? && HandFrom(t', p, turn.next.value) && Owned(t', p.run, w)
    requires turn.op.Some? ==> !turn.op.value.Link?
    ensures CopiesFresh(t', turn.next.value)
  {
    var q := turn.next.value;
    if turn.op.Some? {
      if !Owned(t, p.run, w) {
        OwnershipIsClaimed(t, turn.op.value, p.run, w);
      }
      forall n | n in p.ledger.running && n in q.ledger.running && q.ledger.running[n] == p.ledger.running[n]
        ensures SameRow(t', q.ledger.running[n])
      {
        assert Known(t, p.run, p.ledger.running[n]);
        RowStays(t, turn.op.value, p.ledger.running[n]);
      }
      HandRowStays(t, w, p, turn);
    }
  }

  /** A turn that still has an attempt in hand has closed none. */
  lemma HandRowStays(t: Tables, w: Id, p: Pass, turn: Turn)
    requires Consistent(t) && PassOk(t, w, p) && CopiesFresh(t, p) && TurnOk(t, w, p, turn)
    requires turn.op.Some? && !turn.op.value.Link? && turn.next.Some?
    requires HandFrom(Apply(t, turn.op.value), p, turn.next.value)
    ensures InHandOf(turn.next.value).Some? ==> SameRow(Apply(t, turn.op.value), InHandOf(turn.next.value).value)
  {
    if InHandOf(turn.next.value).Some? {
      var a := InHandOf(turn.next.value).value;
      if SameRow(t, a) {
        RowStays(t, turn.op.value, a);
      }
    }
  }

  // ---- the result about to be stored ----

  lemma SendIsRight(t: Tables, fns: Family, p: Pass, c: Choice)
    requires p.pc.Sending? && KindFits(p) && Follows(fns(p.claims), p) && Possible(t, p, c) && c.ok
    ensures
      var turn := SendTurn(p, c);
      RightResult(Apply(t, turn.op.value), fns, p.run, p.pc.a, turn.next.value.pc.output)
  {
    var t' := Apply(t, SendTurn(p, c).op.value);
    SendReaches(t, p.pc.target, SignalKey(p.run, p.pc.a.step), p.pc.data);
    assert Elems(c.ids) == Recipients(t', p.pc.target, SignalKey(p.run, p.pc.a.step));
    assert ListsReached(t', p.run, p.pc.a, fns(p.claims)(p.outs), RunIds(c.ids));
    assert CalledAfter(fns(p.claims), p.pc.a, p.outs);
    assert CalledWith(fns, p.pc.a, fns(p.claims)(p.outs));
  }

  lemma WaitIsRight(env: Env, t: Tables, w: Id, p: Pass, c: Choice)
    requires (p.pc.Watching? || p.pc.Receiving?) && KindFits(p) && Follows(FnOf(env, p), p)
    ensures
      var q := TurnOf(env, t, w, p, c).next.value;
      q.pc.Completing? ==> RightResult(t, env.fns(p.run), p.run, q.pc.a, q.pc.output)
  {
    if p.pc.Receiving? && p.pc.a.id in t.signals {
      assert CalledAfter(FnOf(env, p), p.pc.a, p.outs);
      assert CalledWith(env.fns(p.run), p.pc.a, FnOf(env, p)(p.outs));
    }
  }

  /** Only a finished function, a sent signal, an ended child or an answered wait leads to a completion. */
  lemma CompletesFrom(env: Env, t: Tables, w: Id, p: Pass, c: Choice)
    requires TurnOf(env, t, w, p, c).next.Some? && TurnOf(env, t, w, p, c).next.value.pc.Completing?
    ensures p.pc.Executing? || p.pc.Sending? || p.pc.Watching? || p.pc.Receiving?
    ensures p.pc.Sending? ==> c.ok
    ensures p.pc.Executing? ==> TurnOf(env, t, w, p, c).next.value.pc.a == p.pc.a
  {
    match p.pc
    case Creating(_, _) => CreateOpens(t, w, p, c);
    case Deciding =>
      if FnOf(env, p)(p.outs).Step? {
        CallCompletesNothing(p, StepNames.Resolved(Elems(p.names), FnOf(env, p)(p.outs).base), FnOf(env, p)(p.outs),
                             c);
      }
    case _ =>
  }

  lemma CallCompletesNothing(p: Pass, step: string, action: Action, c: Choice)
    requires action.Step?
    ensures !CallTurn(p, step, action, c).next.value.pc.Completing?
  {
  }

  lemma ActorIsRight(env: Env, t: Tables, w: Id, p: Pass, c: Choice)
    requires Consistent(t) && PassOk(t, w, p) && PassReady(env, t, w, p) && Possible(t, p, c)
    ensures
      var turn := TurnOf(env, t, w, p, c);
      turn.next.Some? && turn.next.value.pc.Completing? ==>
        RightResult(TablesAfter(t, turn), env.fns(p.run), p.run, turn.next.value.pc.a, turn.next.value.pc.output)
  {
    var turn := TurnOf(env, t, w, p, c);
    if turn.next.Some? && turn.next.value.pc.Completing? {
      CompletesFrom(env, t, w, p, c);
      if p.pc.Sending? {
        SendIsRight(t, env.fns(p.run), p, c);
      } else if !p.pc.Executing? {
        ReadsOnly(env, t, w, p, c);
        WaitIsRight(env, t, w, p, c);
      }
    }
  }

  lemma ActorStaysReady(env: Env, t: Tables, w: Id, p: Pass, c: Choice)
    requires Consistent(t) && PassOk(t, w, p) && PassReady(env, t, w, p) && Possible(t, p, c)
    ensures
      var turn := TurnOf(env, t, w, p, c);
      turn.next.Some? ==> PassReady(env, TablesAfter(t, turn), w, turn.next.value)
  {
    TurnIsOk(env, t, w, p, c);
    ActorStaysFresh(env, t, w, p, c);
    ActorIsRight(env, t, w, p, c);
    if TurnOf(env, t, w, p, c).next.Some? {
      TurnFollows(env, t, w, p, c);
    }
  }

  // ---- results in the table ----

  lemma CompletesHand(env: Env, t: Tables, w: Id, p: Pass, c: Choice)
    requires p.pc.Completing?
    ensures
      var op := TurnOf(env, t, w, p, c).op;
      op.Some? ==> op.value == CompleteAttempt(p.run, w, p.pc.a.id, p.pc.output)
  {
  }

  lemma OpKeepsResults(env: Env, t: Tables, op: Op)
    requires Consistent(t) && Allowed(t, op) && ResultsRight(env, t)
    requires op.CompleteAttempt? && OwnedAttempt(t, op.run, op.worker, op.attempt) ==>
      RightResult(t, env.fns(op.run), op.run, t.attempts[op.attempt], op.output)
    ensures ResultsRight(env, Apply(t, op))
  {
    var t' := Apply(t, op);
    forall id | id in t'.attempts && t'.attempts[id].status == StepCompleted
      ensures RightResult(t', env.fns(t'.attempts[id].run), t'.attempts[id].run, t'.attempts[id],
                          t'.attempts[id].output)
    {
      var run, step := t'.attempts[id].run, t'.attempts[id].step;
      if Done(t, id, run, step) {
        StillDone(t, op, id, run, step);
        OpKeepsRight(t, op, env.fns(run), run, t.attempts[id], t.attempts[id].output);
      } else {
        NewlyDone(t, op, id, run, step);
        OpKeepsRight(t, op, env.fns(run), run, t.attempts[id], op.output);
        CompletedRow(t, op);
        SameCallRight(t', env.fns(run), run, t.attempts[id], t'.attempts[id], op.output);
      }
    }
  }

  /** A result that is right for an attempt is right for it when completed. */
  lemma SameCallRight(t: Tables, fns: Family, run: Id, a: Attempt, b: Attempt, output: Value)
    requires RightResult(t, fns, run, a, output) && b == CompletedCopy(a, output)
    ensures RightResult(t, fns, run, b, output)
  {
    if a.kind == SignalWait {
      SameDeliveryRight(t, fns, run, a, b, output);
    }
    if a.kind == SignalSend {
      SameListRight(t, fns, run, a, b, output);
    }
  }

  lemma SameListRight(t: Tables, fns: Family, run: Id, a: Attempt, b: Attempt, output: Value)
    requires a.kind == SignalSend && RightResult(t, fns, run, a, output) && b == CompletedCopy(a, output)
    ensures RightResult(t, fns, run, b, output)
  {
    var action: Action :| action.Step? && CalledWith(fns, a, action) && ListsReached(t, run, a, action, output);
    SameCall(fns, a, b, action);
    assert ListsReached(t, run, b, action, output);
  }

  lemma SameDeliveryRight(t: Tables, fns: Family, run: Id, a: Attempt, b: Attempt, output: Value)
    requires a.kind == SignalWait && RightResult(t, fns, run, a, output) && b == CompletedCopy(a, output)
    ensures RightResult(t, fns, run, b, output)
  {
    if output != Null {
      var action: Action :| action.Step? && CalledWith(fns, a, action) && IsDelivered(t, a, action, output);
      SameCall(fns, a, b, action);
      assert IsDelivered(t, b, action, output);
    }
  }

  lemma SameCall(fns: Family, a: Attempt, b: Attempt, action: Action)
    requires CalledWith(fns, a, action) && a.kind == b.kind && a.step == b.step
    ensures CalledWith(fns, b, action)
  {
    var n: nat, outs :| CalledAfter(fns(n), a, outs) && fns(n)(outs) == action;
    assert CalledAfter(fns(n), b, outs);
  }

  lemma CompletedRow(t: Tables, op: Op)
    requires LinksOk(t) && op.CompleteAttempt? && OwnedAttempt(t, op.run, op.worker, op.attempt)
    ensures Apply(t, op).attempts[op.attempt] == CompletedCopy(t.attempts[op.attempt], op.output)
  {
    assert LinkOk(op.attempt, t.attempts[op.attempt], t.runs);
  }

  lemma CompletingIsRight(env: Env, t: Tables, w: Id, p: Pass)
    requires Consistent(t) && PassOk(t, w, p) && PassReady(env, t, w, p) && p.pc.Completing?
    ensures OwnedAttempt(t, p.run, w, p.pc.a.id) ==>
      RightResult(t, env.fns(p.run), p.run, t.attempts[p.pc.a.id], p.pc.output)
  {
  }

  // ---- the system ----

  ghost predicate AllReady(env: Env, s: Sys) {
    ResultsRight(env, s.t) && forall w :: w in s.passes ==> PassReady(env, s.t, w, s.passes[w])
  }

  lemma StepKeepsResults(env: Env, s: Sys, l: Label)
    requires Safe(s) && AllReady(env, s) && Enabled(s, l)
    ensures ResultsRight(env, Effect(env, s, l).t)
  {
    StepOp(env, s, l);
    var op := OpOf(env, s, l);
    if op.Some? {
      if op.value.CompleteAttempt? {
        CompletionIsRight(env, s, l.worker, l.c);
      }
      OpKeepsResults(env, s.t, op.value);
    }
  }

  lemma CompletionIsRight(env: Env, s: Sys, w: Id, c: Choice)
    requires Safe(s) && AllReady(env, s) && Enabled(s, Go(w, c))
    requires OpOf(env, s, Go(w, c)).Some? && OpOf(env, s, Go(w, c)).value.CompleteAttempt?
    ensures
      var op := OpOf(env, s, Go(w, c)).value;
      && OwnedAttempt(s.t, op.run, op.worker, op.attempt)
      && RightResult(s.t, env.fns(op.run), op.run, s.t.attempts[op.attempt], op.output)
  {
    var p := s.passes[w];
    TurnIsOk(env, s.t, w, p, c);
    if p.pc.Completing? {
      CompletesHand(env, s.t, w, p, c);
      CompletingIsRight(env, s.t, w, p);
    } else {
      PrePassCache(env, s.t, w, p, c);
    }
  }

  lemma OthersStayReady(env: Env, s: Sys, l: Label, v: Id)
    requires Safe(s) && AllReady(env, s) && Enabled(s, l) && v in Effect(env, s, l).passes && !Acts(l, v)
    ensures PassReady(env, Effect(env, s, l).t, v, Effect(env, s, l).passes[v])
  {
    OthersUnmoved(env, s, l, v);
    StepOp(env, s, l);
    if OpOf(env, s, l).Some? {
      OthersKeepReady(env, s.t, OpOf(env, s, l).value, v, s.passes[v]);
    }
  }

  lemma NewPassReady(env: Env, t: Tables, w: Id, run: Id, r: Run, registered: bool)
    ensures PassReady(env, t, w, NewPass(w, run, r, registered))
  {
    NewPassFollows(FnOf(env, NewPass(w, run, r, registered)), w, run, r, registered);
  }

  lemma StepKeepsReady(env: Env, s: Sys, l: Label)
    requires Safe(s) && AllReady(env, s) && Enabled(s, l)
    ensures AllReady(env, Effect(env, s, l))
  {
    var s' := Effect(env, s, l);
    StepKeepsResults(env, s, l);
    forall w | w in s'.passes
      ensures PassReady(env, s'.t, w, s'.passes[w])
    {
      if !Acts(l, w) {
        OthersStayReady(env, s, l, w);
      } else if l.Go? {
        ActorStaysReady(env, s.t, w, s.passes[w], l.c);
      } else {
        NewPassReady(env, s'.t, w, l.pick.value, s'.t.runs[l.pick.value], l.registered);
      }
    }
  }

  lemma {:induction false} StaysReady(env: Env, s: Sys, labels: seq<Label>)
    requires Safe(s) && AllReady(env, s) && Runs(env, s, labels)
    ensures Safe(After(env, s, labels)) && AllReady(env, After(env, s, labels))
    decreases |labels|
  {
    if labels != [] {
      StepKeepsSafe(env, s, labels[0]);
      StepKeepsReady(env, s, labels[0]);
      StaysReady(env, Effect(env, s, labels[0]), labels[1..]);
    }
  }

  /**
    * In every state that workers can reach: a completed workflow step returned the output of its own completed child; a
    * completed wait returned what its call's schema makes of the data delivered to it, or nothing once its time had run
    * out; a completed send lists runs that its signal reached; and a completed sleep returned nothing.
    */
  lemma ResultsAreRight(env: Env, now: Time, labels: seq<Label>)
    requires Runs(env, Initial(now), labels)
    ensures ResultsRight(env, After(env, Initial(now), labels).t)
  {
    NothingRunsYet(now);
    StaysReady(env, Initial(now), labels);
  }
}
