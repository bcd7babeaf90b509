/** Replay safety over every interleaving of passes, other callers, crashes and the clock. */
module ReplayProofs {
  import opened Graphs
  import opened Workflows
  import opened Store
  import opened Lifecycle
  import opened WakeUp
  import opened StepNames
  import opened StepHistory
  import opened LedgerProofs
  import opened Replay

  // ---- what a pass knows ----

  /** The pass's copy of an attempt names an attempt of its run. */
  ghost predicate Known(t: Tables, run: Id, a: Attempt) {
    && a.id in t.attempts && t.attempts[a.id].id == a.id && t.attempts[a.id].run == run
    && t.attempts[a.id].step == a.step && t.attempts[a.id].kind == a.kind && t.attempts[a.id].context == a.context
    && t.attempts[a.id].createdAt == a.createdAt && (a.child.Some? ==> a.child.value in t.runs)
  }

  ghost predicate Done(t: Tables, id: Id, run: Id, step: string) {
    && id in t.attempts && t.attempts[id].run == run && t.attempts[id].step == step
    && t.attempts[id].status == StepCompleted
  }

  /** Every cached output is the output of a completed attempt of that step. */
  ghost predicate CacheFrom(t: Tables, run: Id, cache: map<string, Attempt>) {
    forall n :: n in cache ==> exists id :: Done(t, id, run, n) && t.attempts[id].output == cache[n].output
  }

  ghost predicate RunningFrom(t: Tables, run: Id, running: map<string, Attempt>) {
    forall n :: n in running ==> Known(t, run, running[n]) && running[n].step == n
  }

  /** The attempt of the step in progress: one of the run's, not a sleep, of a step without an output. */
  ghost predicate InHand(t: Tables, p: Pass, a: Attempt) {
    Known(t, p.run, a) && a.kind != SleepStep && a.step !in p.ledger.cache
  }

  predicate EndsRun(op: Op, run: Id, w: Id) {
    (op.Complete? || op.FailRun? || op.Park? || op.Reschedule?) && op.run == run && op.worker == w
  }

  ghost predicate PcOk(t: Tables, w: Id, p: Pass) {
    match p.pc
    case Loading => true
    case PrePass(left, _) => forall n :: n in left ==> Known(t, p.run, left[n]) && IsSleep(left[n])
    case Deciding => true
    case Creating(step, action) => action.Step? && step !in p.ledger.cache
    case Executing(a, _) => InHand(t, p, a)
    case Linking(a, _, _, _) => InHand(t, p, a) && a.child.None?
    case Binding(a, _, child) =>
      InHand(t, p, a) && a.child.None? && child in t.runs && t.runs[child].key == Some(ChildKey(a.id))
    case Watching(a) => InHand(t, p, a) && a.child.Some?
    case Sending(a, _, _) => InHand(t, p, a)
    case Receiving(a, _) => InHand(t, p, a)
    case Completing(a, _, _) => InHand(t, p, a)
    case Failing(a, _, _) => InHand(t, p, a)
    case Ending(op) => EndsRun(op, p.run, w)
    case Waking => true
  }

  ghost predicate PassOk(t: Tables, w: Id, p: Pass) {
    p.run in t.runs && CacheFrom(t, p.run, p.ledger.cache) && RunningFrom(t, p.run, p.ledger.running) && PcOk(t, w, p)
  }

  /** A pass that has loaded its history and has not come to its end. */
  predicate Active(p: Pass) {
    !p.pc.Loading? && !p.pc.Ending? && !p.pc.Waking?
  }

  /** The cache misses no completed step of the run. */
  ghost predicate MissesNone(t: Tables, run: Id, cache: map<string, Attempt>) {
    forall id, n :: Done(t, id, run, n) ==> n in cache
  }

  // ---- what one turn does ----

  /** A turn completes only an attempt it may complete: of a step without an output, or a sleep. */
  ghost predicate TurnOk(t: Tables, w: Id, p: Pass, turn: Turn) {
    && (turn.op.Some? ==> Allowed(t, turn.op.value))
    && (turn.next.Some? ==> turn.next.value.run == p.run && turn.next.value.claims == p.claims)
    && (turn.op.Some? && turn.op.value.CompleteAttempt? ==> CompletionOk(t, w, p, turn, turn.op.value))
    && (turn.next.Some? && !p.pc.Loading? && !(turn.op.Some? && turn.op.value.CompleteAttempt?) ==>
          turn.next.value.ledger.cache == p.ledger.cache)
    && (turn.op.Some? ==> OpFits(w, p, turn.op.value))
    && (turn.op.Some? && turn.op.value.CreateAttempt? ==> InsertOk(p, turn.op.value))
    && (turn.op.Some? && (turn.op.value.CompleteAttempt? || turn.op.value.FailAttempt?) ==>
          ClosesOk(t, p, turn, turn.op.value.attempt))
  }

  /** The step of a closed attempt is no longer running, and the pass holds no attempt. */
  ghost predicate ClosesOk(t: Tables, p: Pass, turn: Turn, attempt: Id) {
    && attempt in t.attempts && turn.next.Some? && (turn.next.value.pc.PrePass? || turn.next.value.pc.Deciding?)
    && turn.next.value.ledger.running == p.ledger.running - {t.attempts[attempt].step}
  }

  /**
    * A turn acts for its own worker on its own run, ends the run only when it ends itself, and wakes only its own
    * parent.
    */
  predicate OpFits(w: Id, p: Pass, op: Op) {
    && !op.Claim? && !op.Cancel? && !op.Forget? && !op.Extend?
    && (op.Wake? ==> p.pc.Waking? && op.child == p.run)
    && (op.CompleteAttempt? || op.FailAttempt? || op.Link? ==> op.run == p.run && op.worker == w)
    && (op.Complete? || op.FailRun? || op.Park? || op.Reschedule? ==>
          p.pc.Ending? && op == p.pc.op && EndsRun(op, p.run, w))
  }

  predicate InsertOk(p: Pass, op: Op)
    requires op.CreateAttempt?
  {
    p.pc.Creating? && p.pc.action.Step? && op.run == p.run && op.step == p.pc.step && op.kind == p.pc.action.kind
  }

  ghost predicate CompletionOk(t: Tables, w: Id, p: Pass, turn: Turn, op: Op)
    requires op.CompleteAttempt?
  {
    && (p.pc.PrePass? || p.pc.Completing?) && op.run == p.run && op.worker == w && OwnedAttempt(t, p.run, w, op.attempt)
    && var a := t.attempts[op.attempt];
       && (if a.kind == SleepStep then op.output == Null else a.step !in p.ledger.cache)
       && turn.next.Some? && turn.next.value.ledger.cache.Keys == p.ledger.cache.Keys + {a.step}
  }

  lemma PrePassOk(env: Env, t: Tables, w: Id, p: Pass, c: Choice)
    requires PassOk(t, w, p) && p.pc.PrePass?
    ensures TurnOk(t, w, p, PrePassTurn(env, t, w, p, c))
  {
  }

  lemma CreateOk(t: Tables, w: Id, p: Pass, c: Choice)
    requires PassOk(t, w, p) && p.pc.Creating? && Possible(t, p, c)
    ensures TurnOk(t, w, p, CreateTurn(t, w, p, c))
  {
  }

  lemma LinkOkay(t: Tables, w: Id, p: Pass, c: Choice)
    requires PassOk(t, w, p) && p.pc.Linking? && Possible(t, p, c)
    ensures TurnOk(t, w, p, LinkTurn(t, p, c))
  {
  }

  lemma EndOk(env: Env, t: Tables, w: Id, p: Pass, c: Choice)
    requires PassOk(t, w, p) && p.pc.Ending?
    ensures TurnOk(t, w, p, EndTurn(env, t, w, p, c))
  {
  }

  lemma CompleteOk(t: Tables, w: Id, p: Pass, c: Choice)
    requires PassOk(t, w, p) && p.pc.Completing?
    ensures TurnOk(t, w, p, CompleteTurn(t, w, p, c))
  {
  }

  lemma FailOk(t: Tables, w: Id, p: Pass, c: Choice)
    requires PassOk(t, w, p) && p.pc.Failing?
    ensures TurnOk(t, w, p, FailTurn(t, w, p, c))
  {
  }

  lemma BindOk(t: Tables, w: Id, p: Pass, c: Choice)
    requires PassOk(t, w, p) && p.pc.Binding?
    ensures TurnOk(t, w, p, BindTurn(t, w, p, c))
  {
  }

  /** A turn that makes no call and keeps the run and the cache is allowed. */
  ghost predicate CallsNothing(p: Pass, turn: Turn) {
    && turn.op.None?
    && (turn.next.Some? ==>
          && turn.next.value.run == p.run && turn.next.value.claims == p.claims
          && (p.pc.Loading? || turn.next.value.ledger.cache == p.ledger.cache))
  }

  lemma NothingIsOk(t: Tables, w: Id, p: Pass, turn: Turn)
    requires CallsNothing(p, turn)
    ensures TurnOk(t, w, p, turn)
  {
  }

  lemma LoadCallsNothing(w: Id, p: Pass, c: Choice)
    requires p.pc.Loading?
    ensures CallsNothing(p, LoadTurn(w, p, c))
  {
  }

  lemma DecideCallsNothing(env: Env, t: Tables, w: Id, p: Pass, c: Choice)
    ensures CallsNothing(p, DecideTurn(env, t, w, p, c))
  {
    var action := FnOf(env, p)(p.outs);
    if action.Step? {
      CallCallsNothing(p, Resolved(Elems(p.names), action.base), action, c);
    }
  }

  lemma CallCallsNothing(p: Pass, step: string, action: Action, c: Choice)
    requires action.Step?
    ensures CallsNothing(p, CallTurn(p, step, action, c))
  {
  }

  lemma WatchCallsNothing(t: Tables, w: Id, p: Pass)
    requires p.pc.Watching?
    ensures CallsNothing(p, WatchTurn(t, w, p))
  {
  }

  lemma ReceiveCallsNothing(t: Tables, w: Id, p: Pass)
    requires p.pc.Receiving?
    ensures CallsNothing(p, ReceiveTurn(t, w, p))
  {
  }

  lemma SendOk(t: Tables, w: Id, p: Pass, c: Choice)
    requires p.pc.Sending?
    ensures TurnOk(t, w, p, SendTurn(p, c))
  {
  }

  lemma WakeOk(t: Tables, w: Id, p: Pass)
    requires p.pc.Waking?
    ensures TurnOk(t, w, p, Turn(Some(Wake(p.run)), None))
  {
  }

  lemma QuietOk(env: Env, t: Tables, w: Id, p: Pass, c: Choice)
    requires p.pc.Loading? || p.pc.Deciding? || p.pc.Executing? || p.pc.Watching? || p.pc.Receiving?
    ensures CallsNothing(p, TurnOf(env, t, w, p, c))
  {
    match p.pc
    case Loading => LoadCallsNothing(w, p, c);
    case Deciding => DecideCallsNothing(env, t, w, p, c);
    case Watching(_) => WatchCallsNothing(t, w, p);
    case Receiving(_, _) => ReceiveCallsNothing(t, w, p);
    case _ =>
  }

  lemma TurnIsOk(env: Env, t: Tables, w: Id, p: Pass, c: Choice)
    requires PassOk(t, w, p) && Possible(t, p, c)
    ensures TurnOk(t, w, p, TurnOf(env, t, w, p, c))
  {
    match p.pc
    case PrePass(_, _) => PrePassOk(env, t, w, p, c);
    case Creating(_, _) => CreateOk(t, w, p, c);
    case Linking(_, _, _, _) => LinkOkay(t, w, p, c);
    case Binding(_, _, _) => BindOk(t, w, p, c);
    case Sending(_, _, _) => SendOk(t, w, p, c);
    case Waking => WakeOk(t, w, p);
    case Completing(_, _, _) => CompleteOk(t, w, p, c);
    case Failing(_, _, _) => FailOk(t, w, p, c);
    case Ending(_) => EndOk(env, t, w, p, c);
    case _ =>
      QuietOk(env, t, w, p, c);
      NothingIsOk(t, w, p, TurnOf(env, t, w, p, c));
  }

  /** Where a pass stands when it makes each kind of call. */
  predicate CalledFrom(pc: Pc, op: Op) {
    && (op.CreateRun? ==> pc.Linking?) && (op.CreateAttempt? ==> pc.Creating?) && (op.Send? ==> pc.Sending?)
    && (op.Link? ==> pc.Binding?) && (op.FailAttempt? ==> pc.Failing?)
    && (op.CompleteAttempt? ==> pc.Completing? || pc.PrePass?)
  }

  lemma CallsFromThere(env: Env, t: Tables, w: Id, p: Pass, c: Choice)
    requires PassOk(t, w, p) && TurnOf(env, t, w, p, c).op.Some?
    ensures CalledFrom(p.pc, TurnOf(env, t, w, p, c).op.value)
  {
    match p.pc
    case PrePass(_, _) => PrePassCalls(env, t, w, p, c);
    case Creating(_, _) => CreateCalls(t, w, p, c);
    case Linking(_, _, _, _) =>
    case Binding(_, _, _) =>
    case Sending(_, _, _) =>
    case Waking =>
    case Completing(_, _, _) =>
    case Failing(_, _, _) =>
    case Ending(_) =>
    case _ => QuietOk(env, t, w, p, c);
  }

  lemma PrePassCalls(env: Env, t: Tables, w: Id, p: Pass, c: Choice)
    requires p.pc.PrePass? && PrePassTurn(env, t, w, p, c).op.Some?
    ensures PrePassTurn(env, t, w, p, c).op.value.CompleteAttempt?
  {
  }

  lemma CreateCalls(t: Tables, w: Id, p: Pass, c: Choice)
    requires p.pc.Creating? && CreateTurn(t, w, p, c).op.Some?
    ensures CreateTurn(t, w, p, c).op.value.CreateAttempt?
  {
  }

  // ---- a pass stays consistent ----

  /** Nothing that others do spoils what a pass knows. */
  lemma GrowingKeepsPass(t: Tables, t': Tables, w: Id, p: Pass)
    requires PassOk(t, w, p) && RunsMove(t, t') && AttemptsMove(t, t')
    ensures PassOk(t', w, p)
  {
  }

  lemma LoadedPassOk(t: Tables, w: Id, p: Pass, c: Choice)
    requires Consistent(t) && PassOk(t, w, p) && Lists(t, p.run, c.rows)
    ensures PassOk(t, w, LoadTurn(w, p, c).next.value)
  {
    LoadedHistory(t, p.run, c.rows);
    if |c.rows| <= STEP_LIMIT {
      LoadedSleepsOk(t, w, p, LoadTurn(w, p, c).next.value);
    }
  }

  lemma LoadedHistory(t: Tables, run: Id, rows: seq<Attempt>)
    requires LinksOk(t) && Lists(t, run, rows)
    ensures CacheFrom(t, run, Rebuilt(rows).cache) && RunningFrom(t, run, Rebuilt(rows).running)
  {
    RebuiltCache(rows);
    RebuiltRunning(rows);
    LoadedLedger(t, run, rows, Rebuilt(rows));
  }

  /** The sleeps to look at are among the running attempts. */
  lemma LoadedSleepsOk(t: Tables, w: Id, p: Pass, q: Pass)
    requires q.run == p.run && RunningFrom(t, q.run, q.ledger.running) && q.pc.PrePass?
    requires q.pc.left == map n | n in q.ledger.running && IsSleep(q.ledger.running[n]) :: q.ledger.running[n]
    ensures PcOk(t, w, q)
  {
  }

  lemma LoadedLedger(t: Tables, run: Id, rows: seq<Attempt>, l: Ledger)
    requires LinksOk(t) && Lists(t, run, rows)
    requires forall n ::
      n in l.cache ==> exists i ::
        0 <= i < |rows| && rows[i].status == StepCompleted && rows[i].step == n && l.cache[n] == rows[i]
    requires forall n ::
      n in l.running ==> exists i ::
        0 <= i < |rows| && rows[i].status == StepRunning && rows[i].step == n && l.running[n] == rows[i]
    ensures CacheFrom(t, run, l.cache) && RunningFrom(t, run, l.running)
  {
  }

  /** Recording a completion that is in the table. */
  lemma CompletionKeepsPass(t: Tables, w: Id, p: Pass, p': Pass, a: Attempt)
    requires PassOk(t, w, p) && p'.run == p.run && p'.ledger == WithCompletion(p.ledger, a)
    requires Done(t, a.id, p.run, a.step) && t.attempts[a.id].output == a.output
    ensures CacheFrom(t, p.run, p'.ledger.cache) && RunningFrom(t, p.run, p'.ledger.running)
  {
  }

  lemma PrePassNext(env: Env, t: Tables, t': Tables, w: Id, p: Pass, c: Choice)
    requires PassOk(t, w, p) && PassOk(t', w, p) && p.pc.PrePass?
    requires
      var turn := PrePassTurn(env, t, w, p, c);
      t' == if turn.op.Some? then Apply(t, turn.op.value) else t
    ensures PassOk(t', w, PrePassTurn(env, t, w, p, c).next.value)
  {
    var turn := PrePassTurn(env, t, w, p, c);
    if turn.op.Some? {
      var a := CompletedCopy(p.pc.left[c.step], Null);
      assert Done(t', a.id, p.run, a.step);
      CompletionKeepsPass(t', w, p, turn.next.value, a);
    }
  }

  lemma CompleteNext(t: Tables, t': Tables, w: Id, p: Pass, c: Choice)
    requires PassOk(t, w, p) && PassOk(t', w, p) && p.pc.Completing?
    requires
      var turn := CompleteTurn(t, w, p, c);
      t' == if turn.op.Some? then Apply(t, turn.op.value) else t
    ensures PassOk(t', w, CompleteTurn(t, w, p, c).next.value)
  {
    var turn := CompleteTurn(t, w, p, c);
    if turn.op.Some? {
      var a := CompletedCopy(p.pc.a, p.pc.output);
      assert Done(t', a.id, p.run, a.step);
      CompletionKeepsPass(t', w, p, turn.next.value, a);
    }
  }

  lemma RunningKeepsPass(t: Tables, w: Id, p: Pass, p': Pass, a: Attempt)
    requires PassOk(t, w, p) && p'.run == p.run && p'.ledger == WithRunning(p.ledger, a) && Known(t, p.run, a)
    requires PcOk(t, w, p')
    ensures PassOk(t, w, p')
  {
  }

  lemma SilentKeepsPass(t: Tables, w: Id, p: Pass, p': Pass)
    requires PassOk(t, w, p) && p'.run == p.run && p'.ledger == p.ledger && PcOk(t, w, p')
    ensures PassOk(t, w, p')
  {
  }

  lemma CreatedAttempt(t: Tables, w: Id, p: Pass, c: Choice)
    requires p.pc.Creating? && p.pc.step !in p.ledger.cache && Possible(t, p, c)
    ensures
      var turn := CreateTurn(t, w, p, c);
      turn.op.Some? ==>
        var t' := Apply(t, turn.op.value);
        && c.id in t'.attempts && Known(t', p.run, t'.attempts[c.id])
        && turn.next.value.run == p.run && turn.next.value.ledger == WithRunning(p.ledger, t'.attempts[c.id])
        && PcOk(t', w, turn.next.value)
  {
  }

  lemma CreateNext(t: Tables, t': Tables, w: Id, p: Pass, c: Choice)
    requires PassOk(t, w, p) && PassOk(t', w, p) && p.pc.Creating? && Possible(t, p, c)
    requires
      var turn := CreateTurn(t, w, p, c);
      t' == if turn.op.Some? then Apply(t, turn.op.value) else t
    ensures PassOk(t', w, CreateTurn(t, w, p, c).next.value)
  {
    var turn := CreateTurn(t, w, p, c);
    CreatedAttempt(t, w, p, c);
    if turn.op.Some? {
      RunningKeepsPass(t', w, p, turn.next.value, t'.attempts[c.id]);
    } else {
      SilentKeepsPass(t', w, p, turn.next.value);
    }
  }

  lemma LinkNext(t: Tables, t': Tables, w: Id, p: Pass, c: Choice)
    requires PassOk(t, w, p) && PassOk(t', w, p) && p.pc.Linking? && Possible(t, p, c)
    requires
      var turn := LinkTurn(t, p, c);
      t' == if turn.op.Some? then Apply(t, turn.op.value) else t
    ensures PassOk(t', w, LinkTurn(t, p, c).next.value)
  {
  }

  lemma BindNext(t: Tables, t': Tables, w: Id, p: Pass, c: Choice)
    requires PassOk(t, w, p) && PassOk(t', w, p) && p.pc.Binding?
    ensures PassOk(t', w, BindTurn(t, w, p, c).next.value)
  {
  }

  lemma FailNext(t: Tables, t': Tables, w: Id, p: Pass, c: Choice)
    requires PassOk(t, w, p) && PassOk(t', w, p) && p.pc.Failing?
    ensures PassOk(t', w, FailTurn(t, w, p, c).next.value)
  {
  }

  lemma CallNext(t: Tables, w: Id, p: Pass, step: string, action: Action, c: Choice)
    requires RunningFrom(t, p.run, p.ledger.running) && action.Step?
    ensures
      var p' := CallTurn(p, step, action, c).next.value;
      PcOk(t, w, p') && p'.run == p.run && p'.ledger == p.ledger
  {
    if step !in p.ledger.cache {
      match action.kind
      case WorkflowStep => CallChildNext(t, w, p, step, action, c);
      case SignalSend => CallSignalNext(t, w, p, step, action, c);
      case SignalWait => CallSignalNext(t, w, p, step, action, c);
      case SleepStep =>
      case FunctionStep =>
    }
  }

  lemma CallChildNext(t: Tables, w: Id, p: Pass, step: string, action: Action, c: Choice)
    requires RunningFrom(t, p.run, p.ledger.running) && step !in p.ledger.cache
    requires action.Step? && action.kind == WorkflowStep
    ensures
      var p' := CallTurn(p, step, action, c).next.value;
      PcOk(t, w, p') && p'.run == p.run && p'.ledger == p.ledger
  {
  }

  lemma CallSignalNext(t: Tables, w: Id, p: Pass, step: string, action: Action, c: Choice)
    requires RunningFrom(t, p.run, p.ledger.running) && step !in p.ledger.cache
    requires action.Step? && (action.kind == SignalSend || action.kind == SignalWait)
    ensures
      var p' := CallTurn(p, step, action, c).next.value;
      PcOk(t, w, p') && p'.run == p.run && p'.ledger == p.ledger
  {
  }

  lemma DecidePc(env: Env, t: Tables, w: Id, p: Pass, c: Choice)
    requires RunningFrom(t, p.run, p.ledger.running)
    ensures
      var p' := DecideTurn(env, t, w, p, c).next.value;
      PcOk(t, w, p') && p'.run == p.run && p'.ledger == p.ledger
  {
    var action := FnOf(env, p)(p.outs);
    if action.Step? {
      CallNext(t, w, p, Resolved(Elems(p.names), action.base), action, c);
    }
  }

  lemma DecideNext(env: Env, t: Tables, w: Id, p: Pass, c: Choice)
    requires PassOk(t, w, p) && p.pc.Deciding?
    ensures PassOk(t, w, DecideTurn(env, t, w, p, c).next.value)
  {
    DecidePc(env, t, w, p, c);
    SilentKeepsPass(t, w, p, DecideTurn(env, t, w, p, c).next.value);
  }

  lemma WaitNext(env: Env, t: Tables, w: Id, p: Pass, c: Choice)
    requires PassOk(t, w, p) && (p.pc.Watching? || p.pc.Receiving?)
    ensures PassOk(t, w, TurnOf(env, t, w, p, c).next.value)
  {
    if p.pc.Watching? {
      WatchNext(t, w, p);
    } else {
      ReceiveNext(t, w, p);
    }
  }

  lemma WatchNext(t: Tables, w: Id, p: Pass)
    requires PassOk(t, w, p) && p.pc.Watching?
    ensures PassOk(t, w, WatchTurn(t, w, p).next.value)
  {
    SilentKeepsPass(t, w, p, WatchTurn(t, w, p).next.value);
  }

  lemma ReceiveNext(t: Tables, w: Id, p: Pass)
    requires PassOk(t, w, p) && p.pc.Receiving?
    ensures PassOk(t, w, ReceiveTurn(t, w, p).next.value)
  {
    SilentKeepsPass(t, w, p, ReceiveTurn(t, w, p).next.value);
  }

  lemma QuietNext(env: Env, t: Tables, t': Tables, w: Id, p: Pass, c: Choice)
    requires PassOk(t', w, p) && (p.pc.Executing? || p.pc.Sending? || p.pc.Ending? || p.pc.Waking?)
    requires TurnOf(env, t, w, p, c).next.Some?
    ensures PassOk(t', w, TurnOf(env, t, w, p, c).next.value)
  {
  }

  function TablesAfter(t: Tables, turn: Turn): Tables {
    AfterOp(t, turn.op)
  }

  lemma TurnKeepsPass(env: Env, t: Tables, w: Id, p: Pass, c: Choice)
    requires Consistent(t) && PassOk(t, w, p) && Possible(t, p, c)
    ensures
      var turn := TurnOf(env, t, w, p, c);
      turn.next.Some? ==> PassOk(TablesAfter(t, turn), w, turn.next.value)
  {
    var turn := TurnOf(env, t, w, p, c);
    var t' := TablesAfter(t, turn);
    TurnIsOk(env, t, w, p, c);
    if turn.op.Some? {
      OpMovesRuns(t, turn.op.value);
      OpMovesAttempts(t, turn.op.value);
      GrowingKeepsPass(t, t', w, p);
    }
    if turn.next.Some? {
      NextOk(env, t, t', w, p, c);
    }
  }

  lemma NextOk(env: Env, t: Tables, t': Tables, w: Id, p: Pass, c: Choice)
    requires Consistent(t) && PassOk(t, w, p) && PassOk(t', w, p) && Possible(t, p, c)
    requires t' == TablesAfter(t, TurnOf(env, t, w, p, c))
    requires TurnOf(env, t, w, p, c).next.Some?
    ensures PassOk(t', w, TurnOf(env, t, w, p, c).next.value)
  {
    if p.pc.Loading? || p.pc.Deciding? || p.pc.Watching? || p.pc.Receiving? {
      ReadsOnly(env, t, w, p, c);
      ReadNextOk(env, t, w, p, c);
    } else if p.pc.Executing? || p.pc.Sending? || p.pc.Ending? || p.pc.Waking? {
      QuietNext(env, t, t', w, p, c);
    } else {
      StepNextOk(env, t, t', w, p, c);
    }
  }

  lemma ReadsOnly(env: Env, t: Tables, w: Id, p: Pass, c: Choice)
    requires p.pc.Loading? || p.pc.Deciding? || p.pc.Watching? || p.pc.Receiving?
    ensures TurnOf(env, t, w, p, c).op.None?
  {
  }

  lemma ReadNextOk(env: Env, t: Tables, w: Id, p: Pass, c: Choice)
    requires p.pc.Loading? || p.pc.Deciding? || p.pc.Watching? || p.pc.Receiving?
    requires Consistent(t) && PassOk(t, w, p) && Possible(t, p, c) && TurnOf(env, t, w, p, c).next.Some?
    ensures PassOk(t, w, TurnOf(env, t, w, p, c).next.value)
  {
    match p.pc
    case Loading => LoadedPassOk(t, w, p, c);
    case Deciding => DecideNext(env, t, w, p, c);
    case _ => WaitNext(env, t, w, p, c);
  }

  lemma StepNextOk(env: Env, t: Tables, t': Tables, w: Id, p: Pass, c: Choice)
    requires p.pc.PrePass? || p.pc.Creating? || p.pc.Linking? || p.pc.Binding? || p.pc.Completing? || p.pc.Failing?
    requires PassOk(t, w, p) && PassOk(t', w, p) && Possible(t, p, c) && t' == TablesAfter(t, TurnOf(env, t, w, p, c))
    requires TurnOf(env, t, w, p, c).next.Some?
    ensures PassOk(t', w, TurnOf(env, t, w, p, c).next.value)
  {
    match p.pc
    case PrePass(_, _) => PrePassNext(env, t, t', w, p, c);
    case Creating(_, _) => CreateNext(t, t', w, p, c);
    case Linking(_, _, _, _) => LinkNext(t, t', w, p, c);
    case Binding(_, _, _) => BindNext(t, t', w, p, c);
    case Completing(_, _, _) => CompleteNext(t, t', w, p, c);
    case Failing(_, _, _) => FailNext(t, t', w, p, c);
  }
}
