/** What holds in every reachable state of the system: at-most-once completion and outputs that never change. */
module ReplaySafety {
  import opened Graphs
  import opened Workflows
  import opened Store
  import opened Lifecycle
  import opened WakeUp
  import opened StepHistory
  import opened LedgerProofs
  import opened Replay
  import opened ReplayProofs

  // ---- the invariant ----

  ghost predicate SleepDone(t: Tables, id: Id) {
    id in t.attempts && t.attempts[id].status == StepCompleted && t.attempts[id].kind == SleepStep
  }

  /** A completed sleep has no output. */
  ghost predicate SleepsNull(t: Tables) {
    forall id :: SleepDone(t, id) ==> t.attempts[id].output == Null
  }

  ghost predicate WorkDone(t: Tables, id: Id, run: Id, step: string) {
    Done(t, id, run, step) && t.attempts[id].kind != SleepStep
  }

  /** Of each step of a run, at most one attempt other than a sleep is completed. */
  ghost predicate AtMostOnce(t: Tables) {
    forall i, j, run, step :: WorkDone(t, i, run, step) && WorkDone(t, j, run, step) ==> i == j
  }

  /** The pass that owns its run has every completed step in its cache. */
  ghost predicate OwnerKnows(t: Tables, w: Id, p: Pass) {
    Active(p) && Owned(t, p.run, w) ==> MissesNone(t, p.run, p.ledger.cache)
  }

  ghost predicate PassSafe(t: Tables, w: Id, p: Pass) {
    PassOk(t, w, p) && OwnerKnows(t, w, p)
  }

  ghost predicate Safe(s: Sys) {
    Consistent(s.t) && SleepsNull(s.t) && AtMostOnce(s.t) && forall w :: w in s.passes ==> PassSafe(s.t, w, s.passes[w])
  }

  // ---- operations ----

  /** An attempt is newly completed by its owner's completion and by nothing else. */
  lemma NewlyDone(t: Tables, op: Op, id: Id, run: Id, step: string)
    requires Consistent(t) && Allowed(t, op) && Done(Apply(t, op), id, run, step) && !Done(t, id, run, step)
    ensures op.CompleteAttempt? && op.attempt == id && OwnedAttempt(t, op.run, op.worker, id)
    ensures t.attempts[id].run == run && op.run == run && t.attempts[id].step == step
    ensures Apply(t, op).attempts[id].output == op.output && Apply(t, op).attempts[id].kind == t.attempts[id].kind
  {
  }

  lemma StillDone(t: Tables, op: Op, id: Id, run: Id, step: string)
    requires Consistent(t) && Allowed(t, op) && Done(t, id, run, step)
    ensures Done(Apply(t, op), id, run, step) && Apply(t, op).attempts[id] == t.attempts[id]
  {
  }

  /**
    * What others do leaves a pass what it knows: a completion by another worker means that this one is not the owner.
    */
  lemma OthersKeepKnowing(t: Tables, op: Op, w: Id, p: Pass)
    requires Consistent(t) && Allowed(t, op) && PassOk(t, w, p) && OwnerKnows(t, w, p)
    requires op.CompleteAttempt? || op.Claim? ==> op.worker != w
    ensures OwnerKnows(Apply(t, op), w, p) && PassOk(Apply(t, op), w, p)
  {
    var t' := Apply(t, op);
    OpMovesRuns(t, op);
    OpMovesAttempts(t, op);
    GrowingKeepsPass(t, t', w, p);
    if Active(p) && Owned(t', p.run, w) {
      if !Owned(t, p.run, w) {
        OwnershipIsClaimed(t, op, p.run, w);
      }
      forall id, n | Done(t', id, p.run, n)
        ensures n in p.ledger.cache
      {
        if !Done(t, id, p.run, n) {
          NewlyDone(t, op, id, p.run, n);
        }
      }
    }
  }

  // ---- a turn ----

  lemma LoadKnows(t: Tables, w: Id, p: Pass, c: Choice)
    requires p.pc.Loading? && Lists(t, p.run, c.rows)
    ensures OwnerKnows(t, w, LoadTurn(w, p, c).next.value)
  {
    RebuiltCache(c.rows);
    var cache := Rebuilt(c.rows).cache;
    forall id, n | Done(t, id, p.run, n)
      ensures n in cache
    {
      assert t.attempts[id] in c.rows;
      var i :| 0 <= i < |c.rows| && c.rows[i] == t.attempts[id];
      assert c.rows[i].status == StepCompleted;
    }
  }

  lemma ActiveBefore(env: Env, t: Tables, w: Id, p: Pass, c: Choice)
    requires TurnOf(env, t, w, p, c).next.Some? && Active(TurnOf(env, t, w, p, c).next.value)
    ensures Active(p) || p.pc.Loading?
  {
  }

  /** The acting pass knows every completed step after its turn, its own new one included. */
  lemma ActorKeepsKnowing(env: Env, t: Tables, w: Id, p: Pass, c: Choice)
    requires Consistent(t) && PassOk(t, w, p) && OwnerKnows(t, w, p) && Possible(t, p, c)
    ensures
      var turn := TurnOf(env, t, w, p, c);
      turn.next.Some? ==> OwnerKnows(TablesAfter(t, turn), w, turn.next.value)
  {
    var turn := TurnOf(env, t, w, p, c);
    TurnIsOk(env, t, w, p, c);
    if turn.next.Some? && Active(turn.next.value) && Owned(TablesAfter(t, turn), p.run, w) {
      ActiveBefore(env, t, w, p, c);
      if p.pc.Loading? {
        LoadKnows(t, w, p, c);
        ReadsOnly(env, t, w, p, c);
      } else {
        TurnKnows(t, w, p, turn);
      }
    }
  }

  lemma TurnKnows(t: Tables, w: Id, p: Pass, turn: Turn)
    requires Consistent(t) && TurnOk(t, w, p, turn) && Active(p) && OwnerKnows(t, w, p)
    requires turn.next.Some? && Owned(TablesAfter(t, turn), p.run, w)
    ensures MissesNone(TablesAfter(t, turn), p.run, turn.next.value.ledger.cache)
  {
    if turn.op.Some? {
      if !Owned(t, p.run, w) {
        OwnershipIsClaimed(t, turn.op.value, p.run, w);
      }
      forall id, n | Done(Apply(t, turn.op.value), id, p.run, n)
        ensures n in turn.next.value.ledger.cache
      {
        if !Done(t, id, p.run, n) {
          NewlyDone(t, turn.op.value, id, p.run, n);
        }
      }
    }
  }

  // ---- the tables ----

  /** An operation that completes an attempt completes a sleep with no output, or a step that has none so far. */
  ghost predicate CompletesWell(t: Tables, op: Op) {
    op.CompleteAttempt? && OwnedAttempt(t, op.run, op.worker, op.attempt) ==>
      var a := t.attempts[op.attempt];
      if a.kind == SleepStep then op.output == Null else forall id :: !Done(t, id, a.run, a.step)
  }

  lemma OpKeepsSleepsNull(t: Tables, op: Op)
    requires Consistent(t) && Allowed(t, op) && SleepsNull(t) && CompletesWell(t, op)
    ensures SleepsNull(Apply(t, op))
  {
  }

  lemma OpKeepsAtMostOnce(t: Tables, op: Op)
    requires Consistent(t) && Allowed(t, op) && AtMostOnce(t) && CompletesWell(t, op)
    ensures AtMostOnce(Apply(t, op))
  {
    var t' := Apply(t, op);
    forall i, j, run, step | WorkDone(t', i, run, step) && WorkDone(t', j, run, step)
      ensures i == j
    {
      if Done(t, i, run, step) {
        StillDone(t, op, i, run, step);
      } else {
        NewlyDone(t, op, i, run, step);
      }
      if Done(t, j, run, step) {
        StillDone(t, op, j, run, step);
      } else {
        NewlyDone(t, op, j, run, step);
      }
      assert Done(t, i, run, step) && Done(t, j, run, step) ==> WorkDone(t, i, run, step) && WorkDone(t, j, run, step);
    }
  }

  lemma TurnCompletesWell(t: Tables, w: Id, p: Pass, turn: Turn)
    requires TurnOk(t, w, p, turn) && OwnerKnows(t, w, p) && turn.op.Some?
    ensures CompletesWell(t, turn.op.value)
  {
  }

  // ---- the system ----

  /** The worker whose slot the step concerns. */
  predicate Acts(l: Label, w: Id) {
    (l.Start? || l.Go?) && l.worker == w
  }

  /** Each step makes an allowed operation or none; only the acting worker claims, links, completes or fails. */
  lemma StepOp(env: Env, s: Sys, l: Label)
    requires Safe(s) && Enabled(s, l)
    ensures
      var op := OpOf(env, s, l);
      op.Some? ==>
        && Allowed(s.t, op.value)
        && (op.value.Claim? || op.value.Link? || op.value.CompleteAttempt? || op.value.FailAttempt? ==>
              Acts(l, op.value.worker))
  {
    if l.Go? {
      TurnIsOk(env, s.t, l.worker, s.passes[l.worker], l.c);
    }
  }

  /** The other passes are as they were, or gone. */
  lemma OthersUnmoved(env: Env, s: Sys, l: Label, v: Id)
    requires Enabled(s, l) && v in Effect(env, s, l).passes && !Acts(l, v)
    ensures v in s.passes && Effect(env, s, l).passes[v] == s.passes[v]
  {
  }

  lemma OthersStaySafe(env: Env, s: Sys, l: Label, v: Id)
    requires Safe(s) && Enabled(s, l) && v in Effect(env, s, l).passes && !Acts(l, v)
    ensures PassSafe(Effect(env, s, l).t, v, Effect(env, s, l).passes[v])
  {
    OthersUnmoved(env, s, l, v);
    StepOp(env, s, l);
    if OpOf(env, s, l).Some? {
      OthersKeepKnowing(s.t, OpOf(env, s, l).value, v, s.passes[v]);
    }
  }

  lemma StepKeepsTables(env: Env, s: Sys, l: Label)
    requires Safe(s) && Enabled(s, l)
    ensures
      var t' := Effect(env, s, l).t;
      Consistent(t') && SleepsNull(t') && AtMostOnce(t')
  {
    var op := OpOf(env, s, l);
    StepOp(env, s, l);
    if op.Some? {
      if l.Go? {
        TurnIsOk(env, s.t, l.worker, s.passes[l.worker], l.c);
        TurnCompletesWell(s.t, l.worker, s.passes[l.worker], TurnOf(env, s.t, l.worker, s.passes[l.worker], l.c));
      }
      OpKeepsConsistent(s.t, op.value);
      OpKeepsSleepsNull(s.t, op.value);
      OpKeepsAtMostOnce(s.t, op.value);
    }
  }

  lemma NewPassOk(t: Tables, w: Id, run: Id, registered: bool)
    requires run in t.runs
    ensures PassSafe(t, w, NewPass(w, run, t.runs[run], registered))
  {
  }

  lemma ActorStaysSafe(env: Env, s: Sys, l: Label, w: Id)
    requires Safe(s) && Enabled(s, l) && Acts(l, w) && w in Effect(env, s, l).passes
    ensures PassSafe(Effect(env, s, l).t, w, Effect(env, s, l).passes[w])
  {
    if l.Go? {
      TurnKeepsPass(env, s.t, w, s.passes[w], l.c);
      ActorKeepsKnowing(env, s.t, w, s.passes[w], l.c);
    } else {
      NewPassOk(Effect(env, s, l).t, w, l.pick.value, l.registered);
    }
  }

  lemma StepKeepsSafe(env: Env, s: Sys, l: Label)
    requires Safe(s) && Enabled(s, l)
    ensures Safe(Effect(env, s, l))
  {
    var s' := Effect(env, s, l);
    StepKeepsTables(env, s, l);
    forall w | w in s'.passes
      ensures PassSafe(s'.t, w, s'.passes[w])
    {
      if Acts(l, w) {
        ActorStaysSafe(env, s, l, w);
      } else {
        OthersStaySafe(env, s, l, w);
      }
    }
  }

  // ---- who owes a wake ----

  predicate Wakes(p: Pass, child: Id) {
    p.pc.Waking? && p.run == child
  }

  /** Somebody is about to wake the child's parent: the pass that ended it, or the caller that cancelled it. */
  ghost predicate HasWaker(s: Sys, child: Id) {
    child in s.cancellers || exists w :: w in s.passes && Wakes(s.passes[w], child)
  }

  ghost predicate OwedHaveWakers(s: Sys) {
    forall child :: child in s.t.owed ==> HasWaker(s, child)
  }

  predicate Ends(op: Op) {
    op.Complete? || op.FailRun? || op.Cancel?
  }

  lemma OwedGrows(t: Tables, op: Op)
    ensures forall child :: child in Apply(t, op).owed ==> child in t.owed || (Ends(op) && op.run == child)
    ensures (op.Wake? || op.Forget?) ==> op.child !in Apply(t, op).owed
  {
  }

  lemma EndTurnWakes(env: Env, t: Tables, w: Id, p: Pass, c: Choice, child: Id)
    requires PassOk(t, w, p) && p.pc.Ending? && EndTurn(env, t, w, p, c).op.Some?
    requires child in Apply(t, p.pc.op).owed && child !in t.owed
    ensures EndTurn(env, t, w, p, c).next.Some? && Wakes(EndTurn(env, t, w, p, c).next.value, child)
  {
    OwedGrows(t, p.pc.op);
  }

  /** A newly owed child is held by the pass that ended it or by the caller that cancelled it. */
  lemma NewlyOwed(env: Env, s: Sys, l: Label, child: Id)
    requires Safe(s) && Enabled(s, l) && child in Effect(env, s, l).t.owed && child !in s.t.owed
    ensures HasWaker(Effect(env, s, l), child)
  {
    var s' := Effect(env, s, l);
    var op := OpOf(env, s, l).value;
    OwedGrows(s.t, op);
    if l.Go? {
      var p := s.passes[l.worker];
      TurnIsOk(env, s.t, l.worker, p, l.c);
      assert op == p.pc.op;
      EndTurnWakes(env, s.t, l.worker, p, l.c, child);
      assert Wakes(s'.passes[l.worker], child);
    }
  }

  /** A waker stays until it wakes or dies, and then the child is no longer owed. */
  lemma StillOwed(env: Env, s: Sys, l: Label, child: Id)
    requires Safe(s) && Enabled(s, l) && child in Effect(env, s, l).t.owed && HasWaker(s, child)
    ensures HasWaker(Effect(env, s, l), child)
  {
    var s' := Effect(env, s, l);
    if OpOf(env, s, l).Some? {
      OwedGrows(s.t, OpOf(env, s, l).value);
    }
    if child !in s.cancellers {
      var w :| w in s.passes && Wakes(s.passes[w], child);
      WakerStays(env, s, l, child, w);
      assert Wakes(s'.passes[w], child);
    }
  }

  lemma WakerStays(env: Env, s: Sys, l: Label, child: Id, w: Id)
    requires Enabled(s, l) && w in s.passes && Wakes(s.passes[w], child) && child in Effect(env, s, l).t.owed
    ensures w in Effect(env, s, l).passes && Effect(env, s, l).passes[w] == s.passes[w]
  {
    if OpOf(env, s, l).Some? {
      OwedGrows(s.t, OpOf(env, s, l).value);
    }
  }

  lemma StepKeepsWakers(env: Env, s: Sys, l: Label)
    requires Safe(s) && OwedHaveWakers(s) && Enabled(s, l)
    ensures OwedHaveWakers(Effect(env, s, l))
  {
    forall child | child in Effect(env, s, l).t.owed
      ensures HasWaker(Effect(env, s, l), child)
    {
      if child in s.t.owed {
        StillOwed(env, s, l, child);
      } else {
        NewlyOwed(env, s, l, child);
      }
    }
  }

  // ---- whole runs ----

  lemma NothingRunsYet(now: Time)
    ensures Safe(Initial(now)) && OwedHaveWakers(Initial(now))
  {
  }

  lemma {:induction false} StaysSafe(env: Env, s: Sys, labels: seq<Label>)
    requires Safe(s) && Runs(env, s, labels)
    ensures Safe(After(env, s, labels)) && (OwedHaveWakers(s) ==> OwedHaveWakers(After(env, s, labels)))
    decreases |labels|
  {
    if labels != [] {
      StepKeepsSafe(env, s, labels[0]);
      if OwedHaveWakers(s) {
        StepKeepsWakers(env, s, labels[0]);
      }
      StaysSafe(env, Effect(env, s, labels[0]), labels[1..]);
    }
  }

  /** Each step of the system is one allowed backend operation, or none. */
  lemma StepIsOperation(env: Env, s: Sys, l: Label) returns (ops: seq<Op>)
    requires Safe(s) && Enabled(s, l)
    ensures AllAllowed(s.t, ops) && ApplyAll(s.t, ops) == Effect(env, s, l).t
    ensures Effect(env, s, l).lost == s.lost + Forgotten(ops)
  {
    StepOp(env, s, l);
    ops := [];
    if OpOf(env, s, l).Some? {
      ops := OneOp(s.t, OpOf(env, s, l).value);
    }
  }

  lemma OneOp(t: Tables, op: Op) returns (ops: seq<Op>)
    requires Allowed(t, op)
    ensures AllAllowed(t, ops) && ApplyAll(t, ops) == Apply(t, op) && Forgotten(ops) == LostBy(op, {})
  {
    ops := [op];
    assert ops[1..] == [];
    assert AllAllowed(Apply(t, op), []);
  }

  lemma {:induction false} ApplyBoth(t: Tables, a: seq<Op>, b: seq<Op>)
    requires AllAllowed(t, a) && AllAllowed(ApplyAll(t, a), b)
    ensures AllAllowed(t, a + b) && ApplyAll(t, a + b) == ApplyAll(ApplyAll(t, a), b)
    ensures Forgotten(a + b) == Forgotten(a) + Forgotten(b)
    decreases |a|
  {
    if a == [] {
      assert a + b == b;
    } else {
      ApplyBoth(Apply(t, a[0]), a[1..], b);
      assert (a + b)[1..] == a[1..] + b;
    }
  }

  /**
    * Whatever the workers do, the tables change by allowed backend operations only, so all that holds of those holds
    * here.
    */
  lemma {:induction false} SystemIsBackend(env: Env, s: Sys, labels: seq<Label>) returns (ops: seq<Op>)
    requires Safe(s) && Runs(env, s, labels)
    ensures AllAllowed(s.t, ops) && ApplyAll(s.t, ops) == After(env, s, labels).t
    ensures After(env, s, labels).lost == s.lost + Forgotten(ops)
    decreases |labels|
  {
    ops := [];
    if labels != [] {
      var first := StepIsOperation(env, s, labels[0]);
      StepKeepsSafe(env, s, labels[0]);
      var rest := SystemIsBackend(env, Effect(env, s, labels[0]), labels[1..]);
      ApplyBoth(s.t, first, rest);
      ops := first + rest;
    }
  }

  /**
    * In every state that workers can reach: a parked run whose answer has arrived is due, or somebody is about to wake
    * it, or that somebody has died in between, which is on record; and no two runs with one key are close.
    */
  lemma ReachableTables(env: Env, now: Time, labels: seq<Label>)
    requires Runs(env, Initial(now), labels)
    ensures
      var s := After(env, Initial(now), labels);
      && RunsOk(s.t) && KeysApart(s.t) && NoLostWake(s.t, s.lost) && OwedHaveWakers(s)
      && forall id :: id in s.t.attempts && Waiting(s.t, id) ==>
           var a := s.t.attempts[id];
           || DueNow(s.t.runs[a.run], s.t.now)
           || (a.child.Some? && (HasWaker(s, a.child.value) || a.child.value in s.lost))
  {
    NothingRunsYet(now);
    var ops := SystemIsBackend(env, Initial(now), labels);
    EmptyIsConsistent(now);
    Reachable(Empty(now), ops);
    NoWakeIsEverLost(Empty(now), ops, {});
    StaysSafe(env, Initial(now), labels);
    var s := After(env, Initial(now), labels);
    assert {} + Forgotten(ops) == s.lost;
    forall id | id in s.t.attempts && Waiting(s.t, id)
      ensures Answered(s.t, id, s.lost)
    {
    }
  }

  /**
    * A pass that dies between ending a child and waking its parent does harm exactly when a run is parked on the child
    * that is not due anyway.
    */
  lemma CrashIsHarmless(env: Env, s: Sys, w: Id)
    requires Safe(s) && NoLostWake(s.t, s.lost) && w in s.passes && s.passes[w].pc.Waking? && s.passes[w].run !in s.lost
    ensures NoLostWake(Effect(env, s, Crash(w)).t, s.lost) <==>
      forall id :: id in s.t.attempts && Waiting(s.t, id) && WaitsForOne(s.t.attempts[id], {s.passes[w].run}) ==>
        DueNow(s.t.runs[s.t.attempts[id].run], s.t.now)
  {
    ForgettingIsHarmless(s.t, s.passes[w].run, s.lost);
  }

  /** A completed or failed attempt never changes again, and none disappears. */
  lemma {:induction false} AttemptsOnlyMove(env: Env, s: Sys, labels: seq<Label>)
    requires Safe(s) && Runs(env, s, labels)
    ensures AttemptsMove(s.t, After(env, s, labels).t) && RunsMove(s.t, After(env, s, labels).t)
    decreases |labels|
  {
    if labels != [] {
      StepMoves(env, s, labels[0]);
      StepKeepsSafe(env, s, labels[0]);
      AttemptsOnlyMove(env, Effect(env, s, labels[0]), labels[1..]);
    }
  }

  lemma StepMoves(env: Env, s: Sys, l: Label)
    requires Safe(s) && Enabled(s, l)
    ensures AttemptsMove(s.t, Effect(env, s, l).t) && RunsMove(s.t, Effect(env, s, l).t)
  {
    StepOp(env, s, l);
    if OpOf(env, s, l).Some? {
      OpMovesRuns(s.t, OpOf(env, s, l).value);
      OpMovesAttempts(s.t, OpOf(env, s, l).value);
    }
  }

  // ---- outputs ----

  /** No step name of the run is used both for a sleep and for something else. */
  ghost predicate SleepNamesApart(t: Tables, run: Id) {
    forall i, j ::
      i in t.attempts && j in t.attempts
      && t.attempts[i].run == run && t.attempts[j].run == run && t.attempts[i].step == t.attempts[j].step ==>
      (t.attempts[i].kind == SleepStep <==> t.attempts[j].kind == SleepStep)
  }

  /** All completed attempts of one step have one output. */
  ghost predicate OneOutput(t: Tables, run: Id) {
    forall i, j, step :: Done(t, i, run, step) && Done(t, j, run, step) ==> t.attempts[i].output == t.attempts[j].output
  }

  lemma ApartHaveOneOutput(t: Tables, run: Id)
    requires SleepsNull(t) && AtMostOnce(t) && SleepNamesApart(t, run)
    ensures OneOutput(t, run)
  {
    forall i, j, step | Done(t, i, run, step) && Done(t, j, run, step)
      ensures t.attempts[i].output == t.attempts[j].output
    {
      if t.attempts[i].kind == SleepStep {
        assert SleepDone(t, i) && SleepDone(t, j);
      } else {
        assert WorkDone(t, i, run, step) && WorkDone(t, j, run, step);
      }
    }
  }

  /**
    * Two completed attempts of one step differ in output exactly when one is a sleep and the other returned something.
    */
  lemma OneOutputExactly(t: Tables, run: Id)
    requires SleepsNull(t) && AtMostOnce(t)
    ensures OneOutput(t, run) <==>
      !exists i, j, step ::
        Done(t, i, run, step) && SleepDone(t, i) && WorkDone(t, j, run, step) && t.attempts[j].output != Null
  {
    if !OneOutput(t, run) {
      var i, j, step :| Done(t, i, run, step) && Done(t, j, run, step) && t.attempts[i].output != t.attempts[j].output;
      assert SleepDone(t, i) || WorkDone(t, i, run, step);
      assert SleepDone(t, j) || WorkDone(t, j, run, step);
    }
  }

  /** While the outputs agree, every step that a pass has cached is cached by a later owner, with the same output. */
  lemma OutputsExtend(env: Env, s: Sys, labels: seq<Label>, w: Id, v: Id)
    requires Safe(s) && Runs(env, s, labels) && w in s.passes
    requires
      var s' := After(env, s, labels);
      && v in s'.passes && s'.passes[v].run == s.passes[w].run
      && Active(s'.passes[v]) && Owned(s'.t, s'.passes[v].run, v)
      && OneOutput(s'.t, s'.passes[v].run)
    ensures
      var before, now := s.passes[w].ledger.cache, After(env, s, labels).passes[v].ledger.cache;
      forall n :: n in before ==> n in now && now[n].output == before[n].output
  {
    StaysSafe(env, s, labels);
    AttemptsOnlyMove(env, s, labels);
    var s' := After(env, s, labels);
    var p, q := s.passes[w], s'.passes[v];
    GrowingKeepsPass(s.t, s'.t, w, p);
    forall n | n in p.ledger.cache
      ensures n in q.ledger.cache && q.ledger.cache[n].output == p.ledger.cache[n].output
    {
      var i :| Done(s'.t, i, p.run, n) && s'.t.attempts[i].output == p.ledger.cache[n].output;
      assert n in q.ledger.cache;
      var j :| Done(s'.t, j, p.run, n) && s'.t.attempts[j].output == q.ledger.cache[n].output;
    }
  }

  /** The pre-pass completes the snapshot's attempt at the name: its time has come, and the worker still owns it. */
  predicate CompletesSleep(t: Tables, w: Id, p: Pass, c: Choice)
    requires p.pc.PrePass?
  {
    && c.ok && c.step in p.pc.left
    && (p.pc.left[c.step].context.SleepUntil? ==> p.pc.left[c.step].context.resumeAt <= t.now)
    && OwnedAttempt(t, p.run, w, p.pc.left[c.step].id)
  }

  /**
    * Within a pass a cached output changes exactly when the pre-pass completes an elapsed sleep of that name
    * and the output so far was not null: the pre-pass does not look at the cache.
    */
  lemma OutputChangesExactly(env: Env, t: Tables, w: Id, p: Pass, c: Choice, n: string)
    requires PassOk(t, w, p) && Possible(t, p, c) && n in p.ledger.cache && !p.pc.Loading?
    requires TurnOf(env, t, w, p, c).next.Some?
    ensures
      var cache' := TurnOf(env, t, w, p, c).next.value.ledger.cache;
      n in cache'
      && (cache'[n].output != p.ledger.cache[n].output <==>
            && p.pc.PrePass? && CompletesSleep(t, w, p, c) && p.pc.left[c.step].step == n
            && p.ledger.cache[n].output != Null)
  {
    TurnIsOk(env, t, w, p, c);
    if p.pc.PrePass? {
      PrePassCache(env, t, w, p, c);
    } else if p.pc.Completing? {
      CompleteCache(t, w, p, c);
    }
  }

  lemma PrePassCache(env: Env, t: Tables, w: Id, p: Pass, c: Choice)
    requires p.pc.PrePass?
    ensures
      var turn := PrePassTurn(env, t, w, p, c);
      var cache' := turn.next.value.ledger.cache;
      if CompletesSleep(t, w, p, c) then
        && turn.op == Some(CompleteAttempt(p.run, w, p.pc.left[c.step].id, Null))
        && cache' == p.ledger.cache[p.pc.left[c.step].step := CompletedCopy(p.pc.left[c.step], Null)]
      else turn.op.None? && cache' == p.ledger.cache
  {
  }

  lemma CompleteCache(t: Tables, w: Id, p: Pass, c: Choice)
    requires p.pc.Completing? && p.pc.a.step !in p.ledger.cache
    ensures forall n :: n in p.ledger.cache ==>
      var after := CompleteTurn(t, w, p, c).next.value.ledger.cache;
      n in after && after[n] == p.ledger.cache[n]
  {
  }

  // ---- when passes park ----

  /** A pass about to park its run does so for no longer than any wait that runs in its history. */
  ghost predicate ParksInTime(p: Pass) {
    p.pc.Ending? && p.pc.op.Park? ==> forall n :: n in p.ledger.running && ResumeAt(p.ledger.running[n]).Some? ==>
      p.pc.op.at <= ResumeAt(p.ledger.running[n]).value
  }

  lemma ParkingIsInTime(w: Id, p: Pass, fallback: Time)
    ensures ParksInTime(p.(pc := Parking(w, p, fallback)))
  {
    ParkUntilIsEarly(p.ledger.running, fallback);
  }

  lemma PrePassParksInTime(env: Env, t: Tables, w: Id, p: Pass, c: Choice)
    requires p.pc.PrePass?
    ensures ParksInTime(PrePassTurn(env, t, w, p, c).next.value)
  {
  }

  lemma CreateParksInTime(t: Tables, w: Id, p: Pass, c: Choice)
    requires p.pc.Creating?
    ensures ParksInTime(CreateTurn(t, w, p, c).next.value)
  {
  }

  lemma WaitParksInTime(t: Tables, w: Id, p: Pass, c: Choice)
    requires p.pc.Watching? || p.pc.Receiving?
    ensures ParksInTime(if p.pc.Watching? then WatchTurn(t, w, p).next.value else ReceiveTurn(t, w, p).next.value)
  {
    ParkingIsInTime(w, p, TimeoutAt(p.pc.a).GetOr(p.pc.a.createdAt + DEFAULT_WAIT));
  }

  lemma DecideNeverParks(env: Env, t: Tables, w: Id, p: Pass, c: Choice)
    ensures ParksInTime(DecideTurn(env, t, w, p, c).next.value)
  {
  }

  lemma RestNeverParks(env: Env, t: Tables, w: Id, p: Pass, c: Choice)
    requires
      || p.pc.Loading? || p.pc.Executing? || p.pc.Linking? || p.pc.Binding? || p.pc.Sending?
      || p.pc.Completing? || p.pc.Failing?
    ensures
      var next := TurnOf(env, t, w, p, c).next;
      next.Some? ==> ParksInTime(next.value)
  {
  }

  lemma TurnParksInTime(env: Env, t: Tables, w: Id, p: Pass, c: Choice)
    requires ParksInTime(p)
    ensures
      var next := TurnOf(env, t, w, p, c).next;
      next.Some? ==> ParksInTime(next.value)
  {
    match p.pc
    case PrePass(_, _) => PrePassParksInTime(env, t, w, p, c);
    case Deciding => DecideNeverParks(env, t, w, p, c);
    case Creating(_, _) => CreateParksInTime(t, w, p, c);
    case Watching(_) => WaitParksInTime(t, w, p, c);
    case Receiving(_, _) => WaitParksInTime(t, w, p, c);
    case Ending(_) =>
    case Waking =>
    case _ => RestNeverParks(env, t, w, p, c);
  }

  ghost predicate AllParkInTime(s: Sys) {
    forall w :: w in s.passes ==> ParksInTime(s.passes[w])
  }

  /** In every reachable state, each pass that is about to park parks in time. */
  lemma {:induction false} EveryParkIsInTime(env: Env, s: Sys, labels: seq<Label>)
    requires Runs(env, s, labels) && AllParkInTime(s)
    ensures AllParkInTime(After(env, s, labels))
    decreases |labels|
  {
    if labels != [] {
      StepParksInTime(env, s, labels[0]);
      EveryParkIsInTime(env, Effect(env, s, labels[0]), labels[1..]);
    }
  }

  lemma StepParksInTime(env: Env, s: Sys, l: Label)
    requires Enabled(s, l) && AllParkInTime(s)
    ensures AllParkInTime(Effect(env, s, l))
  {
    if l.Go? {
      TurnParksInTime(env, s.t, l.worker, s.passes[l.worker], l.c);
    }
  }
}
