/** What a completed send returns: the runs that its signal had reached when it was made. */
module SendResults {
  import opened Graphs
  import opened Workflows
  import opened Retry
  import opened Store
  import opened Signals
  import opened Replay
  import opened ReplayProofs
  import opened ReplaySafety
  import opened StepResults

  // ---- the last step of a run ----

  lemma {:induction false} LastStep(env: Env, s: Sys, labels: seq<Label>)
    requires labels != [] && Runs(env, s, labels)
    ensures
      var n := |labels| - 1;
      && Runs(env, s, labels[..n]) && Enabled(After(env, s, labels[..n]), labels[n])
      && After(env, s, labels) == Effect(env, After(env, s, labels[..n]), labels[n])
    decreases |labels|
  {
    if |labels| > 1 {
      LastStep(env, Effect(env, s, labels[0]), labels[1..]);
      assert labels[..|labels| - 1][1..] == labels[1..][..|labels| - 2];
    } else {
      assert labels[..0] == [] && labels[1..] == [];
    }
  }

  // ---- the send behind a result ----

  /** The j-th step makes the send of this attempt, and is told that it reaches these runs. */
  ghost predicate SendMade(env: Env, s: Sys, labels: seq<Label>, j: nat, id: Id, ids: seq<Id>) {
    && j < |labels| && Runs(env, s, labels[..j]) && labels[j].Go?
    && var now := After(env, s, labels[..j]);
       labels[j].worker in now.passes && SendsNow(now.t, now.passes[labels[j].worker], labels[j].c, id, ids)
  }

  /** The pass sends, and the ids are the runs that the signal has reached under its key. */
  ghost predicate SendsNow(t: Tables, p: Pass, c: Choice, id: Id, ids: seq<Id>) {
    && p.pc.Sending? && p.pc.a.id == id && c.ok && c.ids == ids
    && Distinct(ids) && Elems(ids) == Reached(t, p.pc.target, Some(SignalKey(p.run, p.pc.a.step)))
  }

  /** Some send of this attempt was told what the result lists. */
  ghost predicate FromSend(env: Env, s: Sys, labels: seq<Label>, id: Id, result: Value) {
    exists j: nat, ids :: SendMade(env, s, labels, j, id, ids) && result == RunIds(ids)
  }

  ghost predicate SendsTold(env: Env, s: Sys, labels: seq<Label>)
    requires Runs(env, s, labels)
  {
    var now := After(env, s, labels);
    && (forall id :: id in now.t.attempts && now.t.attempts[id].kind == SignalSend
                     && now.t.attempts[id].status == StepCompleted ==>
          FromSend(env, s, labels, id, now.t.attempts[id].output))
    && (forall w :: w in now.passes && now.passes[w].pc.Completing? && now.passes[w].pc.a.kind == SignalSend ==>
          FromSend(env, s, labels, now.passes[w].pc.a.id, now.passes[w].pc.output))
  }

  lemma StaysFromSend(env: Env, s: Sys, labels: seq<Label>, id: Id, result: Value)
    requires labels != [] && FromSend(env, s, labels[..|labels| - 1], id, result)
    ensures FromSend(env, s, labels, id, result)
  {
    var before := labels[..|labels| - 1];
    var j: nat, ids :| SendMade(env, s, before, j, id, ids) && result == RunIds(ids);
    assert before[..j] == labels[..j];
    assert SendMade(env, s, labels, j, id, ids);
  }

  /** A pass comes to complete a send only by making it. */
  lemma CompletesOwnSend(env: Env, t: Tables, w: Id, p: Pass, c: Choice)
    requires KindFits(p) && Possible(t, p, c)
    requires TurnOf(env, t, w, p, c).next.Some? && TurnOf(env, t, w, p, c).next.value.pc.Completing?
    requires TurnOf(env, t, w, p, c).next.value.pc.a.kind == SignalSend
    ensures
      var q := TurnOf(env, t, w, p, c).next.value;
      SendsNow(t, p, c, q.pc.a.id, c.ids) && q.pc.output == RunIds(c.ids)
  {
    CompletesFrom(env, t, w, p, c);
  }

  /** A send attempt is completed only by a pass that holds its result. */
  lemma CompletedByHolder(env: Env, s: Sys, l: Label, id: Id)
    requires Safe(s) && Enabled(s, l) && OpOf(env, s, l).Some?
    requires
      var t' := Effect(env, s, l).t;
      id in t'.attempts && t'.attempts[id].kind == SignalSend && t'.attempts[id].status == StepCompleted
    requires id in s.t.attempts ==> s.t.attempts[id].status != StepCompleted
    ensures l.Go? && l.worker in s.passes
    ensures
      var p := s.passes[l.worker];
      && p.pc.Completing? && p.pc.a.kind == SignalSend && p.pc.a.id == id
      && p.pc.output == Effect(env, s, l).t.attempts[id].output
  {
    var op, a := OpOf(env, s, l).value, Effect(env, s, l).t.attempts[id];
    StepOp(env, s, l);
    assert Done(Effect(env, s, l).t, id, a.run, a.step) && !Done(s.t, id, a.run, a.step);
    NewlyDone(s.t, op, id, a.run, a.step);
    ByHolder(env, s.t, l.worker, s.passes[l.worker], l.c);
  }

  lemma ByHolder(env: Env, t: Tables, w: Id, p: Pass, c: Choice)
    requires PassOk(t, w, p) && Possible(t, p, c)
    requires TurnOf(env, t, w, p, c).op.Some? && TurnOf(env, t, w, p, c).op.value.CompleteAttempt?
    requires
      var id := TurnOf(env, t, w, p, c).op.value.attempt;
      id in t.attempts && t.attempts[id].kind == SignalSend
    ensures
      var op := TurnOf(env, t, w, p, c).op.value;
      p.pc.Completing? && p.pc.a.kind == SignalSend && p.pc.a.id == op.attempt && p.pc.output == op.output
  {
    TurnIsOk(env, t, w, p, c);
    if p.pc.Completing? {
      CompletesHand(env, t, w, p, c);
    } else {
      PrePassCache(env, t, w, p, c);
    }
  }

  lemma RowsStayTold(env: Env, s: Sys, labels: seq<Label>, id: Id)
    requires labels != [] && Runs(env, s, labels)
    requires
      var n := |labels| - 1;
      Runs(env, s, labels[..n]) && SendsTold(env, s, labels[..n]) && Safe(After(env, s, labels[..n]))
    requires
      var t := After(env, s, labels).t;
      id in t.attempts && t.attempts[id].kind == SignalSend && t.attempts[id].status == StepCompleted
    ensures FromSend(env, s, labels, id, After(env, s, labels).t.attempts[id].output)
  {
    var n := |labels| - 1;
    var now, l := After(env, s, labels[..n]), labels[n];
    LastStep(env, s, labels);
    StepMoves(env, now, l);
    if id in now.t.attempts && now.t.attempts[id].status == StepCompleted {
      StaysFromSend(env, s, labels, id, now.t.attempts[id].output);
    } else {
      CompletedByHolder(env, now, l, id);
      StaysFromSend(env, s, labels, id, now.passes[l.worker].pc.output);
    }
  }

  lemma PassesStayTold(env: Env, s: Sys, labels: seq<Label>, w: Id)
    requires labels != [] && Runs(env, s, labels)
    requires
      var n := |labels| - 1;
      && Runs(env, s, labels[..n]) && SendsTold(env, s, labels[..n])
      && Safe(After(env, s, labels[..n])) && AllReady(env, After(env, s, labels[..n]))
    requires
      var now := After(env, s, labels);
      w in now.passes && now.passes[w].pc.Completing? && now.passes[w].pc.a.kind == SignalSend
    ensures
      var pc := After(env, s, labels).passes[w].pc;
      FromSend(env, s, labels, pc.a.id, pc.output)
  {
    var n := |labels| - 1;
    var now, l := After(env, s, labels[..n]), labels[n];
    LastStep(env, s, labels);
    var pc := After(env, s, labels).passes[w].pc;
    if !Acts(l, w) {
      OthersUnmoved(env, now, l, w);
      StaysFromSend(env, s, labels, pc.a.id, pc.output);
    } else if l.Go? {
      CompletesOwnSend(env, now.t, w, now.passes[w], l.c);
      assert SendMade(env, s, labels, n, pc.a.id, l.c.ids);
    }
  }

  lemma {:induction false} StaysTold(env: Env, s: Sys, labels: seq<Label>)
    requires Safe(s) && AllReady(env, s) && Runs(env, s, labels) && SendsTold(env, s, [])
    ensures SendsTold(env, s, labels)
    decreases |labels|
  {
    if labels != [] {
      var n := |labels| - 1;
      LastStep(env, s, labels);
      StaysTold(env, s, labels[..n]);
      StaysReady(env, s, labels[..n]);
      var now := After(env, s, labels);
      forall id | id in now.t.attempts && now.t.attempts[id].kind == SignalSend
                  && now.t.attempts[id].status == StepCompleted
        ensures FromSend(env, s, labels, id, now.t.attempts[id].output)
      {
        RowsStayTold(env, s, labels, id);
      }
      forall w | w in now.passes && now.passes[w].pc.Completing? && now.passes[w].pc.a.kind == SignalSend
        ensures FromSend(env, s, labels, now.passes[w].pc.a.id, now.passes[w].pc.output)
      {
        PassesStayTold(env, s, labels, w);
      }
    }
  }

  /**
    * In every state that workers can reach, each completed send lists exactly the runs that its signal had reached at
    * the step that made the send: it lists none exactly when that step reached none.
    */
  lemma SendsListReached(env: Env, now: Time, labels: seq<Label>)
    requires Runs(env, Initial(now), labels)
    ensures SendsTold(env, Initial(now), labels)
  {
    NothingRunsYet(now);
    StaysTold(env, Initial(now), labels);
  }
}
