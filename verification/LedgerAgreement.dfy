/**
  * The ledger that a pass keeps agrees with the one rebuilt from the attempts table, whatever happened since it was
  * loaded.
  */
module LedgerAgreement {
  import opened Graphs
  import opened Store
  import opened WakeUp
  import opened StepHistory
  import opened LedgerProofs
  import opened Replay
  import opened ReplayProofs
  import opened ReplaySafety
  import opened ReplayDeterminism
  import opened StepResults
  import opened RetryBound

  lemma OwnerTells(t: Tables, w: Id, p: Pass, rows: seq<Attempt>)
    requires PassOk(t, w, p) && OwnerKnows(t, w, p) && Active(p) && Owned(t, p.run, w) && OneOutput(t, p.run)
    requires Lists(t, p.run, rows)
    ensures CacheTells(p.ledger.cache, rows) && OutputsAgree(rows)
  {
    forall i | 0 <= i < |rows| && rows[i].status == StepCompleted
      ensures rows[i].step in p.ledger.cache && p.ledger.cache[rows[i].step].output == rows[i].output
    {
      assert Done(t, rows[i].id, p.run, rows[i].step);
    }
    forall n | n in p.ledger.cache
      ensures exists i :: 0 <= i < |rows| && rows[i].status == StepCompleted && rows[i].step == n
    {
      var id :| Done(t, id, p.run, n) && t.attempts[id].output == p.ledger.cache[n].output;
      assert t.attempts[id] in rows;
    }
    forall i, j | 0 <= i < |rows| && 0 <= j < |rows| && rows[i].status == rows[j].status == StepCompleted
        && rows[i].step == rows[j].step
      ensures rows[i].output == rows[j].output
    {
      assert Done(t, rows[i].id, p.run, rows[i].step) && Done(t, rows[j].id, p.run, rows[i].step);
    }
  }

  /** An owner's outputs and failure counts are those of the table, strays of other workers or not. */
  lemma OwnerAgrees(t: Tables, w: Id, p: Pass, rows: seq<Attempt>)
    requires Consistent(t) && PassOk(t, w, p) && OwnerKnows(t, w, p) && OwnerCounts(t, w, p)
    requires Active(p) && Owned(t, p.run, w) && OneOutput(t, p.run) && Lists(t, p.run, rows)
    ensures SameCacheAndCounts(p.ledger, Rebuilt(rows))
  {
    OwnerTells(t, w, p, rows);
    RebuiltTells(rows);
    SameCache(p.ledger.cache, Rebuilt(rows).cache, rows);
    forall n
      ensures FailedCount(p.ledger, n) == FailedCount(Rebuilt(rows), n)
    {
      LoadedCounts(t, p.run, rows, n);
    }
  }

  /** Every running attempt of the run is the one that the pass holds for its step: no other worker has left one. */
  ghost predicate NoOrphans(t: Tables, p: Pass) {
    forall id :: id in t.attempts && t.attempts[id].run == p.run && t.attempts[id].status == StepRunning ==>
      t.attempts[id].step in p.ledger.running && p.ledger.running[t.attempts[id].step].id == id
  }

  /** Without orphans the owner's running attempts are those of the table too. */
  lemma OwnerRunningAgrees(t: Tables, w: Id, p: Pass, rows: seq<Attempt>)
    requires Consistent(t) && PassOk(t, w, p) && OwnerFresh(t, w, p) && Active(p) && Owned(t, p.run, w)
    requires NoOrphans(t, p) && Lists(t, p.run, rows)
    ensures p.ledger.running == Rebuilt(rows).running
  {
    var running := p.ledger.running;
    forall i | 0 <= i < |rows| && rows[i].status == StepRunning
      ensures rows[i].step in running && running[rows[i].step] == rows[i]
    {
      assert LinkOk(rows[i].id, t.attempts[rows[i].id], t.runs);
      assert SameRow(t, running[rows[i].step]);
    }
    forall n | n in running
      ensures exists i :: 0 <= i < |rows| && rows[i].status == StepRunning && rows[i].step == n
    {
      assert SameRow(t, running[n]) && Known(t, p.run, running[n]);
      assert t.attempts[running[n].id] in rows;
    }
    forall i, j | 0 <= i < j < |rows| && rows[i].status == StepRunning && rows[j].status == StepRunning
      ensures rows[i].step != rows[j].step
    {
      assert rows[i] != rows[j];
    }
    RebuiltTells(rows);
    SameRunning(running, Rebuilt(rows).running, rows);
  }

  /**
    * In every state that workers can reach, for a run of a steady function: the outputs and failure counts that its
    * owner keeps step by step are those it would rebuild from the table now, and without orphans so are the running
    * attempts.
    */
  lemma KeptLedgerIsRebuilt(env: Env, now: Time, labels: seq<Label>, w: Id, rows: seq<Attempt>)
    requires Runs(env, Initial(now), labels)
    requires
      var s := After(env, Initial(now), labels);
      && w in s.passes && Active(s.passes[w]) && Owned(s.t, s.passes[w].run, w)
      && SteadyRun(env.fns(s.passes[w].run)) && Lists(s.t, s.passes[w].run, rows)
    ensures
      var s := After(env, Initial(now), labels);
      && SameCacheAndCounts(s.passes[w].ledger, Rebuilt(rows))
      && (NoOrphans(s.t, s.passes[w]) ==> s.passes[w].ledger.running == Rebuilt(rows).running)
  {
    var s := After(env, Initial(now), labels);
    NothingRunsYet(now);
    StaysSafe(env, Initial(now), labels);
    SteadyRunsKeepOutputs(env, now, labels, s.passes[w].run);
    KeepCounting(env, Initial(now), labels);
    StaysReady(env, Initial(now), labels);
    assert PassSafe(s.t, w, s.passes[w]) && PassReady(env, s.t, w, s.passes[w]);
    OwnerAgrees(s.t, w, s.passes[w], rows);
    if NoOrphans(s.t, s.passes[w]) {
      OwnerRunningAgrees(s.t, w, s.passes[w], rows);
    }
  }
}
