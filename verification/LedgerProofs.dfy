/** The ledger that a pass keeps step by step agrees with the one rebuilt from the attempts table. */
module LedgerProofs {
  import opened Workflows
  import opened Store
  import opened StepHistory

  // ---- what a ledger says about the rows ----

  /** The cache has an entry for exactly the completed steps, with the output of every completed row. */
  ghost predicate CacheTells(cache: map<string, Attempt>, rows: seq<Attempt>) {
    && (forall i :: 0 <= i < |rows| && rows[i].status == StepCompleted ==>
          rows[i].step in cache && cache[rows[i].step].output == rows[i].output)
    && (forall n :: n in cache ==> exists i :: 0 <= i < |rows| && rows[i].status == StepCompleted && rows[i].step == n)
  }

  ghost function FailedRows(rows: seq<Attempt>, step: string): nat {
    if rows == [] then 0
    else
      var last := rows[|rows| - 1];
      FailedRows(rows[..|rows| - 1], step) + if last.status == StepFailed && last.step == step then 1 else 0
  }

  ghost predicate CountsTell(l: Ledger, rows: seq<Attempt>) {
    forall n :: FailedCount(l, n) == FailedRows(rows, n)
  }

  /** The running map has exactly the running rows. */
  ghost predicate RunningTells(running: map<string, Attempt>, rows: seq<Attempt>) {
    && (forall i ::
          0 <= i < |rows| && rows[i].status == StepRunning ==>
            rows[i].step in running && running[rows[i].step] == rows[i])
    && (forall n :: n in running ==> exists i :: 0 <= i < |rows| && rows[i].status == StepRunning && rows[i].step == n)
  }

  /** Completed rows of one step have one output. */
  ghost predicate OutputsAgree(rows: seq<Attempt>) {
    forall i, j ::
      0 <= i < |rows| && 0 <= j < |rows|
      && rows[i].status == StepCompleted && rows[j].status == StepCompleted && rows[i].step == rows[j].step ==>
      rows[i].output == rows[j].output
  }

  ghost predicate OneRunning(rows: seq<Attempt>) {
    forall i, j ::
      0 <= i < j < |rows| && rows[i].status == StepRunning && rows[j].status == StepRunning ==>
        rows[i].step != rows[j].step
  }

  // ---- rebuilding ----

  /** The last completed row of the step. */
  ghost predicate IsLastDone(rows: seq<Attempt>, step: string, i: nat) {
    && i < |rows| && rows[i].status == StepCompleted && rows[i].step == step
    && forall j :: i < j < |rows| ==> rows[j].status != StepCompleted || rows[j].step != step
  }

  lemma {:induction false} CacheEntry(rows: seq<Attempt>, n: string) returns (i: nat)
    requires n in Rebuilt(rows).cache
    ensures IsLastDone(rows, n, i) && Rebuilt(rows).cache[n] == rows[i]
  {
    i := |rows| - 1;
    if rows[i].status != StepCompleted || rows[i].step != n {
      i := CacheEntry(rows[..i], n);
    }
  }

  lemma {:induction false} CacheCovers(rows: seq<Attempt>, i: nat)
    requires i < |rows| && rows[i].status == StepCompleted
    ensures rows[i].step in Rebuilt(rows).cache
  {
    if i < |rows| - 1 {
      CacheCovers(rows[..|rows| - 1], i);
    }
  }

  /** The rebuilt cache has exactly the completed steps, each with one of its completed rows. */
  lemma RebuiltCache(rows: seq<Attempt>)
    ensures
      var cache := Rebuilt(rows).cache;
      && (forall i :: 0 <= i < |rows| && rows[i].status == StepCompleted ==> rows[i].step in cache)
      && (forall n ::
            n in cache ==> exists i ::
              0 <= i < |rows| && rows[i].status == StepCompleted && rows[i].step == n && cache[n] == rows[i])
  {
    forall i | 0 <= i < |rows| && rows[i].status == StepCompleted
      ensures rows[i].step in Rebuilt(rows).cache
    {
      CacheCovers(rows, i);
    }
    forall n | n in Rebuilt(rows).cache
      ensures exists i ::
        0 <= i < |rows| && rows[i].status == StepCompleted && rows[i].step == n && Rebuilt(rows).cache[n] == rows[i]
    {
      var i := CacheEntry(rows, n);
    }
  }

  lemma {:induction false} RunningEntry(rows: seq<Attempt>, n: string) returns (i: nat)
    requires n in Rebuilt(rows).running
    ensures i < |rows| && rows[i].status == StepRunning && rows[i].step == n && Rebuilt(rows).running[n] == rows[i]
  {
    i := |rows| - 1;
    if rows[i].status != StepRunning || rows[i].step != n {
      i := RunningEntry(rows[..i], n);
    }
  }

  lemma {:induction false} RunningCovers(rows: seq<Attempt>, i: nat)
    requires i < |rows| && rows[i].status == StepRunning
    ensures rows[i].step in Rebuilt(rows).running
  {
    if i < |rows| - 1 {
      RunningCovers(rows[..|rows| - 1], i);
    }
  }

  lemma RebuiltRunning(rows: seq<Attempt>)
    ensures
      var running := Rebuilt(rows).running;
      && (forall i :: 0 <= i < |rows| && rows[i].status == StepRunning ==> rows[i].step in running)
      && (forall n ::
            n in running ==> exists i ::
              0 <= i < |rows| && rows[i].status == StepRunning && rows[i].step == n && running[n] == rows[i])
  {
    forall i | 0 <= i < |rows| && rows[i].status == StepRunning
      ensures rows[i].step in Rebuilt(rows).running
    {
      RunningCovers(rows, i);
    }
    forall n | n in Rebuilt(rows).running
      ensures exists i ::
        0 <= i < |rows| && rows[i].status == StepRunning && rows[i].step == n && Rebuilt(rows).running[n] == rows[i]
    {
      var i := RunningEntry(rows, n);
    }
  }

  lemma {:induction false} RebuiltCounts(rows: seq<Attempt>)
    ensures CountsTell(Rebuilt(rows), rows)
  {
    if rows != [] {
      RebuiltCounts(rows[..|rows| - 1]);
    }
  }

  /** Rebuilding gives a ledger that tells the rows, as far as the rows allow one. */
  lemma RebuiltTells(rows: seq<Attempt>)
    ensures OutputsAgree(rows) ==> CacheTells(Rebuilt(rows).cache, rows)
    ensures CountsTell(Rebuilt(rows), rows)
    ensures OneRunning(rows) ==> RunningTells(Rebuilt(rows).running, rows)
  {
    RebuiltCache(rows);
    RebuiltCounts(rows);
    RebuiltRunning(rows);
  }

  // ---- two ledgers ----

  /** Two ledgers with the same outputs and failure counts. */
  ghost predicate SameCacheAndCounts(a: Ledger, b: Ledger) {
    && a.cache.Keys == b.cache.Keys
    && (forall n :: n in a.cache ==> a.cache[n].output == b.cache[n].output)
    && (forall n :: FailedCount(a, n) == FailedCount(b, n))
  }

  lemma SameCache(a: map<string, Attempt>, b: map<string, Attempt>, rows: seq<Attempt>)
    requires CacheTells(a, rows) && CacheTells(b, rows)
    ensures a.Keys == b.Keys && forall n :: n in a ==> a[n].output == b[n].output
  {
  }

  lemma SameRunning(a: map<string, Attempt>, b: map<string, Attempt>, rows: seq<Attempt>)
    requires RunningTells(a, rows) && RunningTells(b, rows)
    ensures a == b
  {
  }

  // ---- completing a step that has an output ----

  lemma LastDoneIsOne(rows: seq<Attempt>, step: string, i: nat, j: nat)
    requires IsLastDone(rows, step, i) && IsLastDone(rows, step, j)
    ensures i == j
  {
    assert i < j || j < i || i == j;
  }

  lemma {:induction false} FailedRowsReplace(rows: seq<Attempt>, i: nat, a: Attempt, step: string)
    requires i < |rows| && rows[i].status != StepFailed && a.step == rows[i].step
    ensures FailedRows(rows[i := a], step)
      == FailedRows(rows, step) + if a.status == StepFailed && a.step == step then 1 else 0
  {
    var k := |rows| - 1;
    if i < k {
      FailedRowsReplace(rows[..k], i, a, step);
      assert rows[i := a][..k] == rows[..k][i := a];
    } else {
      assert rows[i := a][..k] == rows[..k];
    }
  }

  /** A completed row of the same step comes later, and the last of them has another output. */
  ghost predicate Overridden(rows: seq<Attempt>, i: nat, output: Value)
    requires i < |rows|
  {
    exists k :: i < k && IsLastDone(rows, rows[i].step, k) && rows[k].output != output
  }

  lemma CompletedEntry(rows: seq<Attempt>, i: nat, a: Attempt) returns (k: nat)
    requires i < |rows| && rows[i].status == StepRunning && a.status == StepCompleted && a.step == rows[i].step
    ensures a.step in Rebuilt(rows[i := a]).cache && i <= k < |rows|
    ensures Rebuilt(rows[i := a]).cache[a.step] == (if k == i then a else rows[k])
    ensures k > i ==> IsLastDone(rows, a.step, k)
    ensures forall m :: i < m && IsLastDone(rows, a.step, m) ==> m == k
  {
    var rows' := rows[i := a];
    CacheCovers(rows', i);
    k := CacheEntry(rows', a.step);
    assert rows'[i] == a;
    forall j | k < j < |rows|
      ensures rows[j].status != StepCompleted || rows[j].step != a.step
    {
      assert rows'[j] == rows[j];
    }
    forall m | i < m && IsLastDone(rows, a.step, m)
      ensures m == k
    {
      assert IsLastDone(rows', a.step, m);
      LastDoneIsOne(rows', a.step, k, m);
    }
  }

  lemma OtherEntryStays(rows: seq<Attempt>, i: nat, a: Attempt, n: string)
    requires i < |rows| && rows[i].status == StepRunning && a.step == rows[i].step && n != a.step
    ensures n in Rebuilt(rows[i := a]).cache <==> n in Rebuilt(rows).cache
    ensures n in Rebuilt(rows).cache ==> Rebuilt(rows[i := a]).cache[n] == Rebuilt(rows).cache[n]
  {
    var rows' := rows[i := a];
    if n in Rebuilt(rows).cache {
      var k := CacheEntry(rows, n);
      CacheCovers(rows', k);
      var m := CacheEntry(rows', n);
      assert IsLastDone(rows, n, m);
      LastDoneIsOne(rows, n, k, m);
    } else if n in Rebuilt(rows').cache {
      var m := CacheEntry(rows', n);
      CacheCovers(rows, m);
    }
  }

  /**
    * Completing a running attempt in the kept ledger agrees with rebuilding, unless an attempt of the same step that
    * comes later in the table is completed with another output: the kept ledger takes the new output, the rebuilt one
    * the later.
    */
  lemma CompletionAgreesExactly(l: Ledger, rows: seq<Attempt>, i: nat, a: Attempt)
    requires i < |rows| && rows[i].status == StepRunning && a.status == StepCompleted && a.step == rows[i].step
    requires SameCacheAndCounts(l, Rebuilt(rows))
    ensures SameCacheAndCounts(WithCompletion(l, a), Rebuilt(rows[i := a])) <==> !Overridden(rows, i, a.output)
  {
    var rows', l' := rows[i := a], WithCompletion(l, a);
    var k := CompletedEntry(rows, i, a);
    CompletionCounts(l, rows, i, a);
    forall n
      ensures n in l'.cache <==> n in Rebuilt(rows').cache
      ensures n != a.step && n in l'.cache ==> l'.cache[n].output == Rebuilt(rows').cache[n].output
    {
      if n != a.step {
        OtherEntryStays(rows, i, a, n);
      }
    }
    assert Overridden(rows, i, a.output) <==> Rebuilt(rows').cache[a.step].output != a.output;
    assert l'.cache.Keys == Rebuilt(rows').cache.Keys;
  }

  lemma CompletionCounts(l: Ledger, rows: seq<Attempt>, i: nat, a: Attempt)
    requires i < |rows| && rows[i].status == StepRunning && a.status == StepCompleted && a.step == rows[i].step
    requires SameCacheAndCounts(l, Rebuilt(rows))
    ensures forall n :: FailedCount(WithCompletion(l, a), n) == FailedCount(Rebuilt(rows[i := a]), n)
  {
    RebuiltCounts(rows);
    RebuiltCounts(rows[i := a]);
    forall n
      ensures FailedCount(WithCompletion(l, a), n) == FailedCount(Rebuilt(rows[i := a]), n)
    {
      FailedRowsReplace(rows, i, a, n);
    }
  }
}
