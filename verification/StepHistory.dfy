/** The in-memory ledger of one pass over a run (worker/step-history.ts). */
module StepHistory {
  import opened Workflows
  import opened Store
  import opened StepNames

  type Time = Retry.Time

  /** What is known of each step: its successful attempt, its failures, its running attempt. */
  datatype Ledger = Ledger(
    cache: map<string, Attempt>,
    failedCounts: map<string, nat>,
    failed: map<string, Attempt>,
    running: map<string, Attempt>)

  const EMPTY_LEDGER := Ledger(map[], map[], map[], map[])

  function FailedCount(l: Ledger, step: string): nat {
    if step in l.failedCounts then l.failedCounts[step] else 0
  }

  function Failure(l: Ledger, a: Attempt): Ledger {
    l.(failedCounts := l.failedCounts[a.step := FailedCount(l, a.step) + 1], failed := l.failed[a.step := a])
  }

  function Noted(l: Ledger, a: Attempt): Ledger {
    match a.status
    case StepCompleted => l.(cache := l.cache[a.step := a])
    case StepFailed => Failure(l, a)
    case StepRunning => l.(running := l.running[a.step := a])
  }

  /** The ledger of the attempts of a run in the order they were created; later ones replace earlier ones. */
  ghost function Rebuilt(rows: seq<Attempt>): Ledger {
    if rows == [] then EMPTY_LEDGER else Noted(Rebuilt(rows[..|rows| - 1]), rows[|rows| - 1])
  }

  method CreateStepExecutionStateFromAttempts(attempts: seq<Attempt>) returns (l: Ledger)
    ensures l == Rebuilt(attempts)
  {
    l := EMPTY_LEDGER;
    for i := 0 to |attempts|
      invariant l == Rebuilt(attempts[..i])
    {
      assert attempts[..i + 1][..i] == attempts[..i];
      l := Noted(l, attempts[i]);
    }
    assert attempts[..|attempts|] == attempts;
  }

  // ---- when a running wait ends by itself ----

  /** A wait without a limit of its own lasts a year. */
  const DEFAULT_WAIT: int := 365 * 24 * 60 * 60 * 1000

  function TimeoutAt(a: Attempt): Option<Time> {
    match a.context
    case ChildUntil(at) => Some(at.GetOr(a.createdAt + DEFAULT_WAIT))
    case SignalUntil(_, at) => Some(at)
    case _ => None
  }

  function ResumeAt(a: Attempt): Option<Time> {
    if a.status != StepRunning then None
    else if a.kind == SleepStep && a.context.SleepUntil? then Some(a.context.resumeAt)
    else if a.kind != SignalWait && a.kind != WorkflowStep then None
    else Some(TimeoutAt(a).GetOr(a.createdAt + DEFAULT_WAIT))
  }

  /** The earliest of the times at which the running waits end. */
  ghost predicate IsEarliest(running: map<string, Attempt>, t: Option<Time>) {
    && (forall n :: n in running && ResumeAt(running[n]).Some? ==> t.Some? && t.value <= ResumeAt(running[n]).value)
    && (t.Some? ==> exists n :: n in running && ResumeAt(running[n]) == t)
  }

  lemma {:induction false} SomeEarliest(running: map<string, Attempt>) returns (t: Option<Time>)
    ensures IsEarliest(running, t)
    decreases running.Keys
  {
    t := None;
    if n :| n in running {
      var rest := running - {n};
      var other := SomeEarliest(rest);
      var at := ResumeAt(running[n]);
      t := if at.Some? && (other.None? || at.value < other.value) then at else other;
      assert other.Some? ==> exists k :: k in rest && ResumeAt(running[k]) == other;
      forall k | k in running && ResumeAt(running[k]).Some?
        ensures t.Some? && t.value <= ResumeAt(running[k]).value
      {
        assert k != n ==> k in rest && rest[k] == running[k];
      }
    }
  }

  lemma EarliestIsOne(running: map<string, Attempt>, s: Option<Time>, t: Option<Time>)
    requires IsEarliest(running, s) && IsEarliest(running, t)
    ensures s == t
  {
  }

  ghost function Earliest(running: map<string, Attempt>): (t: Option<Time>)
    ensures IsEarliest(running, t)
  {
    assert exists t :: IsEarliest(running, t) by {
      var t := SomeEarliest(running);
    }
    var t :| IsEarliest(running, t);
    t
  }

  /** When a pass parks that waits until the fallback: at the earliest end of a running wait. */
  ghost function ParkUntil(running: map<string, Attempt>, fallback: Time): Time {
    match Earliest(running)
    case Some(t) => if t < fallback then t else fallback
    case None => fallback
  }

  /** No later than the fallback and than every running wait. */
  lemma ParkUntilIsEarly(running: map<string, Attempt>, fallback: Time)
    ensures ParkUntil(running, fallback) <= fallback
    ensures forall n ::
      n in running && ResumeAt(running[n]).Some? ==> ParkUntil(running, fallback) <= ResumeAt(running[n]).value
  {
  }

  class StepHistory {
    var cache: map<string, Attempt>
    var failedCounts: map<string, nat>
    var failed: map<string, Attempt>
    var running: map<string, Attempt>
    var resolvedNames: set<string>
    var nextIndex: map<string, nat>
    const stepLimit: int
    var stepCount: nat

    constructor (attempts: seq<Attempt>, limit: int)
      ensures View() == Rebuilt(attempts) && Valid() && resolvedNames == {}
      ensures stepCount == |attempts| && stepLimit == if limit < 1 then 1 else limit
    {
      var l := CreateStepExecutionStateFromAttempts(attempts);
      cache, failedCounts, failed, running := l.cache, l.failedCounts, l.failed, l.running;
      resolvedNames, nextIndex := {}, map[];
      stepLimit := if limit < 1 then 1 else limit;
      stepCount := |attempts|;
    }

    function View(): Ledger
      reads this
    {
      Ledger(cache, failedCounts, failed, running)
    }

    /** Below the remembered index every suffix of a name is taken. */
    ghost predicate Valid()
      reads this
    {
      forall base :: base in nextIndex ==>
        nextIndex[base] >= 1 && forall j: nat :: 1 <= j < nextIndex[base] ==> Suffixed(base, j) in resolvedNames
    }

    method ResolveStepName(base: string) returns (name: string)
      requires Valid()
      modifies this`resolvedNames, this`nextIndex
      ensures Valid() && name == Resolved(old(resolvedNames), base) && resolvedNames == old(resolvedNames) + {name}
    {
      if base !in resolvedNames {
        resolvedNames := resolvedNames + {base};
        return base;
      }
      var index := if base in nextIndex then nextIndex[base] else 1;
      ghost var left := resolvedNames;
      while Suffixed(base, index) in resolvedNames
        invariant index >= 1 && left <= resolvedNames
        invariant forall j: nat :: 1 <= j < index ==> Suffixed(base, j) in resolvedNames
        invariant forall j: nat :: j >= index && Suffixed(base, j) in resolvedNames ==> Suffixed(base, j) in left
        decreases left
      {
        forall j: nat | j >= index + 1 && Suffixed(base, j) in resolvedNames
          ensures Suffixed(base, j) in left - {Suffixed(base, index)}
        {
          if Suffixed(base, j) == Suffixed(base, index) {
            SuffixedIsOneToOne(base, index, j);
          }
        }
        left := left - {Suffixed(base, index)};
        index := index + 1;
      }
      name := Suffixed(base, index);
      assert FirstFree(resolvedNames, base, index);
      ResolvesToOne(resolvedNames, base, name, Resolved(resolvedNames, base));
      nextIndex := nextIndex[base := index + 1];
      resolvedNames := resolvedNames + {name};
    }

    function FindCached(step: string): Option<Attempt>
      reads this
    {
      if step in cache then Some(cache[step]) else None
    }

    function FindRunning(step: string): Option<Attempt>
      reads this
    {
      if step in running then Some(running[step]) else None
    }

    function FindTerminallyFailedWorkflow(step: string): Option<Attempt>
      reads this
    {
      if step in failed && failed[step].kind == WorkflowStep && failed[step].child.Some? then Some(failed[step])
      else None
    }

    /** Another step of this pass that waits on the signal. */
    method FindConflictingSignalWait(signal: string, exclude: string) returns (step: Option<string>)
      ensures step.Some? <==> exists n :: n in running && n != exclude && WaitsOnSignal(running[n], signal)
      ensures step.Some? ==>
        step.value in running && step.value != exclude && WaitsOnSignal(running[step.value], signal)
    {
      var rest := running.Keys;
      while rest != {}
        invariant rest <= running.Keys
        invariant forall n :: n in running && n !in rest ==> n == exclude || !WaitsOnSignal(running[n], signal)
        decreases rest
      {
        var n :| n in rest;
        if n != exclude && WaitsOnSignal(running[n], signal) {
          return Some(n);
        }
        rest := rest - {n};
      }
      step := None;
    }

    method EarliestRunningWaitResumeAt() returns (t: Option<Time>)
      ensures t == Earliest(running)
    {
      t := None;
      var rest := running.Keys;
      while rest != {}
        invariant rest <= running.Keys
        invariant forall n :: n in running && n !in rest && ResumeAt(running[n]).Some? ==>
          t.Some? && t.value <= ResumeAt(running[n]).value
        invariant t.Some? ==> exists n :: n in running && ResumeAt(running[n]) == t
        decreases rest
      {
        var n :| n in rest;
        rest := rest - {n};
        var at := ResumeAt(running[n]);
        if at.Some? && (t.None? || at.value < t.value) {
          t := at;
        }
      }
      EarliestIsOne(running, t, Earliest(running));
    }

    method ResolveEarliestRunningWaitResumeAt(fallback: Time) returns (t: Time)
      ensures t == ParkUntil(running, fallback)
    {
      var earliest := EarliestRunningWaitResumeAt();
      if earliest.None? {
        return fallback;
      }
      t := if earliest.value < fallback then earliest.value else fallback;
    }

    /** Whether one more attempt would stay within the limit. */
    function CanRecordNewAttempt(): bool
      reads this
    {
      stepCount < stepLimit
    }

    method RecordNewAttempt(a: Attempt)
      modifies this`running, this`stepCount
      ensures View() == old(View()).(running := old(running)[a.step := a]) && stepCount == old(stepCount) + 1
    {
      running := running[a.step := a];
      stepCount := stepCount + 1;
    }

    method ReplaceRunningAttempt(a: Attempt)
      modifies this`running
      ensures View() == old(View()).(running := old(running)[a.step := a])
    {
      running := running[a.step := a];
    }

    method RecordCompletion(a: Attempt)
      modifies this`running, this`cache
      ensures View() == WithCompletion(old(View()), a)
    {
      running := running - {a.step};
      cache := cache[a.step := a];
    }

    method RecordFailedAttempt(a: Attempt) returns (count: nat)
      modifies this`running, this`failedCounts, this`failed
      ensures View() == WithFailure(old(View()), a) && count == FailedCount(old(View()), a.step) + 1
    {
      running := running - {a.step};
      count := (if a.step in failedCounts then failedCounts[a.step] else 0) + 1;
      failedCounts := failedCounts[a.step := count];
      failed := failed[a.step := a];
    }
  }

  predicate WaitsOnSignal(a: Attempt, signal: string) {
    a.kind == SignalWait && a.context.SignalUntil? && a.context.signal == signal
  }

  function WithRunning(l: Ledger, a: Attempt): Ledger {
    l.(running := l.running[a.step := a])
  }

  function WithCompletion(l: Ledger, a: Attempt): Ledger {
    l.(running := l.running - {a.step}, cache := l.cache[a.step := a])
  }

  function WithFailure(l: Ledger, a: Attempt): Ledger {
    Failure(l.(running := l.running - {a.step}), a)
  }
}
