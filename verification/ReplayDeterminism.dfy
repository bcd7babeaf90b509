/**
  * For a deterministic function that no step error lets go on, without any condition on its step names:
  * all passes over a run, at whatever times and on whatever workers, see one sequence of outcomes.
  */
module ReplayDeterminism {
  import opened Graphs
  import opened Store
  import opened WakeUp
  import opened StepHistory
  import opened Replay
  import opened ReplayProofs
  import opened ReplaySafety
  import opened ReplayTraces

  /** After a step error the function calls no further step. */
  ghost predicate Straight(fn: WorkflowFn) {
    forall outs: seq<Outcome>, k: nat {:trigger fn(outs), outs[k]} :: k < |outs| && outs[k].Raised? ==> !fn(outs).Step?
  }

  // ---- passes that name their calls alike ----

  /** When the function calls a step, so does the key, of one kind and under one name. */
  ghost predicate Keyed(fn: WorkflowFn, key: WorkflowFn) {
    forall outs {:trigger fn(outs)} :: fn(outs).Step? ==>
      key(outs).Step? && key(outs).kind == fn(outs).kind && key(outs).base == fn(outs).base
  }

  /** Passes that get the same answers call the same steps, whatever else they read, do or are given. */
  ghost predicate KeyedBy(fns: Family, key: WorkflowFn) {
    forall n: nat :: Keyed(fns(n), key)
  }

  /** The calls and answers of a pass are those of the key. */
  ghost predicate FollowsKey(key: WorkflowFn, p: Pass) {
    p.names == NamesAlong(key, p.outs) && Calls(key, p.outs) && FromCache(p.ledger.cache, p.names, p.outs)
  }

  lemma {:induction false} KeyNames(fn: WorkflowFn, key: WorkflowFn, outs: seq<Outcome>)
    requires Keyed(fn, key) && Calls(fn, outs)
    ensures NamesAlong(fn, outs) == NamesAlong(key, outs) && Calls(key, outs)
  {
    if outs != [] {
      var before := outs[..|outs| - 1];
      forall k | 0 <= k < |before|
        ensures before[..k] == outs[..k]
      {
      }
      KeyNames(fn, key, before);
      assert fn(before).Step?;
    }
  }

  lemma PassFollowsKey(fn: WorkflowFn, key: WorkflowFn, p: Pass)
    requires Follows(fn, p) && Keyed(fn, key)
    ensures FollowsKey(key, p)
  {
    KeyNames(fn, key, p.outs);
  }

  // ---- outcomes backed by the tables ----

  ghost predicate BackedAt(t: Tables, run: Id, fn: WorkflowFn, outs: seq<Outcome>, k: nat)
    requires k < |outs|
  {
    && outs[k].Returned?
    && exists id :: Done(t, id, run, NamesAlong(fn, outs)[k]) && t.attempts[id].output == outs[k].value
  }

  /** Every outcome is the output of a completed attempt of its step. */
  ghost predicate Backed(t: Tables, run: Id, fn: WorkflowFn, outs: seq<Outcome>) {
    forall k: nat :: k < |outs| ==> BackedAt(t, run, fn, outs, k)
  }

  lemma MovingKeepsBacked(t: Tables, t': Tables, run: Id, fn: WorkflowFn, outs: seq<Outcome>)
    requires Backed(t, run, fn, outs) && AttemptsMove(t, t')
    ensures Backed(t', run, fn, outs)
  {
    forall k: nat | k < |outs|
      ensures BackedAt(t', run, fn, outs, k)
    {
      assert BackedAt(t, run, fn, outs, k);
      var id :| Done(t, id, run, NamesAlong(fn, outs)[k]) && t.attempts[id].output == outs[k].value;
      assert Done(t', id, run, NamesAlong(fn, outs)[k]);
    }
  }

  /** Of two backed sequences one continues the other. */
  lemma {:induction false} BackedAgree(t: Tables, run: Id, fn: WorkflowFn, a: seq<Outcome>, b: seq<Outcome>, k: nat)
    requires OneOutput(t, run) && Backed(t, run, fn, a) && Backed(t, run, fn, b) && k <= |a| && k <= |b|
    ensures a[..k] == b[..k]
  {
    if k > 0 {
      BackedAgree(t, run, fn, a, b, k - 1);
      NameAt(fn, a, k - 1);
      NameAt(fn, b, k - 1);
      assert BackedAt(t, run, fn, a, k - 1) && BackedAt(t, run, fn, b, k - 1);
      SameAnswer(t, run, fn, a, b, k - 1);
      OneMore(a, b, k - 1);
    }
  }

  lemma SameAnswer(t: Tables, run: Id, fn: WorkflowFn, a: seq<Outcome>, b: seq<Outcome>, k: nat)
    requires OneOutput(t, run) && k < |a| && k < |b| && BackedAt(t, run, fn, a, k) && BackedAt(t, run, fn, b, k)
    requires NamesAlong(fn, a)[k] == NamesAlong(fn, b)[k]
    ensures a[k] == b[k]
  {
  }

  /** Names along a sequence are distinct from the next one. */
  lemma LaterNameDiffers(fn: WorkflowFn, a: seq<Outcome>, b: seq<Outcome>)
    requires |a| < |b| && a == b[..|a|]
    ensures NextName(fn, a) != NextName(fn, b)
  {
    NameAt(fn, b, |a|);
    assert NamesAlong(fn, b)[|a|] in Elems(NamesAlong(fn, b));
  }

  /** The step called after backed outcomes has one kind, whichever pass called it. */
  lemma SameNameSameKind(t: Tables, run: Id, fn: WorkflowFn, a: seq<Outcome>, b: seq<Outcome>)
    requires OneOutput(t, run) && Backed(t, run, fn, a) && Backed(t, run, fn, b) && NextName(fn, a) == NextName(fn, b)
    ensures a == b
  {
    if |a| < |b| {
      BackedAgree(t, run, fn, a, b, |a|);
      LaterNameDiffers(fn, a, b);
    } else if |b| < |a| {
      BackedAgree(t, run, fn, b, a, |b|);
      LaterNameDiffers(fn, b, a);
    } else {
      BackedAgree(t, run, fn, a, b, |a|);
    }
  }

  // ---- where each attempt was born ----

  /** The outcomes after which each attempt of the run was created. */
  type Births = map<Id, seq<Outcome>>

  ghost predicate BornFrom(fn: WorkflowFn, a: Attempt, outs: seq<Outcome>) {
    fn(outs).Step? && a.kind == fn(outs).kind && a.step == NextName(fn, outs)
  }

  /** Every attempt of the run was inserted by a call of its function. */
  ghost predicate Recorded(t: Tables, run: Id, fn: WorkflowFn, born: Births) {
    forall id :: id in t.attempts && t.attempts[id].run == run ==> id in born && BornFrom(fn, t.attempts[id], born[id])
  }

  ghost predicate PassesFollow(env: Env, s: Sys) {
    forall w :: w in s.passes ==> Follows(FnOf(env, s.passes[w]), s.passes[w])
  }

  ghost predicate Told(env: Env, s: Sys, run: Id, key: WorkflowFn, born: Births) {
    Safe(s) && PassesFollow(env, s) && KeyedBy(env.fns(run), key) && Recorded(s.t, run, key, born)
  }

  lemma NewPassFollows(fn: WorkflowFn, w: Id, run: Id, r: Run, registered: bool)
    ensures Follows(fn, NewPass(w, run, r, registered))
  {
  }

  lemma StepKeepsFollowing(env: Env, s: Sys, l: Label)
    requires Safe(s) && PassesFollow(env, s) && Enabled(s, l)
    ensures PassesFollow(env, Effect(env, s, l))
  {
    var s' := Effect(env, s, l);
    forall w | w in s'.passes
      ensures Follows(FnOf(env, s'.passes[w]), s'.passes[w])
    {
      if !Acts(l, w) {
        OthersUnmoved(env, s, l, w);
      } else if l.Go? {
        TurnIsOk(env, s.t, w, s.passes[w], l.c);
        TurnFollows(env, s.t, w, s.passes[w], l.c);
      } else {
        NewPassFollows(FnOf(env, s'.passes[w]), w, l.pick.value, s'.t.runs[l.pick.value], l.registered);
      }
    }
  }

  /** The births after a step: a turn that inserts an attempt records its pass's outcomes. */
  ghost function BornAfter(env: Env, s: Sys, l: Label, born: Births): Births
    requires Enabled(s, l)
  {
    var op := OpOf(env, s, l);
    if l.Go? && op.Some? && op.value.CreateAttempt? then born[op.value.id := s.passes[l.worker].outs] else born
  }

  /** Attempts appear only in an insert, and an insert completes nothing. */
  lemma OnlyCreateAddsAttempts(t: Tables, op: Op)
    requires Consistent(t) && Allowed(t, op)
    ensures if op.CreateAttempt? then Apply(t, op).attempts.Keys == t.attempts.Keys + {op.id}
            else Apply(t, op).attempts.Keys == t.attempts.Keys
  {
  }

  lemma OpKeepsRecorded(t: Tables, op: Op, run: Id, fn: WorkflowFn, born: Births, outs: seq<Outcome>)
    requires Consistent(t) && Allowed(t, op) && Recorded(t, run, fn, born)
    requires op.CreateAttempt? && op.run == run ==>
      fn(outs).Step? && op.kind == fn(outs).kind && op.step == NextName(fn, outs)
    ensures Recorded(Apply(t, op), run, fn, if op.CreateAttempt? then born[op.id := outs] else born)
  {
    OpMovesAttempts(t, op);
    OnlyCreateAddsAttempts(t, op);
  }

  /** Only a turn inserts attempts, and it inserts what its function calls. */
  lemma InsertFollows(env: Env, s: Sys, l: Label)
    requires Safe(s) && PassesFollow(env, s) && Enabled(s, l)
    requires OpOf(env, s, l).Some? && OpOf(env, s, l).value.CreateAttempt?
    ensures
      var op := OpOf(env, s, l).value;
      l.Go? && (var p := s.passes[l.worker];
                var fn := FnOf(env, p);
                p.run == op.run && fn(p.outs).Step? && op.kind == fn(p.outs).kind && op.step == NextName(fn, p.outs))
  {
    TurnIsOk(env, s.t, l.worker, s.passes[l.worker], l.c);
  }

  /** The key names the inserted attempt. */
  lemma InsertIsKeyed(env: Env, s: Sys, l: Label, key: WorkflowFn)
    requires Safe(s) && PassesFollow(env, s) && Enabled(s, l)
    requires OpOf(env, s, l).Some? && OpOf(env, s, l).value.CreateAttempt?
    requires KeyedBy(env.fns(OpOf(env, s, l).value.run), key)
    ensures l.Go?
    ensures
      var op, outs := OpOf(env, s, l).value, s.passes[l.worker].outs;
      key(outs).Step? && op.kind == key(outs).kind && op.step == NextName(key, outs)
  {
    InsertFollows(env, s, l);
    var p := s.passes[l.worker];
    KeyNames(FnOf(env, p), key, p.outs);
  }

  lemma StepKeepsTold(env: Env, s: Sys, l: Label, run: Id, key: WorkflowFn, born: Births)
    requires Told(env, s, run, key, born) && Enabled(s, l)
    ensures Told(env, Effect(env, s, l), run, key, BornAfter(env, s, l, born))
  {
    StepKeepsSafe(env, s, l);
    StepKeepsFollowing(env, s, l);
    StepOp(env, s, l);
    var op := OpOf(env, s, l);
    if op.Some? {
      if op.value.CreateAttempt? {
        InsertFollows(env, s, l);
        if op.value.run == run {
          InsertIsKeyed(env, s, l, key);
        }
        OpKeepsRecorded(s.t, op.value, run, key, born, s.passes[l.worker].outs);
      } else {
        OpKeepsRecorded(s.t, op.value, run, key, born, []);
      }
    }
  }

  lemma NobodyToldYet(env: Env, now: Time, run: Id, key: WorkflowFn)
    requires KeyedBy(env.fns(run), key)
    ensures Told(env, Initial(now), run, key, map[])
  {
  }

  // ---- functions that keep sleeps and other steps apart ----

  /** Whatever the answers so far, calls that get one name are all sleeps or none is. */
  ghost predicate Apart(fn: WorkflowFn) {
    forall a: seq<Outcome>, b: seq<Outcome> {:trigger fn(a), fn(b)} ::
      fn(a).Step? && fn(b).Step? && NextName(fn, a) == NextName(fn, b) ==>
        (fn(a).kind == SleepStep <==> fn(b).kind == SleepStep)
  }

  lemma ApartNamesApart(t: Tables, run: Id, fn: WorkflowFn, born: Births)
    requires Apart(fn) && Recorded(t, run, fn, born)
    ensures SleepNamesApart(t, run)
  {
    forall i, j | i in t.attempts && j in t.attempts
        && t.attempts[i].run == run && t.attempts[j].run == run && t.attempts[i].step == t.attempts[j].step
      ensures t.attempts[i].kind == SleepStep <==> t.attempts[j].kind == SleepStep
    {
      assert BornFrom(fn, t.attempts[i], born[i]) && BornFrom(fn, t.attempts[j], born[j]);
    }
  }

  // ---- functions that a step error ends ----

  /** The attempts were created after answers that the tables have. */
  ghost predicate BornBacked(t: Tables, run: Id, fn: WorkflowFn, born: Births) {
    forall id :: id in t.attempts && t.attempts[id].run == run && id in born ==> Backed(t, run, fn, born[id])
  }

  lemma BackedNamesApart(t: Tables, run: Id, fn: WorkflowFn, born: Births)
    requires OneOutput(t, run) && Recorded(t, run, fn, born) && BornBacked(t, run, fn, born)
    ensures SleepNamesApart(t, run)
  {
    forall i, j | i in t.attempts && j in t.attempts
        && t.attempts[i].run == run && t.attempts[j].run == run && t.attempts[i].step == t.attempts[j].step
      ensures t.attempts[i].kind == t.attempts[j].kind
    {
      SameNameSameKind(t, run, fn, born[i], born[j]);
    }
  }

  /** A pass of a straight function that is about to call a step has seen only outputs, and the tables have them. */
  lemma OutsAreBacked(t: Tables, w: Id, p: Pass, fn: WorkflowFn)
    requires Straight(fn) && FollowsKey(fn, p) && PassOk(t, w, p) && fn(p.outs).Step?
    ensures Backed(t, p.run, fn, p.outs)
  {
  }

  lemma SameKindsApart(t: Tables, t': Tables, run: Id)
    requires SleepNamesApart(t, run) && AttemptsMove(t, t') && t'.attempts.Keys == t.attempts.Keys
    ensures SleepNamesApart(t', run)
  {
  }

  lemma InsertKeepsOneOutput(t: Tables, op: Op, run: Id)
    requires Consistent(t) && Allowed(t, op) && op.CreateAttempt? && OneOutput(t, run)
    ensures OneOutput(Apply(t, op), run)
  {
    var t' := Apply(t, op);
    OpMovesAttempts(t, op);
    forall i, step | Done(t', i, run, step)
      ensures Done(t, i, run, step) && t'.attempts[i] == t.attempts[i]
    {
    }
  }

  lemma OtherOpKeepsOneOutput(t: Tables, op: Op, run: Id, fn: WorkflowFn, born: Births)
    requires Consistent(t) && Allowed(t, op) && !op.CreateAttempt?
    requires OneOutput(t, run) && Recorded(t, run, fn, born) && BornBacked(t, run, fn, born)
    requires SleepsNull(Apply(t, op)) && AtMostOnce(Apply(t, op))
    ensures OneOutput(Apply(t, op), run)
  {
    OpMovesAttempts(t, op);
    OnlyCreateAddsAttempts(t, op);
    BackedNamesApart(t, run, fn, born);
    SameKindsApart(t, Apply(t, op), run);
    ApartHaveOneOutput(Apply(t, op), run);
  }

  lemma MovingKeepsBornBacked(t: Tables, t': Tables, run: Id, fn: WorkflowFn, born: Births, born': Births,
                              added: set<Id>)
    requires BornBacked(t, run, fn, born) && AttemptsMove(t, t') && t'.attempts.Keys <= t.attempts.Keys + added
    requires forall id :: id in born' && id !in added ==> id in born && born'[id] == born[id]
    requires forall id ::
      id in born' && id in added && id in t'.attempts && t'.attempts[id].run == run ==> Backed(t, run, fn, born'[id])
    ensures BornBacked(t', run, fn, born')
  {
    forall id | id in t'.attempts && t'.attempts[id].run == run && id in born'
      ensures Backed(t', run, fn, born'[id])
    {
      MovingKeepsBacked(t, t', run, fn, born'[id]);
    }
  }

  lemma StepKeepsBacked(env: Env, s: Sys, l: Label, run: Id, key: WorkflowFn, born: Births)
    requires Straight(key) && Told(env, s, run, key, born) && BornBacked(s.t, run, key, born)
    requires Enabled(s, l)
    ensures BornBacked(Effect(env, s, l).t, run, key, BornAfter(env, s, l, born))
  {
    StepMoves(env, s, l);
    StepOp(env, s, l);
    var op := OpOf(env, s, l);
    if op.Some? {
      OnlyCreateAddsAttempts(s.t, op.value);
      if op.value.CreateAttempt? {
        InsertFollows(env, s, l);
        var p := s.passes[l.worker];
        if p.run == run {
          InsertIsKeyed(env, s, l, key);
          PassFollowsKey(FnOf(env, p), key, p);
          OutsAreBacked(s.t, l.worker, p, key);
        }
        MovingKeepsBornBacked(s.t, Apply(s.t, op.value), run, key, born, BornAfter(env, s, l, born), {op.value.id});
      } else {
        MovingKeepsBornBacked(s.t, Apply(s.t, op.value), run, key, born, born, {});
      }
    }
  }

  lemma StepKeepsOneOutput(env: Env, s: Sys, l: Label, run: Id, key: WorkflowFn, born: Births)
    requires Told(env, s, run, key, born) && BornBacked(s.t, run, key, born) && OneOutput(s.t, run) && Enabled(s, l)
    ensures OneOutput(Effect(env, s, l).t, run)
  {
    StepOp(env, s, l);
    StepKeepsTables(env, s, l);
    var op := OpOf(env, s, l);
    if op.Some? {
      if op.value.CreateAttempt? {
        InsertKeepsOneOutput(s.t, op.value, run);
      } else {
        OtherOpKeepsOneOutput(s.t, op.value, run, key, born);
      }
    }
  }

  // ---- the main theorems ----

  /** A step error ends the function, or it keeps the names of its sleeps apart. */
  ghost predicate Steady(fn: WorkflowFn) {
    Straight(fn) || Apart(fn)
  }

  /** The passes of a run name their calls alike, and a step error ends the function. */
  ghost predicate StraightRun(fns: Family) {
    exists key :: KeyedBy(fns, key) && Straight(key)
  }

  /** The passes of a run name their calls alike, and the function is of either kind. */
  ghost predicate SteadyRun(fns: Family) {
    exists key :: KeyedBy(fns, key) && Steady(key)
  }

  /** What whole runs keep, for a function of either kind. */
  ghost predicate KeepsOutputs(env: Env, s: Sys, run: Id, key: WorkflowFn, born: Births) {
    && Told(env, s, run, key, born) && OneOutput(s.t, run)
    && (Straight(key) ==> BornBacked(s.t, run, key, born))
  }

  lemma StepKeepsOutputs(env: Env, s: Sys, l: Label, run: Id, key: WorkflowFn, born: Births)
    requires Steady(key) && KeepsOutputs(env, s, run, key, born) && Enabled(s, l)
    ensures KeepsOutputs(env, Effect(env, s, l), run, key, BornAfter(env, s, l, born))
  {
    StepKeepsTold(env, s, l, run, key, born);
    if Straight(key) {
      StepKeepsBacked(env, s, l, run, key, born);
      StepKeepsOneOutput(env, s, l, run, key, born);
    } else {
      ApartNamesApart(Effect(env, s, l).t, run, key, BornAfter(env, s, l, born));
      ApartHaveOneOutput(Effect(env, s, l).t, run);
    }
  }

  lemma {:induction false} StaysKept(env: Env, s: Sys, labels: seq<Label>, run: Id, key: WorkflowFn, born: Births)
    returns (born': Births)
    requires Steady(key) && KeepsOutputs(env, s, run, key, born) && Runs(env, s, labels)
    ensures KeepsOutputs(env, After(env, s, labels), run, key, born')
    decreases |labels|
  {
    born' := born;
    if labels != [] {
      StepKeepsOutputs(env, s, labels[0], run, key, born);
      born' := StaysKept(env, Effect(env, s, labels[0]), labels[1..], run, key, BornAfter(env, s, labels[0], born));
    }
  }

  lemma NothingToKeepYet(env: Env, now: Time, run: Id, key: WorkflowFn)
    requires KeyedBy(env.fns(run), key)
    ensures KeepsOutputs(env, Initial(now), run, key, map[])
  {
    NobodyToldYet(env, now, run, key);
  }

  /**
    * From empty tables, over every interleaving, for a function that a step error ends or that keeps the names of its
    * sleeps apart: the run's step outputs never change, and no name is used both for a sleep and for something else.
    */
  lemma SteadyRunsKeepOutputs(env: Env, now: Time, labels: seq<Label>, run: Id)
    requires SteadyRun(env.fns(run)) && Runs(env, Initial(now), labels)
    ensures
      var t := After(env, Initial(now), labels).t;
      OneOutput(t, run) && SleepNamesApart(t, run) && AtMostOnce(t)
  {
    var key :| KeyedBy(env.fns(run), key) && Steady(key);
    NothingToKeepYet(env, now, run, key);
    var born := StaysKept(env, Initial(now), labels, run, key, map[]);
    var t := After(env, Initial(now), labels).t;
    if Straight(key) {
      BackedNamesApart(t, run, key, born);
    } else {
      ApartNamesApart(t, run, key, born);
    }
  }

  /** What a pass has been given up to its k-th outcome, when all of it is outputs, is in the tables. */
  lemma PrefixIsBacked(t: Tables, w: Id, p: Pass, fn: WorkflowFn, k: nat)
    requires FollowsKey(fn, p) && PassOk(t, w, p) && k <= |p.outs| && forall i :: 0 <= i < k ==> p.outs[i].Returned?
    ensures Backed(t, p.run, fn, p.outs[..k])
  {
    forall i: nat | i < k
      ensures BackedAt(t, p.run, fn, p.outs[..k], i)
    {
      NameAt(fn, p.outs, i);
      NameAt(fn, p.outs[..k], i);
      assert p.outs[..k][..i] == p.outs[..i];
      assert p.names[i] in p.ledger.cache;
    }
  }

  /** Every answer that was followed by another call was an output. */
  lemma EarlierReturned(fn: WorkflowFn, outs: seq<Outcome>, k: nat)
    requires Straight(fn) && Calls(fn, outs) && k < |outs| - 1
    ensures outs[k].Returned?
  {
    var before := outs[..|outs| - 1];
    assert before[k] == outs[k];
    assert fn(before).Step?;
  }

  /**
    * Up to the k-th answer the passes made the same calls and got the same answers; the k-th differs only if one is an
    * error.
    */
  ghost predicate SameSoFar(p: Pass, q: Pass, k: nat) {
    && |p.names| == |p.outs| && |q.names| == |q.outs|
    && (k < |p.outs| && k < |q.outs| ==>
          && p.names[..k + 1] == q.names[..k + 1] && p.outs[..k] == q.outs[..k]
          && (p.outs[k].Returned? && q.outs[k].Returned? ==> p.outs[k] == q.outs[k]))
  }

  /** Two moments of one history: the second is reached from the first. */
  ghost predicate Moments(env: Env, now: Time, first: seq<Label>, next: seq<Label>) {
    Runs(env, Initial(now), first) && Runs(env, After(env, Initial(now), first), next)
  }

  /** At the two moments, a pass of w and a pass of v over one run. */
  ghost predicate TwoPasses(env: Env, now: Time, first: seq<Label>, next: seq<Label>, w: Id, v: Id)
    requires Moments(env, now, first, next)
  {
    var s := After(env, Initial(now), first);
    var s' := After(env, s, next);
    w in s.passes && v in s'.passes && s.passes[w].run == s'.passes[v].run
  }

  lemma BothKeep(env: Env, now: Time, first: seq<Label>, next: seq<Label>, w: Id, v: Id, key: WorkflowFn)
    returns (p: Pass, q: Pass, s': Sys)
    requires Moments(env, now, first, next) && TwoPasses(env, now, first, next, w, v)
    requires KeyedBy(env.fns(After(env, Initial(now), first).passes[w].run), key) && Steady(key)
    ensures p == After(env, Initial(now), first).passes[w] && s' == After(env, After(env, Initial(now), first), next)
    ensures q == s'.passes[v]
    ensures Safe(s') && OneOutput(s'.t, p.run) && PassOk(s'.t, w, p) && PassSafe(s'.t, v, q)
    ensures FollowsKey(key, p) && FollowsKey(key, q)
  {
    var s := After(env, Initial(now), first);
    s' := After(env, s, next);
    p, q := s.passes[w], s'.passes[v];
    NothingToKeepYet(env, now, p.run, key);
    var born := StaysKept(env, Initial(now), first, p.run, key, map[]);
    var born' := StaysKept(env, s, next, p.run, key, born);
    AttemptsOnlyMove(env, s, next);
    GrowingKeepsPass(s.t, s'.t, w, p);
    PassFollowsKey(FnOf(env, p), key, p);
    PassFollowsKey(FnOf(env, q), key, q);
  }

  /**
    * Replay safety: two passes over one run, at any two moments and on any workers, owners or not, make the same
    * step calls and get the same answers as far as both get; only an error at the end of a pass may differ.
    */
  lemma PassesAgree(env: Env, now: Time, first: seq<Label>, next: seq<Label>, w: Id, v: Id, k: nat)
    requires Moments(env, now, first, next) && TwoPasses(env, now, first, next, w, v)
    requires StraightRun(env.fns(After(env, Initial(now), first).passes[w].run))
    ensures
      var s := After(env, Initial(now), first);
      SameSoFar(s.passes[w], After(env, s, next).passes[v], k)
  {
    var key :| KeyedBy(env.fns(After(env, Initial(now), first).passes[w].run), key) && Straight(key);
    var p, q, s' := BothKeep(env, now, first, next, w, v, key);
    FollowersAgree(s'.t, w, v, p, q, key, k);
  }

  /**
    * Whenever two passes over a run of a steady function, at any two moments, get outputs for one step, they get the
    * same.
    */
  lemma PassesShareOutputs(env: Env, now: Time, first: seq<Label>, next: seq<Label>, w: Id, v: Id, i: nat, j: nat)
    requires Moments(env, now, first, next) && TwoPasses(env, now, first, next, w, v)
    requires SteadyRun(env.fns(After(env, Initial(now), first).passes[w].run))
    ensures
      var p := After(env, Initial(now), first).passes[w];
      var q := After(env, After(env, Initial(now), first), next).passes[v];
      && |p.names| == |p.outs| && |q.names| == |q.outs|
      && (i < |p.outs| && j < |q.outs| && p.names[i] == q.names[j] && p.outs[i].Returned? && q.outs[j].Returned? ==>
            p.outs[i] == q.outs[j])
  {
    var key :| KeyedBy(env.fns(After(env, Initial(now), first).passes[w].run), key) && Steady(key);
    var p, q, s' := BothKeep(env, now, first, next, w, v, key);
    if i < |p.outs| && j < |q.outs| && p.names[i] == q.names[j] && p.outs[i].Returned? && q.outs[j].Returned? {
      var a :| Done(s'.t, a, p.run, p.names[i]) && s'.t.attempts[a].output == p.outs[i].value;
      var b :| Done(s'.t, b, p.run, p.names[i]) && s'.t.attempts[b].output == q.outs[j].value;
    }
  }

  lemma FollowersAgree(t: Tables, w: Id, v: Id, p: Pass, q: Pass, fn: WorkflowFn, k: nat)
    requires Straight(fn) && FollowsKey(fn, p) && FollowsKey(fn, q)
    requires PassOk(t, w, p) && PassOk(t, v, q) && p.run == q.run
    requires OneOutput(t, p.run)
    ensures SameSoFar(p, q, k)
  {
    if k < |p.outs| && k < |q.outs| {
      PrefixesAgree(t, w, v, p, q, fn, k);
      if p.outs[k].Returned? && q.outs[k].Returned? {
        PrefixesAgree(t, w, v, p, q, fn, k + 1);
        assert p.outs[..k + 1][k] == q.outs[..k + 1][k];
      }
      NamesFollow(fn, p.outs, q.outs, k);
    }
  }

  /** The names up to a call are told by the answers before it. */
  lemma NamesFollow(fn: WorkflowFn, a: seq<Outcome>, b: seq<Outcome>, k: nat)
    requires k < |a| && k < |b| && a[..k] == b[..k]
    ensures NamesAlong(fn, a)[..k + 1] == NamesAlong(fn, b)[..k + 1]
  {
    NameAt(fn, a, k);
    NameAt(fn, b, k);
    OneMore(NamesAlong(fn, a), NamesAlong(fn, b), k);
  }

  lemma OneMore<T>(x: seq<T>, y: seq<T>, k: nat)
    requires k < |x| && k < |y| && x[..k] == y[..k] && x[k] == y[k]
    ensures x[..k + 1] == y[..k + 1]
  {
  }

  lemma PrefixesAgree(t: Tables, w: Id, v: Id, p: Pass, q: Pass, fn: WorkflowFn, n: nat)
    requires Straight(fn) && FollowsKey(fn, p) && FollowsKey(fn, q)
    requires PassOk(t, w, p) && PassOk(t, v, q) && p.run == q.run
    requires OneOutput(t, p.run) && n <= |p.outs| && n <= |q.outs|
    requires n > 0 ==> (n < |p.outs| || p.outs[n - 1].Returned?) && (n < |q.outs| || q.outs[n - 1].Returned?)
    ensures p.outs[..n] == q.outs[..n]
  {
    forall i | 0 <= i < n
      ensures p.outs[i].Returned? && q.outs[i].Returned?
    {
      if i < |p.outs| - 1 {
        EarlierReturned(fn, p.outs, i);
      }
      if i < |q.outs| - 1 {
        EarlierReturned(fn, q.outs, i);
      }
    }
    PrefixIsBacked(t, w, p, fn, n);
    PrefixIsBacked(t, v, q, fn, n);
    BackedAgree(t, p.run, fn, p.outs[..n], q.outs[..n], n);
  }

  /** The owner of a run of a steady function has every output that any earlier pass over it has seen. */
  lemma OwnersExtend(env: Env, now: Time, first: seq<Label>, next: seq<Label>, w: Id, v: Id)
    requires Moments(env, now, first, next) && TwoPasses(env, now, first, next, w, v)
    requires SteadyRun(env.fns(After(env, Initial(now), first).passes[w].run))
    requires
      var s' := After(env, After(env, Initial(now), first), next);
      Active(s'.passes[v]) && Owned(s'.t, s'.passes[v].run, v)
    ensures
      var s := After(env, Initial(now), first);
      var before, later := s.passes[w].ledger.cache, After(env, s, next).passes[v].ledger.cache;
      forall n :: n in before ==> n in later && later[n].output == before[n].output
  {
    var key :| KeyedBy(env.fns(After(env, Initial(now), first).passes[w].run), key) && Steady(key);
    var p, q, s' := BothKeep(env, now, first, next, w, v, key);
    NothingRunsYet(now);
    StaysSafe(env, Initial(now), first);
    OutputsExtend(env, After(env, Initial(now), first), next, w, v);
  }
}
