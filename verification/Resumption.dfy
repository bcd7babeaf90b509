/** Stopping at a wait block and starting over from its outputs, for any way of running one block. */
module Resumption {
  import opened Graphs
  import opened Workflows

  /** A run in progress or how it ended; the completed blocks are those with an output. */
  datatype Exec =
    | Running(outputs: map<Id, Value>, skipped: set<Id>)
    | Stopped(error: string, outputs: map<Id, Value>)
    | Paused(at: Id, outputs: map<Id, Value>)

  type TurnFn = (Exec, Id) -> Exec

  /** What one turn keeps: ended runs stay, completed and skipped blocks are passed over, outputs only grow. */
  ghost predicate TurnKeeps(s: Exec, id: Id, s': Exec) {
    && (!s.Running? || id in s.outputs || id in s.skipped ==> s' == s)
    && (s.Running? && s'.Paused? ==> s' == Paused(id, s.outputs))
    && s.outputs.Keys <= s'.outputs.Keys <= s.outputs.Keys + {id}
    && (s.Running? && s'.Running? ==> s.skipped <= s'.skipped)
  }

  ghost predicate Lawful(f: TurnFn) {
    forall s: Exec, id: Id {:trigger f(s, id)} :: TurnKeeps(s, id, f(s, id))
  }

  /** The run after the first k blocks, started from seed outputs with nothing skipped. */
  ghost function ExecAt(f: TurnFn, order: seq<Id>, seed: map<Id, Value>, k: nat): Exec
    requires k <= |order|
  {
    if k == 0 then Running(seed, {}) else f(ExecAt(f, order, seed, k - 1), order[k - 1])
  }

  /** What the surroundings decide: how blocks run after n pauses, and what each awaited block gets. */
  datatype Plan = Plan(turns: nat -> TurnFn, order: seq<Id>, payload: Id -> Value)

  ghost predicate AllLawful(plan: Plan) {
    forall n: nat {:trigger Lawful(plan.turns(n))} :: Lawful(plan.turns(n))
  }

  lemma TurnKeepsLaw(plan: Plan, n: nat, s: Exec, id: Id)
    requires AllLawful(plan)
    ensures TurnKeeps(s, id, plan.turns(n)(s, id))
  {
    assert Lawful(plan.turns(n));
  }

  /** A run and the number of pauses it has been through. */
  datatype Course = Course(exec: Exec, pauses: nat)

  /** One turn of a run that is handed each awaited output on the spot and keeps what it skipped. */
  ghost function StraightTurn(plan: Plan, c: Course, id: Id): Course {
    if !c.exec.Running? then c
    else
      match plan.turns(c.pauses)(c.exec, id)
      case Paused(at, outputs) => Course(Running(outputs[at := plan.payload(at)], c.exec.skipped), c.pauses + 1)
      case other => Course(other, c.pauses)
  }

  ghost function StraightAt(plan: Plan, k: nat): Course
    requires k <= |plan.order|
  {
    if k == 0 then Course(Running(map[], {}), 0) else StraightTurn(plan, StraightAt(plan, k - 1), plan.order[k - 1])
  }

  ghost function Uninterrupted(plan: Plan): Exec {
    StraightAt(plan, |plan.order|).exec
  }

  /** Execute, then resume with the payload of each block the run pauses at, until it no longer pauses. */
  ghost function ResumedFrom(plan: Plan, n: nat, seed: map<Id, Value>): Exec
    requires AllLawful(plan)
    decreases Elems(plan.order) - seed.Keys
  {
    var r := ExecAt(plan.turns(n), plan.order, seed, |plan.order|);
    if r.Paused? then
      PauseIsNew(plan.turns(n), plan.order, seed, |plan.order|);
      assert r.at in Elems(plan.order) - seed.Keys;
      ResumedFrom(plan, n + 1, r.outputs[r.at := plan.payload(r.at)])
    else r
  }

  ghost function Resumed(plan: Plan): Exec
    requires AllLawful(plan)
  {
    ResumedFrom(plan, 0, map[])
  }

  lemma {:induction false} PauseIsNew(f: TurnFn, order: seq<Id>, seed: map<Id, Value>, k: nat)
    requires k <= |order| && Lawful(f)
    ensures
      var r := ExecAt(f, order, seed, k);
      seed.Keys <= r.outputs.Keys && (r.Paused? ==> r.at in order && r.at !in r.outputs)
  {
    if k > 0 {
      PauseIsNew(f, order, seed, k - 1);
    }
  }

  lemma {:induction false} StaysEnded(f: TurnFn, order: seq<Id>, seed: map<Id, Value>, k: nat)
    requires k <= |order| && Lawful(f) && !ExecAt(f, order, seed, k).Running?
    ensures ExecAt(f, order, seed, |order|) == ExecAt(f, order, seed, k)
    decreases |order| - k
  {
    if k < |order| {
      StaysEnded(f, order, seed, k + 1);
    }
  }

  lemma {:induction false} StraightNeverPauses(plan: Plan, k: nat)
    requires k <= |plan.order|
    ensures !StraightAt(plan, k).exec.Paused?
  {
    if k > 0 {
      StraightNeverPauses(plan, k - 1);
    }
  }

  lemma {:induction false} StraightStaysEnded(plan: Plan, k: nat, n: nat)
    requires k <= n <= |plan.order| && !StraightAt(plan, k).exec.Running?
    ensures StraightAt(plan, n) == StraightAt(plan, k)
  {
    if k < n {
      StraightStaysEnded(plan, k, n - 1);
    }
  }

  lemma {:induction false} OutputsStay(f: TurnFn, order: seq<Id>, seed: map<Id, Value>, k: nat, n: nat)
    requires k <= n <= |order| && Lawful(f)
    ensures ExecAt(f, order, seed, k).outputs.Keys <= ExecAt(f, order, seed, n).outputs.Keys
  {
    if k < n {
      OutputsStay(f, order, seed, k, n - 1);
    }
  }

  lemma {:induction false} ResumedKeeps(plan: Plan, n: nat, seed: map<Id, Value>)
    requires AllLawful(plan)
    ensures
      ExecAt(plan.turns(n), plan.order, seed, |plan.order|).outputs.Keys <= ResumedFrom(plan, n, seed).outputs.Keys
    decreases Elems(plan.order) - seed.Keys
  {
    var r := ExecAt(plan.turns(n), plan.order, seed, |plan.order|);
    if r.Paused? {
      PauseIsNew(plan.turns(n), plan.order, seed, |plan.order|);
      assert r.at in Elems(plan.order) - seed.Keys;
      var seed' := r.outputs[r.at := plan.payload(r.at)];
      OutputsStay(plan.turns(n + 1), plan.order, seed', 0, |plan.order|);
      ResumedKeeps(plan, n + 1, seed');
    }
  }

  /** A run that pauses at a block starts over with that block's payload added to its outputs. */
  lemma RestartsAt(plan: Plan, n: nat, seed: map<Id, Value>, p: nat, s: Exec)
    requires p < |plan.order| && AllLawful(plan) && s == ExecAt(plan.turns(n), plan.order, seed, p)
    requires s.Running? && plan.turns(n)(s, plan.order[p]).Paused?
    ensures ResumedFrom(plan, n, seed)
      == ResumedFrom(plan, n + 1, s.outputs[plan.order[p] := plan.payload(plan.order[p])])
  {
    var f := plan.turns(n);
    TurnKeepsLaw(plan, n, s, plan.order[p]);
    assert ExecAt(f, plan.order, seed, p + 1) == f(s, plan.order[p]) == Paused(plan.order[p], s.outputs);
    StaysEnded(f, plan.order, seed, p + 1);
  }

  // ---- what a pause forgets ----

  ghost predicate PausesAt(plan: Plan, k: nat) {
    k < |plan.order|
    && var c := StraightAt(plan, k);
       c.exec.Running? && plan.turns(c.pauses)(c.exec, plan.order[k]).Paused?
  }

  /** The outputs that the run starts over from after the pause. */
  ghost function SeedAfter(plan: Plan, k: nat): map<Id, Value>
    requires k < |plan.order|
  {
    StraightAt(plan, k).exec.outputs[plan.order[k] := plan.payload(plan.order[k])]
  }

  /** How blocks run after the pause. */
  ghost function TurnsAfter(plan: Plan, k: nat): TurnFn
    requires k < |plan.order|
  {
    plan.turns(StraightAt(plan, k).pauses + 1)
  }

  /** The run that starts over after the pause, before block i. */
  ghost function Restarted(plan: Plan, k: nat, i: nat): Exec
    requires k < |plan.order| && i <= |plan.order|
  {
    ExecAt(TurnsAfter(plan, k), plan.order, SeedAfter(plan, k), i)
  }

  /** What the snapshot does not tell: that the block was passed without an output, or is on a branch that was cut. */
  ghost predicate Lost(plan: Plan, k: nat, i: nat)
    requires k < |plan.order| && i < |plan.order|
  {
    var s := StraightAt(plan, k).exec;
    s.Running? && plan.order[i] !in s.outputs && (i < k || plan.order[i] in s.skipped)
  }

  /** What the lost block does in the run that starts over. */
  ghost function Again(plan: Plan, k: nat, i: nat): Exec
    requires k < |plan.order| && i < |plan.order|
  {
    TurnsAfter(plan, k)(Restarted(plan, k, i), plan.order[i])
  }

  /** The run that starts over gets to a lost block, which does anything but fail onto its error branch. */
  ghost predicate Revived(plan: Plan, k: nat, i: nat) {
    PausesAt(plan, k) && i < |plan.order| && Lost(plan, k, i)
    && var r := Restarted(plan, k, i);
       && r.Running? && plan.order[i] !in r.skipped
       && !(Again(plan, k, i).Running? && plan.order[i] !in Again(plan, k, i).outputs)
  }

  ghost predicate NoneRevived(plan: Plan, k: nat) {
    forall i {:trigger Revived(plan, k, i)} :: !Revived(plan, k, i)
  }

  ghost predicate NoneRevivedBefore(plan: Plan, j: nat) {
    forall k {:trigger NoneRevived(plan, k)} :: 0 <= k < j ==> NoneRevived(plan, k)
  }

  // ---- lost blocks stay without output in the uninterrupted run ----

  lemma {:induction false} LostForGood(plan: Plan, k: nat, i: nat, n: nat)
    requires k < |plan.order| && i < |plan.order| && k <= n <= |plan.order|
    requires AllLawful(plan) && Distinct(plan.order) && Lost(plan, k, i)
    ensures
      var s := StraightAt(plan, n).exec;
      plan.order[i] !in s.outputs && (i >= k && s.Running? ==> plan.order[i] in s.skipped)
  {
    if k < n {
      LostForGood(plan, k, i, n - 1);
      var c := StraightAt(plan, n - 1);
      TurnKeepsLaw(plan, c.pauses, c.exec, plan.order[n - 1]);
    }
  }

  /** A block that a run gets to leaves its output in the end, or stops the run there. */
  lemma BlockRuns(plan: Plan, n: nat, seed: map<Id, Value>, i: nat)
    requires AllLawful(plan) && i < |plan.order| && ExecAt(plan.turns(n), plan.order, seed, i).Running?
    ensures
      var now := plan.turns(n)(ExecAt(plan.turns(n), plan.order, seed, i), plan.order[i]);
      && (plan.order[i] in now.outputs || now.Paused? ==> plan.order[i] in ResumedFrom(plan, n, seed).outputs)
      && (now.Stopped? ==> ResumedFrom(plan, n, seed) == now)
  {
    var f, order := plan.turns(n), plan.order;
    var now := f(ExecAt(f, order, seed, i), order[i]);
    assert ExecAt(f, order, seed, i + 1) == now;
    if now.Running? {
      OutputsStay(f, order, seed, i + 1, |order|);
      ResumedKeeps(plan, n, seed);
    } else {
      StaysEnded(f, order, seed, i + 1);
      if now.Paused? {
        PauseIsNew(f, order, seed, |order|);
        var next := now.outputs[order[i] := plan.payload(order[i])];
        OutputsStay(plan.turns(n + 1), order, next, 0, |order|);
        ResumedKeeps(plan, n + 1, next);
      }
    }
  }

  lemma {:induction false} OutputsArePassed(f: TurnFn, order: seq<Id>, seed: map<Id, Value>, k: nat, i: nat)
    requires k <= i < |order| && Lawful(f) && Distinct(order) && order[i] !in seed
    ensures order[i] !in ExecAt(f, order, seed, k).outputs
  {
    if k > 0 {
      OutputsArePassed(f, order, seed, k - 1, i);
    }
  }

  /** The run that starts over has no output for a lost block when it gets to it. */
  lemma LostHasNone(plan: Plan, k: nat, i: nat)
    requires PausesAt(plan, k) && i < |plan.order| && AllLawful(plan) && Distinct(plan.order) && Lost(plan, k, i)
    ensures plan.order[i] !in Restarted(plan, k, i).outputs
  {
    var c := StraightAt(plan, k);
    TurnKeepsLaw(plan, c.pauses, c.exec, plan.order[k]);
    OutputsArePassed(TurnsAfter(plan, k), plan.order, SeedAfter(plan, k), i, i);
  }

  // ---- failing onto an error branch ----

  /** Which skipped sets are closed, and what each block cuts when it fails onto its error branch. */
  datatype Shape = Shape(closed: set<Id> -> bool, cut: Id -> set<Id>)

  /** A block that leaves no output has failed onto its error branch. */
  ghost predicate FailsOnto(g: Shape, s: Exec, id: Id, s': Exec) {
    s.Running? && id !in s.outputs && id !in s.skipped && s'.Running? && id !in s'.outputs ==>
      s' == Running(s.outputs, s.skipped + g.cut(id))
  }

  ghost predicate KeepsClosed(g: Shape, s: Exec, s': Exec) {
    s.Running? && s'.Running? && g.closed(s.skipped) ==> g.closed(s'.skipped)
  }

  /** The runs have the same outputs, and the first has skipped less, but for the base nothing less. */
  ghost predicate Loosely(r: Exec, s: Exec, base: set<Id>) {
    r.Running? && s.Running? && r.outputs == s.outputs && r.skipped <= s.skipped <= r.skipped + base
  }

  /** A block that neither run has skipped does the same in both. */
  ghost predicate SameTurn(r: Exec, s: Exec, r': Exec, s': Exec)
    requires s.Running?
  {
    if s'.Running? then
      r'.Running? && r'.outputs == s'.outputs && r'.skipped <= s'.skipped && s'.skipped == s.skipped + r'.skipped
    else r' == s'
  }

  ghost predicate Regular(f: TurnFn, g: Shape) {
    && (forall s: Exec, id {:trigger f(s, id)} :: FailsOnto(g, s, id, f(s, id)) && KeepsClosed(g, s, f(s, id)))
    && (forall r: Exec, s: Exec, id {:trigger f(r, id), f(s, id)} ::
          s.Running? && Loosely(r, s, s.skipped) && id !in s.skipped ==> SameTurn(r, s, f(r, id), f(s, id)))
  }

  ghost predicate AllRegular(plan: Plan, g: Shape) {
    && AllLawful(plan) && Distinct(plan.order) && g.closed({})
    && (forall n: nat {:trigger Regular(plan.turns(n), g)} :: Regular(plan.turns(n), g))
    && (forall sk, id {:trigger g.cut(id), g.closed(sk)} :: g.closed(sk) && id in sk ==> g.cut(id) <= sk)
  }

  lemma {:induction false} StraightIsClosed(plan: Plan, g: Shape, k: nat)
    requires AllRegular(plan, g) && k <= |plan.order|
    ensures
      var s := StraightAt(plan, k).exec;
      s.Running? ==> g.closed(s.skipped)
  {
    if k > 0 {
      StraightIsClosed(plan, g, k - 1);
      assert Regular(plan.turns(StraightAt(plan, k - 1).pauses), g);
    }
  }

  /** What a passed block without output would cut is skipped already: it was cut itself, or it failed before. */
  lemma {:induction false} FailedHasCut(plan: Plan, g: Shape, i: nat, k: nat)
    requires AllRegular(plan, g) && i < k <= |plan.order|
    ensures
      var s := StraightAt(plan, k).exec;
      s.Running? && plan.order[i] !in s.outputs ==> g.cut(plan.order[i]) <= s.skipped
  {
    StraightIsClosed(plan, g, k);
    var c := StraightAt(plan, k - 1);
    TurnKeepsLaw(plan, c.pauses, c.exec, plan.order[k - 1]);
    assert Regular(plan.turns(c.pauses), g);
    if i < k - 1 {
      FailedHasCut(plan, g, i, k - 1);
    }
  }

  // ---- the run that starts over keeps up ----

  /** Up to the block that paused, it passes over what is completed and fails again where a block had failed. */
  lemma {:induction false} PassesAgain(plan: Plan, g: Shape, k: nat, i: nat)
    requires AllRegular(plan, g) && PausesAt(plan, k) && NoneRevived(plan, k) && i <= k + 1
    ensures
      var r, s := Restarted(plan, k, i), StraightAt(plan, k).exec;
      r.Running? && r.outputs == SeedAfter(plan, k) && r.skipped <= s.skipped
  {
    if i > 0 {
      PassesAgain(plan, g, k, i - 1);
      TurnKeepsLaw(plan, StraightAt(plan, k).pauses + 1, Restarted(plan, k, i - 1), plan.order[i - 1]);
      if plan.order[i - 1] !in SeedAfter(plan, k) {
        FailedHasCut(plan, g, i - 1, k);
        assert Regular(TurnsAfter(plan, k), g);
        assert Lost(plan, k, i - 1) && !Revived(plan, k, i - 1);
        assert FailsOnto(g, Restarted(plan, k, i - 1), plan.order[i - 1], Again(plan, k, i - 1));
      }
    }
  }

  /** What the last pause before made the run forget; k is -1 before the first pause. */
  ghost function Forgotten(plan: Plan, k: int): set<Id>
    requires k < |plan.order| && (k >= 0 ==> StraightAt(plan, k).exec.Running?)
  {
    if k < 0 then {} else StraightAt(plan, k).exec.skipped
  }

  /** Before block j, the run that last started over after pause k has the outputs of the uninterrupted run. */
  ghost predicate KeepsUp(plan: Plan, j: nat, k: int, seed: map<Id, Value>) {
    && -1 <= k < j <= |plan.order| && (k >= 0 ==> PausesAt(plan, k))
    && var c := StraightAt(plan, j);
       && Loosely(ExecAt(plan.turns(c.pauses), plan.order, seed, j), c.exec, Forgotten(plan, k))
       && if k < 0 then seed == map[] && c.pauses == 0
          else seed == SeedAfter(plan, k) && c.pauses == StraightAt(plan, k).pauses + 1
  }

  /** A skipped block is passed over. */
  lemma SkippedIsPassed(plan: Plan, j: nat)
    requires AllLawful(plan) && j < |plan.order|
    requires
      var s := StraightAt(plan, j).exec;
      s.Running? && plan.order[j] in s.skipped
    ensures StraightAt(plan, j + 1) == StraightAt(plan, j)
  {
    var c := StraightAt(plan, j);
    TurnKeepsLaw(plan, c.pauses, c.exec, plan.order[j]);
  }

  /** A block of a cut branch that the run forgot fails again, if the run gets to it, and cuts nothing new. */
  lemma CutBlockFailsAgain(plan: Plan, g: Shape, j: nat, k: int, seed: map<Id, Value>)
    requires AllRegular(plan, g) && KeepsUp(plan, j, k, seed) && j < |plan.order| && NoneRevivedBefore(plan, j)
    requires plan.order[j] in StraightAt(plan, j).exec.skipped
    ensures KeepsUp(plan, j + 1, k, seed)
  {
    SkippedIsPassed(plan, j);
    var f, id := plan.turns(StraightAt(plan, j).pauses), plan.order[j];
    var r := ExecAt(f, plan.order, seed, j);
    PauseIsNew(f, plan.order, seed, j);
    StraightIsClosed(plan, g, j);
    if id !in r.skipped && id !in r.outputs {
      assert Regular(f, g);
      assert NoneRevived(plan, k);
      assert Lost(plan, k, j) && !Revived(plan, k, j);
      assert FailsOnto(g, r, id, f(r, id));
    } else {
      TurnKeepsLaw(plan, StraightAt(plan, j).pauses, r, id);
    }
  }

  /** A block that the uninterrupted run does not skip does the same in both. */
  lemma OtherBlockKeepsUp(plan: Plan, g: Shape, j: nat, k: int, seed: map<Id, Value>)
    requires AllRegular(plan, g) && KeepsUp(plan, j, k, seed) && j < |plan.order|
    requires plan.order[j] !in StraightAt(plan, j).exec.skipped
    ensures
      var f := plan.turns(StraightAt(plan, j).pauses);
      var r', s' := f(ExecAt(f, plan.order, seed, j), plan.order[j]), f(StraightAt(plan, j).exec, plan.order[j]);
      SameTurn(ExecAt(f, plan.order, seed, j), StraightAt(plan, j).exec, r', s')
    ensures !PausesAt(plan, j) && StraightAt(plan, j + 1).exec.Running? ==> KeepsUp(plan, j + 1, k, seed)
  {
    var f, id := plan.turns(StraightAt(plan, j).pauses), plan.order[j];
    var r, s := ExecAt(f, plan.order, seed, j), StraightAt(plan, j).exec;
    assert Regular(f, g);
    assert Loosely(r, s, s.skipped);
    assert SameTurn(r, s, f(r, id), f(s, id));
    TurnKeepsLaw(plan, StraightAt(plan, j).pauses, r, id);
  }

  /** At a pause that the resumed run has kept up to, it starts over from the outputs of the uninterrupted run. */
  lemma PauseIsShared(plan: Plan, g: Shape, j: nat, k: int, seed: map<Id, Value>)
    requires AllRegular(plan, g) && KeepsUp(plan, j, k, seed) && PausesAt(plan, j)
    ensures ResumedFrom(plan, StraightAt(plan, j).pauses, seed)
      == ResumedFrom(plan, StraightAt(plan, j).pauses + 1, SeedAfter(plan, j))
  {
    var c := StraightAt(plan, j);
    TurnKeepsLaw(plan, c.pauses, c.exec, plan.order[j]);
    OtherBlockKeepsUp(plan, g, j, k, seed);
    RestartsAt(plan, c.pauses, seed, j, ExecAt(plan.turns(c.pauses), plan.order, seed, j));
  }

  lemma RestartKeepsUp(plan: Plan, g: Shape, j: nat)
    requires AllRegular(plan, g) && PausesAt(plan, j) && NoneRevived(plan, j)
    ensures KeepsUp(plan, j + 1, j, SeedAfter(plan, j))
  {
    var c := StraightAt(plan, j);
    TurnKeepsLaw(plan, c.pauses, c.exec, plan.order[j]);
    PassesAgain(plan, g, j, j + 1);
  }

  lemma PassedBlockKeepsUp(plan: Plan, g: Shape, j: nat, k: int, seed: map<Id, Value>)
    requires AllRegular(plan, g) && KeepsUp(plan, j, k, seed) && j < |plan.order| && NoneRevivedBefore(plan, j)
    requires !PausesAt(plan, j) && StraightAt(plan, j + 1).exec.Running?
    ensures KeepsUp(plan, j + 1, k, seed) && StraightAt(plan, j + 1).pauses == StraightAt(plan, j).pauses
  {
    if plan.order[j] in StraightAt(plan, j).exec.skipped {
      CutBlockFailsAgain(plan, g, j, k, seed);
    } else {
      OtherBlockKeepsUp(plan, g, j, k, seed);
    }
  }

  /** One block on, the resumed run has kept up, starting over if the block paused. */
  lemma NextKeepsUp(plan: Plan, g: Shape, j: nat, k: int, seed: map<Id, Value>) returns (k': int, seed': map<Id, Value>)
    requires AllRegular(plan, g) && KeepsUp(plan, j, k, seed) && j < |plan.order|
    requires StraightAt(plan, j + 1).exec.Running? && NoneRevivedBefore(plan, j + 1)
    ensures KeepsUp(plan, j + 1, k', seed')
    ensures ResumedFrom(plan, StraightAt(plan, j).pauses, seed)
      == ResumedFrom(plan, StraightAt(plan, j + 1).pauses, seed')
  {
    if PausesAt(plan, j) {
      assert NoneRevived(plan, j);
      PauseIsShared(plan, g, j, k, seed);
      RestartKeepsUp(plan, g, j);
      k', seed' := j, SeedAfter(plan, j);
    } else {
      assert NoneRevivedBefore(plan, j);
      PassedBlockKeepsUp(plan, g, j, k, seed);
      k', seed' := k, seed;
    }
  }

  /** As long as no lost block is revived, the resumed run keeps up with the uninterrupted one. */
  lemma {:induction false} StaysUp(plan: Plan, g: Shape, j: nat) returns (k: int, seed: map<Id, Value>)
    requires AllRegular(plan, g) && j <= |plan.order| && StraightAt(plan, j).exec.Running? && NoneRevivedBefore(plan, j)
    ensures KeepsUp(plan, j, k, seed) && Resumed(plan) == ResumedFrom(plan, StraightAt(plan, j).pauses, seed)
  {
    if j == 0 {
      k, seed := -1, map[];
    } else {
      k, seed := StaysUp(plan, g, j - 1);
      k, seed := NextKeepsUp(plan, g, j - 1, k, seed);
    }
  }

  // ---- when the two runs end alike ----

  /** The same outputs and the same error, if any. */
  ghost predicate SameOutcome(r: Exec, s: Exec) {
    if r.Running? && s.Running? then r.outputs == s.outputs else r == s
  }

  lemma {:induction false} LastRunning(plan: Plan, k: nat) returns (j: nat)
    requires k <= |plan.order|
    ensures j <= k && StraightAt(plan, j).exec.Running? && (j < k ==> !StraightAt(plan, j + 1).exec.Running?)
  {
    if StraightAt(plan, k).exec.Running? {
      j := k;
    } else {
      j := LastRunning(plan, k - 1);
      if j < k - 1 {
        StraightStaysEnded(plan, j + 1, k);
      }
    }
  }

  /** A block that stops the uninterrupted run does the same in the resumed one. */
  lemma SameStop(plan: Plan, g: Shape, j: nat, k: int, seed: map<Id, Value>)
    requires AllRegular(plan, g) && KeepsUp(plan, j, k, seed) && j < |plan.order|
    requires !StraightAt(plan, j + 1).exec.Running?
    ensures ExecAt(plan.turns(StraightAt(plan, j).pauses), plan.order, seed, j + 1) == StraightAt(plan, j + 1).exec
  {
    var c := StraightAt(plan, j);
    var f := plan.turns(c.pauses);
    TurnKeepsLaw(plan, c.pauses, c.exec, plan.order[j]);
    OtherBlockKeepsUp(plan, g, j, k, seed);
  }

  lemma StopsAlike(plan: Plan, g: Shape, j: nat, k: int, seed: map<Id, Value>)
    requires AllRegular(plan, g) && KeepsUp(plan, j, k, seed) && j < |plan.order|
    requires !StraightAt(plan, j + 1).exec.Running?
    ensures ResumedFrom(plan, StraightAt(plan, j).pauses, seed) == StraightAt(plan, j + 1).exec == Uninterrupted(plan)
  {
    SameStop(plan, g, j, k, seed);
    EndsThere(plan, StraightAt(plan, j).pauses, seed, j + 1);
  }

  lemma EndsThere(plan: Plan, n: nat, seed: map<Id, Value>, j: nat)
    requires AllLawful(plan) && j <= |plan.order| && !StraightAt(plan, j).exec.Running?
    requires ExecAt(plan.turns(n), plan.order, seed, j) == StraightAt(plan, j).exec
    ensures ResumedFrom(plan, n, seed) == StraightAt(plan, j).exec == Uninterrupted(plan)
  {
    StraightNeverPauses(plan, j);
    StaysEnded(plan.turns(n), plan.order, seed, j);
    StraightStaysEnded(plan, j, |plan.order|);
  }

  /** When no lost block is ever revived, the resumed run ends like the uninterrupted one. */
  lemma EndsAlike(plan: Plan, g: Shape)
    requires AllRegular(plan, g) && NoneRevivedBefore(plan, |plan.order|)
    ensures SameOutcome(Resumed(plan), Uninterrupted(plan))
  {
    var j := LastRunning(plan, |plan.order|);
    var k, seed := StaysUp(plan, g, j);
    if j < |plan.order| {
      StopsAlike(plan, g, j, k, seed);
    }
  }

  /** The resumed run starts over from the outputs that the uninterrupted run has at the pause. */
  lemma StartsOver(plan: Plan, g: Shape, k: nat)
    requires AllRegular(plan, g) && NoneRevivedBefore(plan, k) && PausesAt(plan, k)
    ensures Resumed(plan) == ResumedFrom(plan, StraightAt(plan, k).pauses + 1, SeedAfter(plan, k))
  {
    var last, seed := StaysUp(plan, g, k);
    PauseIsShared(plan, g, k, last, seed);
  }

  /**
    * The first pause after which a lost block is revived: when the block returns or pauses, the resumed run ends with
    * an output for it and the uninterrupted run without; when it stops the run, the resumed run ends there.
    */
  lemma RevivedBlockShows(plan: Plan, g: Shape, k: nat, i: nat)
    requires AllRegular(plan, g) && NoneRevivedBefore(plan, k) && Revived(plan, k, i)
    ensures
      var now := Again(plan, k, i);
      if now.Stopped? then Resumed(plan) == now
      else plan.order[i] in Resumed(plan).outputs && plan.order[i] !in Uninterrupted(plan).outputs
  {
    StartsOver(plan, g, k);
    BlockRuns(plan, StraightAt(plan, k).pauses + 1, SeedAfter(plan, k), i);
    LostForGood(plan, k, i, |plan.order|);
  }

  /** The block is revived after the first pause after which one is. */
  ghost predicate FirstRevived(plan: Plan, k: nat, i: nat) {
    NoneRevivedBefore(plan, k) && Revived(plan, k, i)
  }

  lemma {:induction false} SomeFirst(plan: Plan, n: nat) returns (k: nat, i: nat)
    requires !NoneRevivedBefore(plan, n)
    ensures FirstRevived(plan, k, i)
  {
    if NoneRevivedBefore(plan, n - 1) {
      k := n - 1;
      i :| Revived(plan, k, i);
    } else {
      k, i := SomeFirst(plan, n - 1);
    }
  }

  /** If a block is revived at all, one is revived first. */
  lemma SomeRevived(plan: Plan)
    ensures (exists k, i :: Revived(plan, k, i)) <==> exists k, i :: FirstRevived(plan, k, i)
  {
    if k: nat, i: nat :| Revived(plan, k, i) {
      assert !NoneRevived(plan, k);
      var k', i' := SomeFirst(plan, k + 1);
    }
  }

  /**
    * Execute and resume ends like one uninterrupted run exactly when no lost block is revived, or each block revived
    * first stops the run as the uninterrupted run is stopped.
    */
  lemma EndsAlikeExactly(plan: Plan, g: Shape)
    requires AllRegular(plan, g)
    ensures SameOutcome(Resumed(plan), Uninterrupted(plan)) <==>
      forall k, i :: FirstRevived(plan, k, i) ==> Again(plan, k, i).Stopped? && Uninterrupted(plan) == Again(plan, k, i)
  {
    forall k, i | FirstRevived(plan, k, i) && SameOutcome(Resumed(plan), Uninterrupted(plan))
      ensures Again(plan, k, i).Stopped? && Uninterrupted(plan) == Again(plan, k, i)
    {
      RevivedBlockShows(plan, g, k, i);
    }
    if NoneRevivedBefore(plan, |plan.order|) {
      EndsAlike(plan, g);
    } else {
      var k, i := SomeFirst(plan, |plan.order|);
      RevivedBlockShows(plan, g, k, i);
    }
  }

  // ---- clean pauses ----

  /** Nothing is lost at the pause: no branch was cut, and every block passed has its output. */
  ghost predicate CleanAt(plan: Plan, k: nat) {
    PausesAt(plan, k) ==>
      var s := StraightAt(plan, k).exec;
      s.skipped == {} && forall i :: 0 <= i < k ==> plan.order[i] in s.outputs
  }

  ghost predicate CleanPauses(plan: Plan) {
    forall k {:trigger CleanAt(plan, k)} :: 0 <= k < |plan.order| ==> CleanAt(plan, k)
  }

  /** Execute and resume equals one uninterrupted run when every pause is clean. */
  lemma ResumeEqualsUninterrupted(plan: Plan, g: Shape)
    requires AllRegular(plan, g) && CleanPauses(plan)
    ensures Resumed(plan) == Uninterrupted(plan)
  {
    forall k | 0 <= k < |plan.order|
      ensures NoneRevived(plan, k)
    {
      assert CleanAt(plan, k);
    }
    var j := LastRunning(plan, |plan.order|);
    var k, seed := StaysUp(plan, g, j);
    if j < |plan.order| {
      StopsAlike(plan, g, j, k, seed);
    } else {
      assert k >= 0 ==> CleanAt(plan, k);
    }
  }
}
