/** When a pass parks its run: at the end of the wait of its history that ends first, no later and no earlier. */
module Parking {
  import opened Graphs
  import opened Workflows
  import opened Store
  import opened StepHistory
  import opened LedgerProofs
  import opened Replay
  import opened ReplayProofs
  import opened ReplaySafety
  import opened StepResults

  /** When a running wait ends by itself: as its context says, or after a year. */
  function EndsBy(a: Attempt): Option<Time> {
    if a.status != StepRunning then None
    else
      match a.kind
      case SleepStep => if a.context.SleepUntil? then Some(a.context.resumeAt) else None
      case WorkflowStep => Some(LimitOf(a))
      case SignalWait => Some(LimitOf(a))
      case _ => None
  }

  function LimitOf(a: Attempt): Time {
    match a.context
    case ChildUntil(Some(at)) => at
    case SignalUntil(_, at) => at
    case _ => a.createdAt + 365 * 24 * 60 * 60 * 1000
  }

  /** A pass that is about to park its run does so until the first of its running waits ends. */
  ghost predicate ParksAtFirst(p: Pass) {
    p.pc.Ending? && p.pc.op.Park? ==>
      && (exists n :: n in p.ledger.running && EndsBy(p.ledger.running[n]) == Some(p.pc.op.at))
      && (forall n :: n in p.ledger.running && EndsBy(p.ledger.running[n]).Some? ==>
            p.pc.op.at <= EndsBy(p.ledger.running[n]).value)
  }

  /** The attempt that a pass waits for is among the running ones, which are all running. */
  ghost predicate HandRuns(p: Pass) {
    && (forall n :: n in p.ledger.running ==> p.ledger.running[n].status == StepRunning)
    && (p.pc.Linking? || p.pc.Binding? || p.pc.Watching? || p.pc.Receiving? ==>
          p.pc.a.step in p.ledger.running && p.ledger.running[p.pc.a.step] == p.pc.a)
  }

  ghost predicate ParksWell(p: Pass) {
    ParksAtFirst(p) && HandRuns(p)
  }

  lemma EndsByMeans(a: Attempt)
    ensures ResumeAt(a) == EndsBy(a)
  {
  }

  lemma AllEndBy(running: map<string, Attempt>)
    ensures forall n :: n in running ==> ResumeAt(running[n]) == EndsBy(running[n])
  {
    forall n | n in running
      ensures ResumeAt(running[n]) == EndsBy(running[n])
    {
      EndsByMeans(running[n]);
    }
  }

  /** Waiting for an attempt that is among the running ones: the first end is no later than its own. */
  lemma ParkingAtFirst(w: Id, p: Pass, n: string, fallback: Time)
    requires n in p.ledger.running && ResumeAt(p.ledger.running[n]) == Some(fallback) && HandRuns(p)
    ensures ParksWell(p.(pc := Replay.Parking(w, p, fallback)))
  {
    AllEndBy(p.ledger.running);
    var first := Earliest(p.ledger.running);
    assert IsEarliest(p.ledger.running, first);
    assert ParkUntil(p.ledger.running, fallback) == first.value;
  }

  lemma LoadParksWell(t: Tables, w: Id, p: Pass, c: Choice)
    requires p.pc.Loading? && HandRuns(p) && Lists(t, p.run, c.rows)
    ensures ParksWell(LoadTurn(w, p, c).next.value)
  {
    var running := Rebuilt(c.rows).running;
    forall n | n in running
      ensures running[n].status == StepRunning
    {
      var i := RunningEntry(c.rows, n);
    }
  }

  lemma PrePassParksWell(env: Env, t: Tables, w: Id, p: Pass, c: Choice)
    requires p.pc.PrePass? && HandRuns(p)
    ensures ParksWell(PrePassTurn(env, t, w, p, c).next.value)
  {
    AllEndBy(p.ledger.running);
    assert IsEarliest(p.ledger.running, Earliest(p.ledger.running));
  }

  lemma CallParksWell(p: Pass, step: string, action: Action, c: Choice)
    requires HandRuns(p) && action.Step? && (step in p.ledger.running ==> p.ledger.running[step].step == step)
    ensures ParksWell(CallTurn(p, step, action, c).next.value)
  {
  }

  lemma DecideParksWell(env: Env, t: Tables, w: Id, p: Pass, c: Choice)
    requires HandRuns(p) && p.pc.Deciding? && RunningFrom(t, p.run, p.ledger.running)
    ensures ParksWell(DecideTurn(env, t, w, p, c).next.value)
  {
    var action := FnOf(env, p)(p.outs);
    if action.Step? {
      CallParksWell(p, StepNames.Resolved(Elems(p.names), action.base), action, c);
    }
  }

  lemma CreateParksWell(t: Tables, w: Id, p: Pass, c: Choice)
    requires HandRuns(p) && p.pc.Creating?
    ensures ParksWell(CreateTurn(t, w, p, c).next.value)
  {
    var action := p.pc.action;
    if p.count < Replay.STEP_LIMIT && c.ok && action.Step? && action.kind == SleepStep {
      var a := Attempt(c.id, p.run, p.pc.step, SleepStep, StepRunning, SleepUntil(c.at), None, t.now, Null, Null);
      var p' := p.(ledger := WithRunning(p.ledger, a), count := p.count + 1);
      assert HandRuns(p'.(pc := Deciding));
      ParkingAtFirst(w, p'.(pc := Deciding), a.step, c.at);
    }
  }

  lemma LinkParksWell(t: Tables, w: Id, p: Pass, c: Choice)
    requires HandRuns(p) && (p.pc.Linking? || p.pc.Binding?)
    ensures ParksWell(if p.pc.Linking? then LinkTurn(t, p, c).next.value else BindTurn(t, w, p, c).next.value)
  {
  }

  lemma WatchParksWell(t: Tables, w: Id, p: Pass)
    requires HandRuns(p) && p.pc.Watching? && KindFits(p)
    ensures ParksWell(WatchTurn(t, w, p).next.value)
  {
    ParkingAtFirst(w, p, p.pc.a.step, TimeoutAt(p.pc.a).GetOr(p.pc.a.createdAt + DEFAULT_WAIT));
  }

  lemma ReceiveParksWell(t: Tables, w: Id, p: Pass)
    requires HandRuns(p) && p.pc.Receiving? && KindFits(p)
    ensures ParksWell(ReceiveTurn(t, w, p).next.value)
  {
    ParkingAtFirst(w, p, p.pc.a.step, TimeoutAt(p.pc.a).GetOr(p.pc.a.createdAt + DEFAULT_WAIT));
  }

  lemma CloseParksWell(t: Tables, w: Id, p: Pass, c: Choice)
    requires HandRuns(p) && (p.pc.Completing? || p.pc.Failing?)
    ensures ParksWell(if p.pc.Completing? then CompleteTurn(t, w, p, c).next.value
                      else FailTurn(t, w, p, c).next.value)
  {
  }

  lemma EndParksWell(env: Env, t: Tables, w: Id, p: Pass, c: Choice)
    requires HandRuns(p) && ParksAtFirst(p) && p.pc.Ending? && EndTurn(env, t, w, p, c).next.Some?
    ensures ParksWell(EndTurn(env, t, w, p, c).next.value)
  {
  }

  lemma RunParksWell(p: Pass, c: Choice)
    requires HandRuns(p) && (p.pc.Executing? || p.pc.Sending?)
    ensures ParksWell(if p.pc.Executing? then ExecuteTurn(p, c).next.value else SendTurn(p, c).next.value)
  {
  }

  lemma TurnParksWell(env: Env, t: Tables, w: Id, p: Pass, c: Choice)
    requires ParksWell(p) && PassOk(t, w, p) && KindFits(p) && Possible(t, p, c) && TurnOf(env, t, w, p, c).next.Some?
    ensures ParksWell(TurnOf(env, t, w, p, c).next.value)
  {
    match p.pc
    case Loading => LoadParksWell(t, w, p, c);
    case PrePass(_, _) => PrePassParksWell(env, t, w, p, c);
    case Deciding => DecideParksWell(env, t, w, p, c);
    case Creating(_, _) => CreateParksWell(t, w, p, c);
    case Linking(_, _, _, _) => LinkParksWell(t, w, p, c);
    case Binding(_, _, _) => LinkParksWell(t, w, p, c);
    case Watching(_) => WatchParksWell(t, w, p);
    case Receiving(_, _) => ReceiveParksWell(t, w, p);
    case Executing(_, _) => RunParksWell(p, c);
    case Sending(_, _, _) => RunParksWell(p, c);
    case Completing(_, _, _) => CloseParksWell(t, w, p, c);
    case Failing(_, _, _) => CloseParksWell(t, w, p, c);
    case Ending(_) => EndParksWell(env, t, w, p, c);
    case Waking =>
  }

  ghost predicate AllParkWell(s: Sys) {
    forall w :: w in s.passes ==> ParksWell(s.passes[w])
  }

  lemma StepParksWell(env: Env, s: Sys, l: Label)
    requires Safe(s) && AllReady(env, s) && AllParkWell(s) && Enabled(s, l)
    ensures AllParkWell(Effect(env, s, l))
  {
    var s' := Effect(env, s, l);
    forall w | w in s'.passes
      ensures ParksWell(s'.passes[w])
    {
      if !Acts(l, w) {
        OthersUnmoved(env, s, l, w);
      } else if l.Go? {
        assert PassReady(env, s.t, w, s.passes[w]);
        TurnParksWell(env, s.t, w, s.passes[w], l.c);
      }
    }
  }

  lemma {:induction false} StayParkingWell(env: Env, s: Sys, labels: seq<Label>)
    requires Safe(s) && AllReady(env, s) && AllParkWell(s) && Runs(env, s, labels)
    ensures AllParkWell(After(env, s, labels))
    decreases |labels|
  {
    if labels != [] {
      StepKeepsSafe(env, s, labels[0]);
      StepKeepsReady(env, s, labels[0]);
      StepParksWell(env, s, labels[0]);
      StayParkingWell(env, Effect(env, s, labels[0]), labels[1..]);
    }
  }

  /** In every state that workers can reach, each pass that is about to park parks until its first wait ends. */
  lemma ParksUntilFirstWait(env: Env, now: Time, labels: seq<Label>)
    requires Runs(env, Initial(now), labels)
    ensures AllParkWell(After(env, Initial(now), labels))
  {
    NothingRunsYet(now);
    StayParkingWell(env, Initial(now), labels);
  }
}
