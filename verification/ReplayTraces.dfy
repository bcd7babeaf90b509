/**
  * The sequence of outcomes a workflow function sees: for a function that lets step errors end it,
  * all passes over a run see one sequence, each as far as it gets.
  */
module ReplayTraces {
  import opened Graphs
  import opened Workflows
  import opened Store
  import opened StepNames
  import opened Replay
  import opened ReplayProofs

  // ---- names along a sequence of outcomes ----

  ghost function BaseOf(a: Action): string {
    if a.Step? then a.base else ""
  }

  /** The name of the step that the function calls after these outcomes. */
  ghost function NextName(fn: WorkflowFn, outs: seq<Outcome>): string {
    Resolved(Elems(NamesAlong(fn, outs)), BaseOf(fn(outs)))
  }

  /** The names of the steps that gave these outcomes. */
  ghost function NamesAlong(fn: WorkflowFn, outs: seq<Outcome>): (names: seq<string>)
    ensures |names| == |outs|
  {
    if outs == [] then []
    else
      var before := outs[..|outs| - 1];
      NamesAlong(fn, before) + [Resolved(Elems(NamesAlong(fn, before)), BaseOf(fn(before)))]
  }

  lemma {:induction false} NameAt(fn: WorkflowFn, outs: seq<Outcome>, k: nat)
    requires k < |outs|
    ensures NamesAlong(fn, outs)[k] == NextName(fn, outs[..k]) && NamesAlong(fn, outs)[..k] == NamesAlong(fn, outs[..k])
  {
    var before := outs[..|outs| - 1];
    if k < |before| {
      NameAt(fn, before, k);
      assert before[..k] == outs[..k];
      assert NamesAlong(fn, outs)[..k] == NamesAlong(fn, before)[..k];
    } else {
      assert NamesAlong(fn, outs)[..k] == NamesAlong(fn, before);
    }
  }

  /** The base names that the function called with. */
  ghost function BasesAlong(fn: WorkflowFn, outs: seq<Outcome>): seq<string> {
    seq(|outs|, k requires 0 <= k < |outs| => BaseOf(fn(outs[..k])))
  }

  /** The runtime resolves the names in the order of the calls. */
  lemma {:induction false} NamesAlongResolve(fn: WorkflowFn, outs: seq<Outcome>)
    ensures NamesAlong(fn, outs) == NamesOf(BasesAlong(fn, outs))
  {
    if outs != [] {
      var n := |outs| - 1;
      NamesAlongResolve(fn, outs[..n]);
      forall k | 0 <= k < n
        ensures outs[..n][..k] == outs[..k]
      {
      }
      assert BasesAlong(fn, outs)[..n] == BasesAlong(fn, outs[..n]);
    }
  }

  // ---- a pass follows its function ----

  /** A returned outcome is the cached output of its step. */
  ghost predicate FromCache(cache: map<string, Attempt>, names: seq<string>, outs: seq<Outcome>)
    requires |names| == |outs|
  {
    forall k :: 0 <= k < |outs| && outs[k].Returned? ==> names[k] in cache && cache[names[k]].output == outs[k].value
  }

  /** Every outcome answered a step call. */
  ghost predicate Calls(fn: WorkflowFn, outs: seq<Outcome>) {
    forall k :: 0 <= k < |outs| ==> fn(outs[..k]).Step?
  }

  function CurrentStep(p: Pass): Option<string> {
    match p.pc
    case Creating(step, _) => Some(step)
    case Executing(a, _) => Some(a.step)
    case Linking(a, _, _, _) => Some(a.step)
    case Binding(a, _, _) => Some(a.step)
    case Watching(a) => Some(a.step)
    case Sending(a, _, _) => Some(a.step)
    case Receiving(a, _) => Some(a.step)
    case Completing(a, _, _) => Some(a.step)
    case Failing(a, _, _) => Some(a.step)
    case _ => None
  }

  /**
    * What the pass keeps of the call in progress is what the function called with; what it completes the run with is
    * what it returned.
    */
  ghost predicate Carries(p: Pass, action: Action) {
    && (p.pc.Creating? ==> p.pc.action == action)
    && (p.pc.Linking? ==>
          action.Step? && action.kind == WorkflowStep && p.pc.target == action.target && p.pc.data == action.data)
    && (p.pc.Receiving? ==> action.Step? && action.kind == SignalWait && p.pc.schema == action.schema)
    && (p.pc.Sending? ==>
          action.Step? && action.kind == SignalSend && p.pc.target == action.target && p.pc.data == action.data)
    && (p.pc.Ending? && p.pc.op.Complete? ==> action.Finish? && p.pc.op.output == Normalized(action.output))
  }

  ghost predicate Follows(fn: WorkflowFn, p: Pass) {
    && p.names == NamesAlong(fn, p.outs) && Calls(fn, p.outs) && FromCache(p.ledger.cache, p.names, p.outs)
    && (p.pc.Loading? || p.pc.PrePass? ==> p.outs == [])
    && (CurrentStep(p).Some? ==> fn(p.outs).Step? && CurrentStep(p).value == NextName(fn, p.outs))
    && Carries(p, fn(p.outs))
  }

  /** The current step call is answered, and the cache keeps what it had. */
  lemma AnswerFollows(fn: WorkflowFn, p: Pass, p': Pass, step: string, out: Outcome)
    requires Follows(fn, p) && fn(p.outs).Step? && step == NextName(fn, p.outs)
    requires p'.names == p.names + [step] && p'.outs == p.outs + [out] && p'.pc.Deciding?
    requires forall n ::
      n in p.ledger.cache ==> n in p'.ledger.cache && p'.ledger.cache[n].output == p.ledger.cache[n].output
    requires out.Returned? ==> step in p'.ledger.cache && p'.ledger.cache[step].output == out.value
    ensures Follows(fn, p')
  {
    assert p'.outs[..|p.outs|] == p.outs;
    forall k | 0 <= k < |p'.outs|
      ensures fn(p'.outs[..k]).Step?
    {
      if k < |p.outs| {
        assert p'.outs[..k] == p.outs[..k];
      }
    }
  }

  /** A turn inside a step, or before the function runs, answers nothing. */
  lemma SilentFollows(fn: WorkflowFn, p: Pass, p': Pass)
    requires Follows(fn, p) && p'.names == p.names && p'.outs == p.outs
    requires p'.ledger.cache == p.ledger.cache || p.outs == []
    requires p'.pc.Loading? || p'.pc.PrePass? ==> p.outs == []
    requires CurrentStep(p').Some? ==> fn(p.outs).Step? && CurrentStep(p').value == NextName(fn, p.outs)
    requires Carries(p', fn(p.outs))
    ensures Follows(fn, p')
  {
  }

  /** The turn either leaves the step call open or answers it. */
  ghost predicate OpensOrAnswers(fn: WorkflowFn, p: Pass, p': Pass) {
    || (p'.names == p.names && p'.outs == p.outs && (p'.ledger.cache == p.ledger.cache || p.outs == [])
        && (p'.pc.Loading? || p'.pc.PrePass? ==> p.outs == [])
        && (CurrentStep(p').Some? ==> fn(p.outs).Step? && CurrentStep(p').value == NextName(fn, p.outs))
        && Carries(p', fn(p.outs)))
    || (fn(p.outs).Step? && p'.pc.Deciding? && |p'.outs| == |p.outs| + 1
        && p'.names == p.names + [NextName(fn, p.outs)] && p'.outs == p.outs + [p'.outs[|p.outs|]]
        && (forall n ::
              n in p.ledger.cache ==> n in p'.ledger.cache && p'.ledger.cache[n].output == p.ledger.cache[n].output)
        && (p'.outs[|p.outs|].Returned? ==>
              && NextName(fn, p.outs) in p'.ledger.cache
              && p'.ledger.cache[NextName(fn, p.outs)].output == p'.outs[|p.outs|].value))
  }

  lemma OpensOrAnswersFollows(fn: WorkflowFn, p: Pass, p': Pass)
    requires Follows(fn, p) && OpensOrAnswers(fn, p, p')
    ensures Follows(fn, p')
  {
    if |p'.outs| == |p.outs| + 1 {
      AnswerFollows(fn, p, p', NextName(fn, p.outs), p'.outs[|p.outs|]);
    } else {
      SilentFollows(fn, p, p');
    }
  }

  lemma LoadFollows(fn: WorkflowFn, w: Id, p: Pass, c: Choice)
    requires Follows(fn, p) && p.pc.Loading?
    ensures OpensOrAnswers(fn, p, LoadTurn(w, p, c).next.value)
  {
  }

  lemma PrePassFollows(env: Env, fn: WorkflowFn, t: Tables, w: Id, p: Pass, c: Choice)
    requires Follows(fn, p) && p.pc.PrePass?
    ensures OpensOrAnswers(fn, p, PrePassTurn(env, t, w, p, c).next.value)
  {
  }

  /** A call is answered from the cache or by an error, or it opens its own step. */
  ghost predicate CallShape(p: Pass, step: string, action: Action, p': Pass) {
    || (p' == p.(pc := p'.pc) && CurrentStep(p') == Some(step) && Carries(p', action))
    || (|p'.outs| == |p.outs| + 1 && p' == Answer(p, step, p'.outs[|p.outs|])
        && (p'.outs[|p.outs|].Returned? ==>
              step in p.ledger.cache && p.ledger.cache[step].output == p'.outs[|p.outs|].value))
  }

  lemma CallHasShape(p: Pass, step: string, action: Action, c: Choice)
    requires action.Step? && (step in p.ledger.running ==> p.ledger.running[step].step == step)
    ensures CallShape(p, step, action, CallTurn(p, step, action, c).next.value)
  {
  }

  lemma CallFollows(fn: WorkflowFn, p: Pass, p': Pass)
    requires fn(p.outs).Step? && CallShape(p, NextName(fn, p.outs), fn(p.outs), p')
    ensures OpensOrAnswers(fn, p, p')
  {
  }

  lemma DecideFollows(env: Env, t: Tables, w: Id, p: Pass, c: Choice)
    requires Follows(FnOf(env, p), p) && p.pc.Deciding? && PassOk(t, w, p)
    ensures OpensOrAnswers(FnOf(env, p), p, DecideTurn(env, t, w, p, c).next.value)
  {
    if FnOf(env, p)(p.outs).Step? {
      CallHasShape(p, NextName(FnOf(env, p), p.outs), FnOf(env, p)(p.outs), c);
      CallFollows(FnOf(env, p), p, DecideTurn(env, t, w, p, c).next.value);
    }
  }

  lemma CreateFollows(fn: WorkflowFn, t: Tables, w: Id, p: Pass, c: Choice)
    requires Follows(fn, p) && p.pc.Creating?
    ensures OpensOrAnswers(fn, p, CreateTurn(t, w, p, c).next.value)
  {
  }

  lemma LinkFollows(fn: WorkflowFn, t: Tables, w: Id, p: Pass, c: Choice)
    requires Follows(fn, p) && (p.pc.Linking? || p.pc.Binding?)
    ensures OpensOrAnswers(fn, p, if p.pc.Linking? then LinkTurn(t, p, c).next.value
                                  else BindTurn(t, w, p, c).next.value)
  {
  }

  lemma WatchFollows(fn: WorkflowFn, t: Tables, w: Id, p: Pass)
    requires Follows(fn, p) && p.pc.Watching?
    ensures OpensOrAnswers(fn, p, WatchTurn(t, w, p).next.value)
  {
  }

  lemma ReceiveFollows(fn: WorkflowFn, t: Tables, w: Id, p: Pass)
    requires Follows(fn, p) && p.pc.Receiving?
    ensures OpensOrAnswers(fn, p, ReceiveTurn(t, w, p).next.value)
  {
  }

  lemma CompleteFollows(fn: WorkflowFn, t: Tables, w: Id, p: Pass, c: Choice)
    requires Follows(fn, p) && p.pc.Completing? && p.pc.a.step !in p.ledger.cache
    ensures OpensOrAnswers(fn, p, CompleteTurn(t, w, p, c).next.value)
  {
  }

  lemma FailFollows(fn: WorkflowFn, t: Tables, w: Id, p: Pass, c: Choice)
    requires Follows(fn, p) && p.pc.Failing?
    ensures OpensOrAnswers(fn, p, FailTurn(t, w, p, c).next.value)
  {
  }

  lemma ExecuteFollows(fn: WorkflowFn, p: Pass, c: Choice)
    requires Follows(fn, p) && p.pc.Executing?
    ensures OpensOrAnswers(fn, p, ExecuteTurn(p, c).next.value)
  {
  }

  lemma SendFollows(fn: WorkflowFn, p: Pass, c: Choice)
    requires Follows(fn, p) && p.pc.Sending?
    ensures OpensOrAnswers(fn, p, SendTurn(p, c).next.value)
  {
  }

  lemma EndFollows(env: Env, t: Tables, w: Id, p: Pass, c: Choice)
    requires Follows(FnOf(env, p), p) && p.pc.Ending? && EndTurn(env, t, w, p, c).next.Some?
    ensures OpensOrAnswers(FnOf(env, p), p, EndTurn(env, t, w, p, c).next.value)
  {
  }

  lemma TurnFollows(env: Env, t: Tables, w: Id, p: Pass, c: Choice)
    requires Follows(FnOf(env, p), p) && PassOk(t, w, p) && TurnOf(env, t, w, p, c).next.Some?
    ensures Follows(FnOf(env, p), TurnOf(env, t, w, p, c).next.value)
  {
    var fn := FnOf(env, p);
    match p.pc {
      case Loading => LoadFollows(fn, w, p, c);
      case PrePass(_, _) => PrePassFollows(env, fn, t, w, p, c);
      case Deciding => DecideFollows(env, t, w, p, c);
      case Creating(_, _) => CreateFollows(fn, t, w, p, c);
      case Linking(_, _, _, _) => LinkFollows(fn, t, w, p, c);
      case Binding(_, _, _) => LinkFollows(fn, t, w, p, c);
      case Executing(_, _) => ExecuteFollows(fn, p, c);
      case Watching(_) => WatchFollows(fn, t, w, p);
      case Sending(_, _, _) => SendFollows(fn, p, c);
      case Receiving(_, _) => ReceiveFollows(fn, t, w, p);
      case Completing(_, _, _) => CompleteFollows(fn, t, w, p, c);
      case Failing(_, _, _) => FailFollows(fn, t, w, p, c);
      case Ending(_) => EndFollows(env, t, w, p, c);
      case Waking =>
    }
    OpensOrAnswersFollows(fn, p, TurnOf(env, t, w, p, c).next.value);
  }
}
