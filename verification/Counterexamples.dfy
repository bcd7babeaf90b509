/** Runs from empty tables in which a lost pass, a reused name or a crash has its effect. */
module Counterexamples {
  import opened Graphs
  import opened Workflows
  import opened Retry
  import opened Store
  import opened WakeUp
  import opened StepNames
  import opened StepHistory
  import opened Replay
  import opened ReplayProofs
  import opened ReplayDeterminism
  import opened RetryBound
  import opened Scenarios

  // ---- one run in the tables ----

  const CREATION := CreateRun("r", "wf", None, Null, None, None, None)

  /** The tables with one run and these attempts. */
  function With(now: Time, r: Run, attempts: map<Id, Attempt>): Tables {
    Tables(now, map["r" := r], attempts, map[], {})
  }

  function Held(claims: nat, worker: Id, until: Time): Run {
    Run("wf", None, Null, Running, claims, None, Some(worker), Some(until), None, Some(0), None, 0, Null, Null)
  }

  const UNCLAIMED := Run("wf", None, Null, Pending, 0, None, None, Some(0), None, None, None, 0, Null, Null)

  lemma RunIsCreated(env: Env)
    ensures CanReach(env, Initial(0), Sys(With(0, UNCLAIMED, map[]), map[], {}, {}))
  {
    assert Apply(Empty(0), CREATION) == With(0, UNCLAIMED, map[]);
    OneTo(env, Initial(0), External(CREATION), Sys(With(0, UNCLAIMED, map[]), map[], {}, {}));
  }

  /** Whoever claims gets the one run that is due. */
  lemma OneRunIsFirst(now: Time, r: Run, attempts: map<Id, Attempt>)
    requires Due(r, now) && r.deadlineAt.None?
    ensures Expired(With(now, r, attempts).runs, now) == map["r" := r] && FirstDue(map["r" := r], now, "r")
  {
    assert Expire(r, now) == r;
  }

  const NEWCOMER := Pass("r", 1, None, EMPTY_LEDGER, 0, [], [], Deciding)

  const STARTED := Sys(With(0, Held(1, "v", 10), map[]), map["v" := NEWCOMER], {}, {})

  /** The run is created and claimed, and its function is about to make its first call. */
  lemma RunIsStarted(env: Env)
    ensures CanReach(env, Initial(0), STARTED)
  {
    var s1 := Sys(With(0, UNCLAIMED, map[]), map[], {}, {});
    RunIsCreated(env);
    OneRunIsFirst(0, UNCLAIMED, map[]);
    assert Lists(s1.t, "r", []);
    Starts(env, s1, "v", 10, "r", [], EMPTY_LEDGER);
    assert AfterClaim(s1.t, "v", 10, Some("r")) == STARTED.t;
    assert Moved(s1, "v", STARTED.t, NEWCOMER) == STARTED;
    Then(env, Initial(0), s1, STARTED);
  }

  // ---- a pass lost between a last failure and the run's transition ----

  const ONCE_ONLY := Policy(1000, 2.0, 100000, 1)

  /** Calls one step, which may be tried once, and lets its error out. */
  function Single(): WorkflowFn {
    (outs: seq<Outcome>) => if outs == [] then Step(FunctionStep, "a", "", Null, ONCE_ONLY, Accept) else Propagate
  }

  /** Time passes. */
  lemma Elapses(env: Env, s: Sys, ms: nat)
    ensures CanReach(env, s, s.(t := s.t.(now := s.t.now + ms)))
  {
    OneTo(env, s, External(Elapse(ms)), s.(t := s.t.(now := s.t.now + ms)));
  }

  function EnvOf(fn: WorkflowFn): Env {
    Env((run: Id) => (n: nat) => fn, (run: Id) => ONCE_ONLY)
  }

  function FailedRow(id: Id, now: Time): Attempt {
    Attempt(id, "r", "a", FunctionStep, StepFailed, NoContext, None, now, Null, Null)
  }

  lemma SingleIsCapped()
    ensures Uncaught(Single()) && Capped(Single(), n => 1)
  {
  }

  /** The first worker after its step has failed for the last time. */
  function Doomed1(): Pass {
    var l := WithFailure(WithRunning(EMPTY_LEDGER, NewAttempt(STARTED, NEWCOMER, "1", "a")), FailedRow("1", 0));
    Answer(NEWCOMER.(ledger := l, count := 1), "a", Raised(StepFailure(FailedCount(l, "a"), ONCE_ONLY, Null)))
  }

  lemma FirstFails()
    ensures CanReach(EnvOf(Single()), STARTED,
                     Sys(With(0, Held(1, "v", 10), map["1" := FailedRow("1", 0)]), map["v" := Doomed1()], {}, {}))
  {
    var env := EnvOf(Single());
    assert CallsFunction(env, STARTED, "v", "a", ONCE_ONLY);
    StepFails(env, STARTED, "v", "a", ONCE_ONLY, "1");
    assert STARTED.passes["v" := Doomed1()] == map["v" := Doomed1()];
  }

  /** It dies, and its lease runs out. */
  lemma DiesAndExpires(env: Env, p: Pass, rows: map<Id, Attempt>)
    requires !p.pc.Waking?
    ensures CanReach(env, Sys(With(0, Held(1, "v", 10), rows), map["v" := p], {}, {}),
                     Sys(With(10, Held(1, "v", 10), rows), map[], {}, {}))
  {
    var s1 := Sys(With(0, Held(1, "v", 10), rows), map["v" := p], {}, {});
    var s2 := s1.(passes := map[]);
    OneTo(env, s1, Crash("v"), s2);
    Elapses(env, s2, 10);
    Then(env, s1, s2, Sys(With(10, Held(1, "v", 10), rows), map[], {}, {}));
  }

  /** A pass lost after its step's last failure: the next worker's step fails again, beyond the limit. */
  lemma LostPassFailsAgain() returns (labels: seq<Label>)
    ensures Uncaught(Single()) && Capped(Single(), n => 1)
    ensures Runs(EnvOf(Single()), Initial(0), labels)
    ensures |Failures(After(EnvOf(Single()), Initial(0), labels).t, "r", "a")| == 2
  {
    SingleIsCapped();
    var env, rows := EnvOf(Single()), map["1" := FailedRow("1", 0)];
    RunIsStarted(env);
    FirstFails();
    DiesAndExpires(env, Doomed1(), rows);
    var s1 := Sys(With(0, Held(1, "v", 10), rows), map["v" := Doomed1()], {}, {});
    var s2 := Sys(With(10, Held(1, "v", 10), rows), map[], {}, {});
    var s3 := SecondFails(s2);
    Then(env, STARTED, s1, s2);
    Then(env, STARTED, s2, s3);
    Then(env, Initial(0), STARTED, s3);
    labels := SomeStepsLead(env, Initial(0), s3);
    TwoFailures(s3.t);
  }

  lemma TwoFailures(t: Tables)
    requires t == With(10, Held(2, "w", 20), map["1" := FailedRow("1", 0), "2" := FailedRow("2", 10)])
    ensures |Failures(t, "r", "a")| == 2
  {
    assert Failures(t, "r", "a") == {"1", "2"};
  }

  lemma SecondFails(s: Sys) returns (s': Sys)
    requires s == Sys(With(10, Held(1, "v", 10), map["1" := FailedRow("1", 0)]), map[], {}, {})
    ensures CanReach(EnvOf(Single()), s, s')
    ensures s'.t == With(10, Held(2, "w", 20), map["1" := FailedRow("1", 0), "2" := FailedRow("2", 10)])
  {
    var env, row := EnvOf(Single()), FailedRow("1", 0);
    OneRunIsFirst(10, Held(1, "v", 10), s.t.attempts);
    assert Lists(s.t, "r", [row]);
    Starts(env, s, "w", 10, "r", [row], Rebuilt([row]));
    assert [row][..0] == [];
    assert Rebuilt([row]) == Noted(Rebuilt([]), row);
    var p := Pass("r", 2, None, Rebuilt([row]), 1, [], [], Deciding);
    var s2 := Sys(With(10, Held(2, "w", 20), map["1" := row]), map["w" := p], {}, {});
    assert AfterClaim(s.t, "w", 10, Some("r")) == s2.t;
    assert CallsFunction(env, s2, "w", "a", ONCE_ONLY);
    StepFails(env, s2, "w", "a", ONCE_ONLY, "2");
    var a := NewAttempt(s2, p, "2", "a");
    var l := WithFailure(WithRunning(p.ledger, a), FailedCopy(a, Null));
    var q := Answer(p.(ledger := l, count := 2), "a", Raised(StepFailure(FailedCount(l, "a"), ONCE_ONLY, Null)));
    s' := Moved(s2, "w", WithAttempt(s2.t, FailedCopy(a, Null)), q);
    Then(env, s, s2, s');
  }

  // ---- a function that goes on after a step error and reuses the name of a sleep ----

  const SLEEP_X := Step(SleepStep, "x", "", Null, ONCE_ONLY, Accept)

  /** Calls a; after its output it calls x, and after its error it sleeps under the name x. */
  function Catcher(): WorkflowFn {
    (outs: seq<Outcome>) =>
      if outs == [] then Step(FunctionStep, "a", "", Null, ONCE_ONLY, Accept)
      else if |outs| > 1 then Finish(Null)
      else if outs[0].Raised? then SLEEP_X
      else Step(FunctionStep, "x", "", Null, ONCE_ONLY, Accept)
  }

  function DoneRow(id: Id, step: string, output: Value): Attempt {
    Attempt(id, "r", step, FunctionStep, StepCompleted, NoContext, None, 10, output, Null)
  }

  const NAP := Attempt("3", "r", "x", SleepStep, StepRunning, SleepUntil(10), None, 10, Null, Null)

  /** The first worker, whose insert of a was refused, is about to insert the sleep x. */
  const STALE :=
    Pass("r", 1, None, EMPTY_LEDGER, 0, ["a"], [Raised(Unexpected("create step attempt"))], Creating("x", SLEEP_X))

  /** The second worker has a's output, and 5 from x. */
  const OWNER :=
    Pass("r", 2, None,
         Ledger(map["a" := DoneRow("1", "a", Null), "x" := DoneRow("2", "x", Number(5))], map[], map[], map[]),
         2, ["a", "x"], [Returned(Null), Returned(Number(5))], Deciding)

  const WORKED := map["1" := DoneRow("1", "a", Null), "2" := DoneRow("2", "x", Number(5))]

  lemma StaleIsReached()
    ensures CanReach(EnvOf(Catcher()), Initial(0), Sys(With(10, Held(1, "v", 10), map[]), map["v" := STALE], {}, {}))
  {
    var env := EnvOf(Catcher());
    RunIsStarted(env);
    StaleRaises(STARTED);
    var s3 := STARTED.(passes := map["v" := STALE]);
    Then(env, Initial(0), STARTED, s3);
    Elapses(env, s3, 10);
    Then(env, Initial(0), s3, Sys(With(10, Held(1, "v", 10), map[]), map["v" := STALE], {}, {}));
  }

  lemma StaleRaises(s: Sys)
    requires s == Sys(With(0, Held(1, "v", 10), map[]), map["v" := NEWCOMER], {}, {})
    ensures CanReach(EnvOf(Catcher()), s, s.(passes := map["v" := STALE]))
  {
    var env := EnvOf(Catcher());
    ResolvesToOne({}, "a", "a", Resolved({}, "a"));
    var p1 := NEWCOMER.(pc := Creating("a", Catcher()([])));
    var p2 := Answer(NEWCOMER, "a", Raised(Unexpected("create step attempt")));
    assert TurnOf(env, s.t, "v", NEWCOMER, Pick(true)) == Turn(None, Some(p1));
    assert TurnOf(env, s.t, "v", p1, Pick(false)) == Turn(None, Some(p2));
    GoesTwice(env, s, "v", NEWCOMER, Pick(true), None, p1, Pick(false), None, p2);
    var s2 := s.(passes := map["v" := p2]);
    assert s.passes["v" := p2] == s2.passes;
    StaleCallsSleep(s2, p2);
    Then(env, s, s2, s.(passes := map["v" := STALE]));
  }

  lemma StaleCallsSleep(s: Sys, p: Pass)
    requires p == Answer(NEWCOMER, "a", Raised(Unexpected("create step attempt")))
    requires s == Sys(With(0, Held(1, "v", 10), map[]), map["v" := p], {}, {})
    ensures CanReach(EnvOf(Catcher()), s, s.(passes := map["v" := STALE]))
  {
    var env := EnvOf(Catcher());
    assert p.names == ["a"] && p.outs == [Raised(Unexpected("create step attempt"))];
    assert Elems(p.names) == {"a"};
    ResolvesToOne({"a"}, "x", "x", Resolved({"a"}, "x"));
    assert DecideTurn(env, s.t, "v", p, Pick(true)) == Turn(None, Some(STALE));
    Goes(env, s, "v", Pick(true), None, STALE);
    assert s.passes["v" := STALE] == map["v" := STALE];
  }

  /** The second worker claims the run after the first one's lease, and completes both steps. */
  lemma OwnerWorks()
    ensures CanReach(EnvOf(Catcher()), Sys(With(10, Held(1, "v", 10), map[]), map["v" := STALE], {}, {}),
                     Sys(With(10, Held(2, "w", 20), WORKED), map["v" := STALE, "w" := OWNER], {}, {}))
  {
    var env := EnvOf(Catcher());
    var s0 := Sys(With(10, Held(1, "v", 10), map[]), map["v" := STALE], {}, {});
    OneRunIsFirst(10, Held(1, "v", 10), map[]);
    Starts(env, s0, "w", 10, "r", [], EMPTY_LEDGER);
    var p1 := NEWCOMER.(claims := 2);
    var s1 := Sys(With(10, Held(2, "w", 20), map[]), map["v" := STALE, "w" := p1], {}, {});
    assert AfterClaim(s0.t, "w", 10, Some("r")) == s1.t;
    OwnerGetsA(s1, p1);
    OwnerGetsFive();
    Then(env, s0, s1, HalfWorked());
    Then(env, s0, HalfWorked(), Sys(With(10, Held(2, "w", 20), WORKED), map["v" := STALE, "w" := OWNER], {}, {}));
  }

  const HALFWAY :=
    Pass("r", 2, None, Ledger(map["a" := DoneRow("1", "a", Null)], map[], map[], map[]), 1, ["a"], [Returned(Null)],
         Deciding)

  function HalfWorked(): Sys {
    Sys(With(10, Held(2, "w", 20), map["1" := DoneRow("1", "a", Null)]), map["v" := STALE, "w" := HALFWAY], {}, {})
  }

  lemma OwnerGetsA(s: Sys, p: Pass)
    requires p == NEWCOMER.(claims := 2)
    requires s == Sys(With(10, Held(2, "w", 20), map[]), map["v" := STALE, "w" := p], {}, {})
    ensures CanReach(EnvOf(Catcher()), s, HalfWorked())
  {
    var env := EnvOf(Catcher());
    assert CallsFunction(env, s, "w", "a", ONCE_ONLY);
    StepReturns(env, s, "w", "a", ONCE_ONLY, "1", Null);
    var a := NewAttempt(s, p, "1", "a");
    assert CompletedCopy(a, Null) == DoneRow("1", "a", Null);
    assert WithCompletion(WithRunning(p.ledger, a), CompletedCopy(a, Null)) == HALFWAY.ledger;
    assert p.names + ["a"] == ["a"] && p.outs + [Returned(Null)] == [Returned(Null)];
    assert s.passes["w" := HALFWAY] == HalfWorked().passes;
  }

  lemma OwnerGetsFive()
    ensures CanReach(EnvOf(Catcher()), HalfWorked(),
                     Sys(With(10, Held(2, "w", 20), WORKED), map["v" := STALE, "w" := OWNER], {}, {}))
  {
    var env, s := EnvOf(Catcher()), HalfWorked();
    assert CallsFunction(env, s, "w", "x", ONCE_ONLY);
    StepReturns(env, s, "w", "x", ONCE_ONLY, "2", Number(5));
    var a := NewAttempt(s, HALFWAY, "2", "x");
    assert CompletedCopy(a, Number(5)) == DoneRow("2", "x", Number(5));
    assert WithCompletion(WithRunning(HALFWAY.ledger, a), CompletedCopy(a, Number(5))) == OWNER.ledger;
    assert HALFWAY.names + ["x"] == ["a", "x"];
    assert HALFWAY.outs + [Returned(Number(5))] == [Returned(Null), Returned(Number(5))];
    assert s.passes["w" := OWNER] == map["v" := STALE, "w" := OWNER];
    assert WithAttempt(s.t, CompletedCopy(a, Number(5))).attempts == WORKED;
  }

  const SEEN := Sys(With(10, Held(2, "w", 20), WORKED), map["v" := STALE, "w" := OWNER], {}, {})

  const LITTERED := WORKED["3" := NAP]

  /** The stale worker's insert is not refused: it leaves a sleep of the name x, which has elapsed at once. */
  lemma NapIsInserted() returns (p: Pass)
    ensures CanReach(EnvOf(Catcher()), SEEN,
                     Sys(With(10, Held(2, "w", 20), LITTERED), map["v" := p, "w" := OWNER], {}, {}))
  {
    var env := EnvOf(Catcher());
    var c := Pick(true).(id := "3", at := 10);
    p := CreateTurn(SEEN.t, "v", STALE, c).next.value;
    var op := CreateAttempt("3", "r", "x", SleepStep, SleepUntil(10));
    assert CreateTurn(SEEN.t, "v", STALE, c) == Turn(Some(op), Some(p));
    Goes(env, SEEN, "v", c, Some(op), p);
    assert Apply(SEEN.t, op).attempts == LITTERED;
    assert SEEN.passes["v" := p] == map["v" := p, "w" := OWNER];
  }

  const ALL3 := [DoneRow("1", "a", Null), DoneRow("2", "x", Number(5)), NAP]

  const BOTH := map["a" := DoneRow("1", "a", Null), "x" := DoneRow("2", "x", Number(5))]

  lemma AllThree()
    ensures Rebuilt(ALL3) == Ledger(BOTH, map[], map[], map["x" := NAP])
  {
    var a, x := DoneRow("1", "a", Null), DoneRow("2", "x", Number(5));
    assert ALL3[..2] == [a, x] && [a, x][..1] == [a] && [a][..0] == [];
    assert Rebuilt([a]) == Noted(Rebuilt([]), a);
    assert Rebuilt([a, x]) == Noted(Rebuilt([a]), x);
    assert Rebuilt(ALL3) == Noted(Rebuilt([a, x]), NAP);
  }

  /** The third worker after loading, and after completing the sleep. */
  const LOADED :=
    Pass("r", 3, None, Ledger(BOTH, map[], map[], map["x" := NAP]), 3, [], [], PrePass(map["x" := NAP], false))

  const BLINDED :=
    Pass("r", 3, None, Ledger(BOTH["x" := CompletedCopy(NAP, Null)], map[], map[], map[]), 3, [], [],
         PrePass(map[], false))

  lemma ThirdClaims(p: Pass)
    ensures CanReach(EnvOf(Catcher()), Sys(With(10, Held(2, "w", 20), LITTERED), map["v" := p, "w" := OWNER], {}, {}),
                     Sys(With(20, Held(3, "u", 30), LITTERED),
                         map["v" := p, "w" := OWNER, "u" := NEWCOMER.(claims := 3, pc := Loading)], {}, {}))
  {
    var env := EnvOf(Catcher());
    var s0 := Sys(With(10, Held(2, "w", 20), LITTERED), map["v" := p, "w" := OWNER], {}, {});
    Elapses(env, s0, 10);
    var s1 := s0.(t := With(20, Held(2, "w", 20), LITTERED));
    OneRunIsFirst(20, Held(2, "w", 20), LITTERED);
    Claims(env, s1, "u", 10, "r");
    assert AfterClaim(s1.t, "u", 10, Some("r")) == With(20, Held(3, "u", 30), LITTERED);
    var s2 := Sys(With(20, Held(3, "u", 30), LITTERED),
                  map["v" := p, "w" := OWNER, "u" := NEWCOMER.(claims := 3, pc := Loading)], {}, {});
    assert s1.passes["u" := NEWCOMER.(claims := 3, pc := Loading)] == s2.passes;
    Then(env, s0, s1, s2);
  }

  lemma LoadsAll3(t: Tables, p: Pass)
    requires t == With(20, Held(3, "u", 30), LITTERED) && p == NEWCOMER.(claims := 3, pc := Loading)
    ensures Lists(t, "r", ALL3)
    ensures TurnOf(EnvOf(Catcher()), t, "u", p, Pick(true).(rows := ALL3)) == Turn(None, Some(LOADED))
  {
    AllThree();
    var running := Rebuilt(ALL3).running;
    assert (map n | n in running && IsSleep(running[n]) :: running[n]) == map["x" := NAP];
  }

  lemma ThirdLoads(p: Pass)
    ensures CanReach(EnvOf(Catcher()),
                     Sys(With(20, Held(3, "u", 30), LITTERED),
                         map["v" := p, "w" := OWNER, "u" := NEWCOMER.(claims := 3, pc := Loading)], {}, {}),
                     Sys(With(20, Held(3, "u", 30), LITTERED), map["v" := p, "w" := OWNER, "u" := LOADED], {}, {}))
  {
    var s := Sys(With(20, Held(3, "u", 30), LITTERED),
                 map["v" := p, "w" := OWNER, "u" := NEWCOMER.(claims := 3, pc := Loading)], {}, {});
    LoadsAll3(s.t, s.passes["u"]);
    Goes(EnvOf(Catcher()), s, "u", Pick(true).(rows := ALL3), None, LOADED);
    assert s.passes["u" := LOADED] == map["v" := p, "w" := OWNER, "u" := LOADED];
  }

  lemma NapElapses(t: Tables)
    requires t == With(20, Held(3, "u", 30), LITTERED)
    ensures TurnOf(EnvOf(Catcher()), t, "u", LOADED, Pick(true).(step := "x"))
      == Turn(Some(CompleteAttempt("r", "u", "3", Null)), Some(BLINDED))
  {
    assert map["x" := NAP] - {"x"} == map[];
  }

  lemma NapCompletes(s: Sys)
    requires s.t == With(20, Held(3, "u", 30), LITTERED) && "u" in s.passes && s.passes["u"] == LOADED
    ensures
      var t := Apply(s.t, CompleteAttempt("r", "u", "3", Null));
      CanReach(EnvOf(Catcher()), s, Moved(s, "u", t, BLINDED)) && Owned(t, "r", "u")
  {
    NapElapses(s.t);
    Goes(EnvOf(Catcher()), s, "u", Pick(true).(step := "x"), Some(CompleteAttempt("r", "u", "3", Null)), BLINDED);
  }

  lemma ThirdCompletesNap(p: Pass) returns (t: Tables)
    ensures CanReach(EnvOf(Catcher()),
                     Sys(With(20, Held(3, "u", 30), LITTERED), map["v" := p, "w" := OWNER, "u" := LOADED], {}, {}),
                     Sys(t, map["v" := p, "w" := OWNER, "u" := BLINDED], {}, {}))
    ensures Owned(t, "r", "u")
  {
    var s := Sys(With(20, Held(3, "u", 30), LITTERED), map["v" := p, "w" := OWNER, "u" := LOADED], {}, {});
    NapCompletes(s);
    t := Apply(s.t, CompleteAttempt("r", "u", "3", Null));
    assert s.passes["u" := BLINDED] == map["v" := p, "w" := OWNER, "u" := BLINDED];
  }

  /**
    * From empty tables: one worker has seen x return 5, and later the owner of the run sees null instead. So for
    * functions that go on after a step error and reuse the name of a sleep the owner need not extend what earlier
    * passes saw.
    */
  lemma OutputIsLost() returns (first: seq<Label>, next: seq<Label>)
    ensures Moments(EnvOf(Catcher()), 0, first, next) && TwoPasses(EnvOf(Catcher()), 0, first, next, "w", "u")
    ensures
      var s := After(EnvOf(Catcher()), Initial(0), first);
      var s' := After(EnvOf(Catcher()), s, next);
      && Active(s'.passes["u"]) && Owned(s'.t, "r", "u") && s.passes["w"].run == "r"
      && "x" in s.passes["w"].ledger.cache && s.passes["w"].ledger.cache["x"].output == Number(5)
      && "x" in s'.passes["u"].ledger.cache && s'.passes["u"].ledger.cache["x"].output == Null
    ensures !SteadyRun(EnvOf(Catcher()).fns("r"))
  {
    var env := EnvOf(Catcher());
    StaleIsReached();
    OwnerWorks();
    Then(env, Initial(0), Sys(With(10, Held(1, "v", 10), map[]), map["v" := STALE], {}, {}), SEEN);
    first := SomeStepsLead(env, Initial(0), SEEN);
    var p := NapIsInserted();
    var s1 := Sys(With(10, Held(2, "w", 20), LITTERED), map["v" := p, "w" := OWNER], {}, {});
    var s2 := Sys(With(20, Held(3, "u", 30), LITTERED),
                  map["v" := p, "w" := OWNER, "u" := NEWCOMER.(claims := 3, pc := Loading)], {}, {});
    var s3 := Sys(With(20, Held(3, "u", 30), LITTERED), map["v" := p, "w" := OWNER, "u" := LOADED], {}, {});
    ThirdClaims(p);
    ThirdLoads(p);
    var t := ThirdCompletesNap(p);
    var s4 := Sys(t, map["v" := p, "w" := OWNER, "u" := BLINDED], {}, {});
    Then(env, SEEN, s1, s2);
    Then(env, SEEN, s2, s3);
    Then(env, SEEN, s3, s4);
    next := SomeStepsLead(env, SEEN, s4);
    if SteadyRun(EnvOf(Catcher()).fns("r")) {
      OwnersExtend(env, 0, first, next, "w", "u");
    }
  }

  // ---- a crash between ending a child and waking its parent ----

  const CALLS_KID := Step(WorkflowStep, "kid", "kid", Null, ONCE_ONLY, Accept)

  /** The parent runs a child workflow; the child just ends. */
  function Household(): Env {
    Env((run: Id) => (n: nat) => (outs: seq<Outcome>) => if run == "r" && outs == [] then CALLS_KID else Finish(Null),
        (run: Id) => ONCE_ONLY)
  }

  const KID_STEP := Attempt("1", "r", "kid", WorkflowStep, StepRunning, ChildUntil(Some(1000)), None, 0, Null, Null)

  const KID_LINKED := KID_STEP.(child := Some("c"))

  const KID_RUN :=
    Run("kid", Some(ChildKey("1")), Null, Pending, 0, Some("1"), None, Some(0), None, None, None, 0, Null, Null)

  const PARKED := Run("wf", None, Null, Running, 1, None, None, Some(1000), None, Some(0), None, 0, Null, Null)

  function Caller(a: Attempt, pc: Pc): Pass {
    Pass("r", 1, None, Ledger(map[], map[], map[], map["kid" := a]), 1, [], [], pc)
  }

  function Both(r: Run, c: Run, a: Attempt): Tables {
    Tables(0, map["r" := r, "c" := c], map["1" := a], map[], {})
  }

  /** The parent's step has its row but no child yet. */
  function Calling(): Sys {
    Sys(With(0, Held(1, "v", 10), map["1" := KID_STEP]),
        map["v" := Caller(KID_STEP, Linking(KID_STEP, true, "kid", Null))], {}, {})
  }

  /** The child exists but the step does not name it. */
  function Naming(): Sys {
    Sys(Both(Held(1, "v", 10), KID_RUN, KID_STEP), map["v" := Caller(KID_STEP, Binding(KID_STEP, true, "c"))], {}, {})
  }

  lemma CallsKid()
    ensures CanReach(Household(), STARTED, Calling())
  {
    ResolvesToOne({}, "kid", "kid", Resolved({}, "kid"));
    var p1 := NEWCOMER.(pc := Creating("kid", CALLS_KID));
    var p2 := Caller(KID_STEP, Linking(KID_STEP, true, "kid", Null));
    var op := CreateAttempt("1", "r", "kid", WorkflowStep, ChildUntil(Some(1000)));
    var c := Pick(true).(id := "1", at := 1000);
    assert Household().fns("r")(1)([]) == CALLS_KID;
    assert DecideTurn(Household(), STARTED.t, "v", NEWCOMER, Pick(true)) == Turn(None, Some(p1));
    assert CreateTurn(STARTED.t, "v", p1, c) == Turn(Some(op), Some(p2));
    GoesTwice(Household(), STARTED, "v", NEWCOMER, Pick(true), None, p1, c, Some(op), p2);
    assert Apply(STARTED.t, op) == Calling().t;
    assert STARTED.passes["v" := p2] == Calling().passes;
  }

  lemma CreatesKid()
    ensures CanReach(Household(), Calling(), Naming())
  {
    var s, p := Calling(), Caller(KID_STEP, Binding(KID_STEP, true, "c"));
    var c := Pick(true).(id := "c", child := "c");
    var op := CreateRun("c", "kid", Some(ChildKey("1")), Null, Some("1"), None, None);
    assert LinkTurn(s.t, s.passes["v"], c) == Turn(Some(op), Some(p));
    Goes(Household(), s, "v", c, Some(op), p);
    assert Apply(s.t, op) == Naming().t;
    assert s.passes["v" := p] == Naming().passes;
  }

  lemma NamesKid()
    ensures CanReach(Household(), Naming(), Looking())
  {
    var s, p := Naming(), Caller(KID_LINKED, Watching(KID_LINKED));
    var op := Link("r", "v", "1", "c");
    LinkApplies();
    assert s.passes["v"].ledger.running["kid" := KID_LINKED] == p.ledger.running;
    assert BindTurn(s.t, "v", s.passes["v"], Pick(true)) == Turn(Some(op), Some(p));
    Goes(Household(), s, "v", Pick(true), Some(op), p);
    assert s.passes["v" := p] == Looking().passes;
  }

  lemma LinkApplies()
    ensures Apply(Naming().t, Link("r", "v", "1", "c")) == Looking().t && OwnedAttempt(Naming().t, "r", "v", "1")
  {
  }

  /** The parent has called its child and looks at it. */
  function Looking(): Sys {
    Sys(Both(Held(1, "v", 10), KID_RUN, KID_LINKED), map["v" := Caller(KID_LINKED, Watching(KID_LINKED))], {}, {})
  }

  function Leaving(): Sys {
    Looking().(passes := map["v" := Caller(KID_LINKED, Ending(Park("r", "v", 1000)))])
  }

  lemma SeesNoAnswer()
    ensures CanReach(Household(), Looking(), Leaving())
  {
    var s, p := Looking(), Caller(KID_LINKED, Ending(Park("r", "v", 1000)));
    var waits := map["kid" := KID_LINKED];
    assert "kid" in waits && ResumeAt(waits["kid"]) == Some(1000);
    assert IsEarliest(waits, Some(1000));
    EarliestIsOne(waits, Earliest(waits), Some(1000));
    assert WatchTurn(s.t, "v", s.passes["v"]) == Turn(None, Some(p));
    Goes(Household(), s, "v", Pick(true), None, p);
    assert s.passes["v" := p] == Leaving().passes;
  }

  lemma ParksOnKid()
    ensures CanReach(Household(), Leaving(), Abandoned())
  {
    var s := Leaving();
    ParkApplies();
    assert EndTurn(Household(), s.t, "v", s.passes["v"], Pick(true)) == Turn(Some(Park("r", "v", 1000)), None);
    assert s.passes - {"v"} == map[];
    OneTo(Household(), s, Go("v", Pick(true)), Abandoned());
  }

  lemma ParkApplies()
    ensures Apply(Leaving().t, Park("r", "v", 1000)) == Abandoned().t && Owned(Leaving().t, "r", "v")
  {
  }

  /** The parent waits for its child. */
  function Abandoned(): Sys {
    Sys(Both(PARKED, KID_RUN, KID_LINKED), map[], {}, {})
  }

  const KID_HELD :=
    KID_RUN.(status := Running, attempts := 1, worker := Some("w"), availableAt := Some(10), startedAt := Some(0))

  const KID_DONE := KID_HELD.(status := Completed, availableAt := None, finishedAt := Some(0))

  function Kid(pc: Pc): Pass {
    Pass("c", 1, None, EMPTY_LEDGER, 0, [], [], pc)
  }

  function Working(): Sys {
    Sys(Both(PARKED, KID_HELD, KID_LINKED), map["w" := Kid(Deciding)], {}, {})
  }

  function Owing(): Sys {
    Sys(Both(PARKED, KID_DONE, KID_LINKED).(owed := {"c"}), map["w" := Kid(Waking)], {}, {})
  }

  lemma KidIsDue()
    ensures Lists(Abandoned().t, "c", []) && FirstDue(Expired(Abandoned().t.runs, 0), 0, "c")
    ensures AfterClaim(Abandoned().t, "w", 10, Some("c")) == Working().t
  {
    assert Expired(Abandoned().t.runs, 0) == Abandoned().t.runs;
  }

  lemma KidStarts()
    ensures CanReach(Household(), Abandoned(), Working())
  {
    var s := Abandoned();
    KidIsDue();
    Starts(Household(), s, "w", 10, "c", [], EMPTY_LEDGER);
    assert s.passes["w" := Kid(Deciding)] == Working().passes;
  }

  lemma KidEnds()
    ensures CanReach(Household(), Working(), Owing())
  {
    var s, op := Working(), Complete("c", "w", Null);
    assert DecideTurn(Household(), s.t, "w", Kid(Deciding), Pick(true)) == Turn(None, Some(Kid(Ending(op))));
    assert Apply(s.t, op) == Owing().t;
    assert EndTurn(Household(), s.t, "w", Kid(Ending(op)), Pick(true)) == Turn(Some(op), Some(Kid(Waking)));
    GoesTwice(Household(), s, "w", Kid(Deciding), Pick(true), None, Kid(Ending(op)), Pick(true), Some(op), Kid(Waking));
    assert s.passes["w" := Kid(Waking)] == Owing().passes;
  }

  lemma KidWorkerDies() returns (s': Sys)
    ensures CanReach(Household(), Owing(), s')
    ensures s' == Sys(Both(PARKED, KID_DONE, KID_LINKED), map[], {}, {"c"})
    ensures "1" in s'.t.attempts && Waiting(s'.t, "1") && !NoLostWake(s'.t, {})
  {
    s' := Sys(Both(PARKED, KID_DONE, KID_LINKED), map[], {}, {"c"});
    assert {"c"} - {"c"} == {};
    OneTo(Household(), Owing(), Crash("w"), s');
    assert "1" in s'.t.attempts && Waiting(s'.t, "1") && !Answered(s'.t, "1", {});
  }

  /**
    * From empty tables: the worker of a child dies after completing it and before waking its parent. The parent stays
    * parked until its wait times out, although its child is done and nobody is left to wake it.
    */
  lemma WakeIsLost() returns (labels: seq<Label>)
    ensures Runs(Household(), Initial(0), labels)
    ensures
      var s := After(Household(), Initial(0), labels);
      && s.passes == map[] && s.cancellers == {} && s.lost == {"c"} && !NoLostWake(s.t, {})
      && "1" in s.t.attempts && Waiting(s.t, "1") && "r" in s.t.runs && s.t.runs["r"].availableAt == Some(1000)
      && s.t.now == 0
  {
    var f := Household();
    var s := KidWorkerDies();
    RunIsStarted(f);
    CallsKid();
    CreatesKid();
    NamesKid();
    SeesNoAnswer();
    ParksOnKid();
    KidStarts();
    KidEnds();
    Then(f, Initial(0), STARTED, Calling());
    Then(f, Initial(0), Calling(), Naming());
    Then(f, Initial(0), Naming(), Looking());
    Then(f, Initial(0), Looking(), Leaving());
    Then(f, Initial(0), Leaving(), Abandoned());
    Then(f, Initial(0), Abandoned(), Working());
    Then(f, Initial(0), Working(), Owing());
    Then(f, Initial(0), Owing(), s);
    labels := SomeStepsLead(f, Initial(0), s);
  }
}
