/** Cron schedules: claims of a cutoff minute and dispatchers that race (runner/cron.ts, store/schedules.ts). */
module Schedules {
  import opened Workflows
  import opened Retry

  /** The cutoff at :00 seconds: the whole minute that the time falls in. */
  function Truncated(t: Time): (minute: Time)
    ensures minute % 60000 == 0 && minute <= t < minute + 60000
  {
    t - t % 60000
  }

  /** The parts of a UTC time that a cron expression looks at. */
  datatype Moment = Moment(minute: int, hour: int, day: int, month: int, weekday: int)

  datatype Cron = Cron(minutes: set<int>, hours: set<int>, days: set<int>, months: set<int>, weekdays: set<int>)

  predicate IsCronMatch(c: Cron, m: Moment) {
    m.minute in c.minutes && m.hour in c.hours && m.day in c.days && m.month in c.months && m.weekday in c.weekdays
  }

  /** cron is None when the expression cannot be parsed. */
  datatype Schedule = Schedule(id: string, endAt: Option<Time>, cron: Option<Cron>)

  /** For each stored schedule, the cutoff it last fired for. */
  type Rows = map<string, Option<Time>>

  predicate Claimable(rows: Rows, id: string, cutoff: Time) {
    id in rows && (rows[id].Some? ==> rows[id].value < cutoff)
  }

  datatype Verdict = Expired | NotMatching | Due

  /** A cutoff minute and its parts. */
  datatype Cutoff = Cutoff(at: Time, moment: Moment)

  /** The schedule has not ended before the cutoff, can be parsed, and names each part of the cutoff. */
  predicate FiresAt(schedule: Schedule, cutoff: Cutoff) {
    && !EndedBefore(schedule, cutoff.at) && schedule.cron.Some?
    && var cron, at := schedule.cron.value, cutoff.moment;
       && at.minute in cron.minutes && at.hour in cron.hours && at.day in cron.days && at.month in cron.months
       && at.weekday in cron.weekdays
  }

  predicate EndedBefore(schedule: Schedule, at: Time) {
    match schedule.endAt
    case Some(end) => end < at
    case None => false
  }

  function Judged(schedule: Schedule, cutoff: Cutoff): (v: Verdict)
    ensures v.Due? <==> FiresAt(schedule, cutoff)
    ensures v.Expired? <==> EndedBefore(schedule, cutoff.at)
  {
    if schedule.endAt.Some? && schedule.endAt.value < cutoff.at then Expired
    else if schedule.cron.Some? && IsCronMatch(schedule.cron.value, cutoff.moment) then Due
    else NotMatching
  }

  /** The rows after one schedule of a tick. */
  function RowsWith(rows: Rows, schedule: Schedule, cutoff: Cutoff): Rows {
    if Judged(schedule, cutoff).Due? && Claimable(rows, schedule.id, cutoff.at) then
      rows[schedule.id := Some(cutoff.at)]
    else rows
  }

  function RowsAfter(rows: Rows, schedules: seq<Schedule>, cutoff: Cutoff): Rows {
    if schedules == [] then rows
    else RowsWith(RowsAfter(rows, schedules[..|schedules| - 1], cutoff), schedules[|schedules| - 1], cutoff)
  }

  datatype Counts = Counts(fired: nat, failed: nat, already: nat, notMatching: nat, expired: nat)

  /** The counts of n schedules. */
  predicate Count(c: Counts, n: int) {
    c.fired + c.failed + c.already + c.notMatching + c.expired == n
  }

  // ---- one dispatcher by itself ----

  class ScheduleTable {
    var rows: Rows

    constructor (rows: Rows)
      ensures this.rows == rows
    {
      this.rows := rows;
    }

    /** Wins when the row exists and has not fired for this cutoff or a later one. */
    method TryClaim(id: string, cutoff: Time) returns (won: bool)
      modifies this
      ensures won <==> Claimable(old(rows), id, cutoff)
      ensures rows == if won then old(rows)[id := Some(cutoff)] else old(rows)
    {
      if id !in rows {
        return false;
      }
      if rows[id].Some? && rows[id].value >= cutoff {
        return false;
      }
      rows := rows[id := Some(cutoff)];
      return true;
    }

    /**
      * One tick: exactly the due schedules that can be claimed are, each once, and run; the counts tell how many of
      * them ran, how many did not, and what became of the others.
      */
    method DispatchOnce(schedules: seq<Schedule>, cutoffMinute: Time, parts: Time -> Moment, runs: string -> bool)
      returns (out: Counts)
      modifies this
      ensures
        var at := Truncated(cutoffMinute);
        && ClaimedFrom(old(rows), rows, schedules, Cutoff(at, parts(at)))
        && Counted(out, old(rows), rows, schedules, Cutoff(at, parts(at)), runs)
    {
      var cutoff := Cutoff(Truncated(cutoffMinute), parts(Truncated(cutoffMinute)));
      out := Counts(0, 0, 0, 0, 0);
      var k := 0;
      while k < |schedules|
        invariant 0 <= k <= |schedules|
        invariant rows == RowsAfter(old(rows), schedules[..k], cutoff)
        invariant Counted(out, old(rows), rows, schedules[..k], cutoff, runs)
      {
        RowsAreClaimed(old(rows), schedules[..k], cutoff);
        CountsOneMore(out, old(rows), rows, schedules[..k], schedules[k], cutoff, runs);
        assert schedules[..k + 1] == schedules[..k] + [schedules[k]];
        assert schedules[..k + 1][..k] == schedules[..k];
        out := DispatchOne(schedules[k], cutoff, runs, out);
        k := k + 1;
      }
      assert schedules[..k] == schedules;
      RowsAreClaimed(old(rows), schedules, cutoff);
    }

    /** One schedule of the tick. */
    method DispatchOne(schedule: Schedule, cutoff: Cutoff, runs: string -> bool, out: Counts) returns (out': Counts)
      modifies this
      ensures out' == CountsWith(out, old(rows), schedule, cutoff, runs)
      ensures rows == RowsWith(old(rows), schedule, cutoff)
    {
      match Judged(schedule, cutoff) {
        case Expired => return out.(expired := out.expired + 1);
        case NotMatching => return out.(notMatching := out.notMatching + 1);
        case Due =>
          var won := TryClaim(schedule.id, cutoff.at);
          if !won {
            return out.(already := out.already + 1);
          }
          if runs(schedule.id) {
            return out.(fired := out.fired + 1);
          }
          return out.(failed := out.failed + 1);
      }
    }
  }

  /** How many of the schedules are judged so. */
  function Tally(schedules: seq<Schedule>, cutoff: Cutoff, v: Verdict): nat {
    if schedules == [] then 0
    else
      var n := |schedules| - 1;
      Tally(schedules[..n], cutoff, v) + if Judged(schedules[n], cutoff) == v then 1 else 0
  }

  /** The schedules that a tick has claimed. */
  ghost function Moved(before: Rows, rows: Rows): set<string> {
    set id | id in rows.Keys && id in before && rows[id] != before[id]
  }

  ghost predicate Counted(out: Counts, before: Rows, rows: Rows, schedules: seq<Schedule>, cutoff: Cutoff,
                          runs: string -> bool)
  {
    && Ran(out, Moved(before, rows), runs)
    && out.already == Tally(schedules, cutoff, Due) - |Moved(before, rows)|
    && out.notMatching == Tally(schedules, cutoff, NotMatching)
    && out.expired == Tally(schedules, cutoff, Expired)
  }

  /** The claimed schedules that ran, or those that did not. */
  ghost function Those(moved: set<string>, runs: string -> bool, ran: bool): set<string> {
    set id | id in moved && runs(id) == ran
  }

  ghost predicate Ran(out: Counts, moved: set<string>, runs: string -> bool) {
    out.fired == |Those(moved, runs, true)| && out.failed == |Those(moved, runs, false)|
  }

  /** The counts after one more schedule. */
  function CountsWith(out: Counts, rows: Rows, schedule: Schedule, cutoff: Cutoff, runs: string -> bool): Counts {
    match Judged(schedule, cutoff)
    case Expired => out.(expired := out.expired + 1)
    case NotMatching => out.(notMatching := out.notMatching + 1)
    case Due =>
      if !Claimable(rows, schedule.id, cutoff.at) then out.(already := out.already + 1)
      else if runs(schedule.id) then out.(fired := out.fired + 1)
      else out.(failed := out.failed + 1)
  }

  lemma TallyOneMore(schedules: seq<Schedule>, schedule: Schedule, cutoff: Cutoff, v: Verdict)
    ensures
      Tally(schedules + [schedule], cutoff, v)
      == Tally(schedules, cutoff, v) + if Judged(schedule, cutoff) == v then 1 else 0
  {
    assert (schedules + [schedule])[..|schedules|] == schedules;
  }

  lemma ThoseOneMore(moved: set<string>, id: string, runs: string -> bool, ran: bool)
    requires id !in moved
    ensures
      |Those(moved + {id}, runs, ran)| == |Those(moved, runs, ran)| + if runs(id) == ran then 1 else 0
  {
    var those := Those(moved, runs, ran);
    assert Those(moved + {id}, runs, ran) == if runs(id) == ran then those + {id} else those;
  }

  lemma RanOneMore(out: Counts, moved: set<string>, id: string, runs: string -> bool)
    requires Ran(out, moved, runs) && id !in moved
    ensures
      Ran(if runs(id) then out.(fired := out.fired + 1) else out.(failed := out.failed + 1), moved + {id}, runs)
  {
    ThoseOneMore(moved, id, runs, true);
    ThoseOneMore(moved, id, runs, false);
  }

  /** What a tick claims it has not claimed before. */
  lemma MovedOneMore(before: Rows, rows: Rows, schedules: seq<Schedule>, schedule: Schedule, cutoff: Cutoff)
    requires ClaimedFrom(before, rows, schedules, cutoff)
    requires Judged(schedule, cutoff).Due? && Claimable(rows, schedule.id, cutoff.at)
    ensures schedule.id !in Moved(before, rows)
    ensures Moved(before, RowsWith(rows, schedule, cutoff)) == Moved(before, rows) + {schedule.id}
  {
  }

  lemma CountsOneMore(out: Counts, before: Rows, rows: Rows, schedules: seq<Schedule>, schedule: Schedule,
                      cutoff: Cutoff, runs: string -> bool)
    requires ClaimedFrom(before, rows, schedules, cutoff)
    requires Counted(out, before, rows, schedules, cutoff, runs)
    ensures
      Counted(CountsWith(out, rows, schedule, cutoff, runs), before, RowsWith(rows, schedule, cutoff),
              schedules + [schedule], cutoff, runs)
  {
    TallyOneMore(schedules, schedule, cutoff, Due);
    TallyOneMore(schedules, schedule, cutoff, NotMatching);
    TallyOneMore(schedules, schedule, cutoff, Expired);
    if Judged(schedule, cutoff).Due? && Claimable(rows, schedule.id, cutoff.at) {
      MovedOneMore(before, rows, schedules, schedule, cutoff);
      RanOneMore(out, Moved(before, rows), schedule.id, runs);
    }
  }

  /** Exactly the rows of due schedules that could be claimed have moved to the cutoff. */
  ghost predicate ClaimedFrom(before: Rows, rows: Rows, schedules: seq<Schedule>, cutoff: Cutoff) {
    && rows.Keys == before.Keys
    && forall id :: id in rows ==>
         rows[id]
         == if Claimable(before, id, cutoff.at) && DueIn(schedules, id, cutoff) then Some(cutoff.at) else before[id]
  }

  lemma {:induction false} RowsAreClaimed(before: Rows, schedules: seq<Schedule>, cutoff: Cutoff)
    ensures ClaimedFrom(before, RowsAfter(before, schedules, cutoff), schedules, cutoff)
  {
    if schedules != [] {
      var n := |schedules| - 1;
      RowsAreClaimed(before, schedules[..n], cutoff);
      OneScheduleMore(before, RowsAfter(before, schedules[..n], cutoff), schedules, cutoff);
    }
  }

  lemma OneScheduleMore(before: Rows, mid: Rows, schedules: seq<Schedule>, cutoff: Cutoff)
    requires schedules != [] && ClaimedFrom(before, mid, schedules[..|schedules| - 1], cutoff)
    ensures ClaimedFrom(before, RowsWith(mid, schedules[|schedules| - 1], cutoff), schedules, cutoff)
  {
    var n := |schedules| - 1;
    forall id
      ensures DueIn(schedules, id, cutoff) <==>
        DueIn(schedules[..n], id, cutoff) || (schedules[n].id == id && Judged(schedules[n], cutoff).Due?)
    {
      DueInOneMore(schedules, id, cutoff);
    }
  }

  lemma DueInOneMore(schedules: seq<Schedule>, id: string, cutoff: Cutoff)
    requires schedules != []
    ensures
      var n := |schedules| - 1;
      DueIn(schedules, id, cutoff) <==>
      DueIn(schedules[..n], id, cutoff) || (schedules[n].id == id && Judged(schedules[n], cutoff).Due?)
  {
    var n := |schedules| - 1;
    assert schedules == schedules[..n] + [schedules[n]];
    if schedules[n].id == id && Judged(schedules[n], cutoff).Due? {
      assert schedules[n] in schedules;
    }
  }

  ghost predicate DueIn(schedules: seq<Schedule>, id: string, cutoff: Cutoff) {
    exists s :: s in schedules && s.id == id && FiresAt(s, cutoff)
  }

  // ---- dispatchers that race ----

  /** A tick under way, or given up: between its claim and its run it is firing. */
  datatype Tick = Tick(cutoff: Cutoff, listed: nat, left: seq<Schedule>, firing: bool, out: Counts)

  /** The stored schedules, all claims won so far, in order, and all ticks ever begun. */
  datatype Dispatch = Dispatch(rows: Rows, claims: seq<(string, Time)>, ticks: seq<Tick>)

  /** Each step of a tick is a claim or a run, and may fail; a tick that makes no more steps has died. */
  datatype Step =
    | Insert(id: string)
    | Delete(id: string)
    | Begin(cutoff: Cutoff, schedules: seq<Schedule>)
    | Advance(i: nat, ok: bool)

  /** No schedule gets the id of one that was claimed before. */
  ghost predicate Fresh(s: Dispatch, step: Step) {
    step.Insert? ==> forall k :: 0 <= k < |s.claims| ==> s.claims[k].0 != step.id
  }

  function Next(s: Dispatch, step: Step): Dispatch {
    match step
    case Insert(id) => if id in s.rows then s else s.(rows := s.rows[id := None])
    case Delete(id) => s.(rows := s.rows - {id})
    case Begin(cutoff, schedules) =>
      s.(ticks := s.ticks + [Tick(cutoff, |schedules|, schedules, false, Counts(0, 0, 0, 0, 0))])
    case Advance(i, ok) =>
      if i >= |s.ticks| then s else if s.ticks[i].firing then Fired(s, i, ok) else Judging(s, i, ok)
  }

  /** The run of a claimed schedule has started, or starting it threw. */
  function Fired(s: Dispatch, i: nat, ok: bool): Dispatch
    requires i < |s.ticks|
  {
    var t := s.ticks[i];
    var out := if ok then t.out.(fired := t.out.fired + 1) else t.out.(failed := t.out.failed + 1);
    s.(ticks := s.ticks[i := t.(firing := false, out := out)])
  }

  /** The next schedule is passed over, or its claim is tried; a claim that fails counts as lost. */
  function Judging(s: Dispatch, i: nat, ok: bool): Dispatch
    requires i < |s.ticks|
  {
    var t := s.ticks[i];
    if t.left == [] then s
    else
      var schedule, rest := t.left[0], t.(left := t.left[1..]);
      match Judged(schedule, t.cutoff)
      case Expired => s.(ticks := s.ticks[i := rest.(out := t.out.(expired := t.out.expired + 1))])
      case NotMatching => s.(ticks := s.ticks[i := rest.(out := t.out.(notMatching := t.out.notMatching + 1))])
      case Due =>
        if ok && Claimable(s.rows, schedule.id, t.cutoff.at) then
          Dispatch(s.rows[schedule.id := Some(t.cutoff.at)], s.claims + [(schedule.id, t.cutoff.at)],
                   s.ticks[i := rest.(firing := true)])
        else s.(ticks := s.ticks[i := rest.(out := t.out.(already := t.out.already + 1))])
  }

  // ---- no cutoff fires twice ----

  /** The cutoffs that a schedule was claimed for only grow. */
  ghost predicate Increasing(claims: seq<(string, Time)>) {
    forall i, j :: 0 <= i < j < |claims| && claims[i].0 == claims[j].0 ==> claims[i].1 < claims[j].1
  }

  /** A row tells the last cutoff that its schedule was claimed for. */
  ghost predicate RowsTell(s: Dispatch) {
    && (forall id :: id in s.rows && s.rows[id].Some? ==> (id, s.rows[id].value) in s.claims)
    && forall k :: 0 <= k < |s.claims| && s.claims[k].0 in s.rows ==>
         s.rows[s.claims[k].0].Some? && s.claims[k].1 <= s.rows[s.claims[k].0].value
  }

  /** The next schedule of a tick that is not firing. */
  ghost predicate IsNext(s: Dispatch, i: nat, schedule: Schedule) {
    i < |s.ticks| && !s.ticks[i].firing && s.ticks[i].left != [] && s.ticks[i].left[0] == schedule
  }

  /** A claim is won exactly when a tick comes to a schedule that fires at its cutoff and has not fired since then. */
  lemma ClaimsExactly(s: Dispatch, step: Step)
    ensures
      var claims := Next(s, step).claims;
      if step.Advance? && step.ok && exists schedule ::
        IsNext(s, step.i, schedule) && FiresAt(schedule, s.ticks[step.i].cutoff)
        && Claimable(s.rows, schedule.id, s.ticks[step.i].cutoff.at)
      then claims == s.claims + [(s.ticks[step.i].left[0].id, s.ticks[step.i].cutoff.at)]
      else claims == s.claims
  {
    if step.Advance? && step.i < |s.ticks| && !s.ticks[step.i].firing && s.ticks[step.i].left != [] {
      assert IsNext(s, step.i, s.ticks[step.i].left[0]);
    }
  }

  // ---- every schedule and every claim is counted once ----

  function Pending(t: Tick): nat {
    if t.firing then 1 else 0
  }

  ghost predicate AddsUp(t: Tick) {
    Count(t.out, t.listed - |t.left| - Pending(t))
  }

  /** What the ticks have made of their claims. */
  ghost function Accounted(ticks: seq<Tick>): nat {
    if ticks == [] then 0
    else
      var t := ticks[|ticks| - 1];
      Accounted(ticks[..|ticks| - 1]) + t.out.fired + t.out.failed + Pending(t)
  }

  lemma {:induction false} OneTickMore(ticks: seq<Tick>, i: nat, t: Tick)
    requires i < |ticks|
    ensures Accounted(ticks[i := t]) + ticks[i].out.fired + ticks[i].out.failed + Pending(ticks[i])
      == Accounted(ticks) + t.out.fired + t.out.failed + Pending(t)
  {
    var n := |ticks| - 1;
    if i < n {
      OneTickMore(ticks[..n], i, t);
      assert ticks[i := t][..n] == ticks[..n][i := t];
    } else {
      assert ticks[i := t][..n] == ticks[..n];
    }
  }

  ghost predicate Kept(s: Dispatch) {
    Increasing(s.claims) && RowsTell(s) && TicksKept(s.ticks, |s.claims|)
  }

  /** The claim that a tick wins is for a later cutoff than any before. */
  lemma ClaimKeeps(s: Dispatch, id: string, cutoff: Time)
    requires Increasing(s.claims) && RowsTell(s) && Claimable(s.rows, id, cutoff)
    ensures
      var s' := s.(rows := s.rows[id := Some(cutoff)], claims := s.claims + [(id, cutoff)]);
      Increasing(s'.claims) && RowsTell(s')
  {
  }

  ghost predicate TicksKept(ticks: seq<Tick>, claims: nat) {
    Accounted(ticks) == claims && forall i :: 0 <= i < |ticks| ==> AddsUp(ticks[i])
  }

  /** A tick that still adds up, with as many more claims on its account. */
  lemma TickKeeps(ticks: seq<Tick>, claims: nat, i: nat, t: Tick, more: nat)
    requires TicksKept(ticks, claims) && i < |ticks| && AddsUp(t)
    requires
      var was := ticks[i];
      t.out.fired + t.out.failed + Pending(t) == was.out.fired + was.out.failed + Pending(was) + more
    ensures TicksKept(ticks[i := t], claims + more)
  {
    OneTickMore(ticks, i, t);
  }

  lemma FiredKeeps(s: Dispatch, i: nat, ok: bool)
    requires Kept(s) && i < |s.ticks| && s.ticks[i].firing
    ensures Kept(Fired(s, i, ok))
  {
    TickKeeps(s.ticks, |s.claims|, i, Fired(s, i, ok).ticks[i], 0);
  }

  lemma JudgingKeeps(s: Dispatch, i: nat, ok: bool)
    requires Kept(s) && i < |s.ticks| && !s.ticks[i].firing && s.ticks[i].left != []
    ensures Kept(Judging(s, i, ok))
  {
    var t := s.ticks[i];
    var schedule, s' := t.left[0], Judging(s, i, ok);
    if Judged(schedule, t.cutoff).Due? && ok && Claimable(s.rows, schedule.id, t.cutoff.at) {
      ClaimKeeps(s, schedule.id, t.cutoff.at);
      TickKeeps(s.ticks, |s.claims|, i, s'.ticks[i], 1);
    } else {
      TickKeeps(s.ticks, |s.claims|, i, s'.ticks[i], 0);
    }
  }

  lemma StepKeeps(s: Dispatch, step: Step)
    requires Kept(s) && Fresh(s, step)
    ensures Kept(Next(s, step))
  {
    match step
    case Insert(id) =>
    case Delete(id) =>
    case Begin(cutoff, schedules) => BeginKeeps(s.ticks, |s.claims|, cutoff, schedules);
    case Advance(i, ok) =>
      if i < |s.ticks| && s.ticks[i].firing {
        FiredKeeps(s, i, ok);
      } else if i < |s.ticks| && s.ticks[i].left != [] {
        JudgingKeeps(s, i, ok);
      }
  }

  lemma BeginKeeps(ticks: seq<Tick>, claims: nat, cutoff: Cutoff, schedules: seq<Schedule>)
    requires TicksKept(ticks, claims)
    ensures TicksKept(ticks + [Tick(cutoff, |schedules|, schedules, false, Counts(0, 0, 0, 0, 0))], claims)
  {
    var more := ticks + [Tick(cutoff, |schedules|, schedules, false, Counts(0, 0, 0, 0, 0))];
    assert more[..|more| - 1] == ticks;
  }

  ghost predicate AllFresh(s: Dispatch, steps: seq<Step>)
    decreases |steps|
  {
    steps == [] || (Fresh(s, steps[0]) && AllFresh(Next(s, steps[0]), steps[1..]))
  }

  function NextAll(s: Dispatch, steps: seq<Step>): Dispatch
    decreases |steps|
  {
    if steps == [] then s else NextAll(Next(s, steps[0]), steps[1..])
  }

  /**
    * However many dispatchers race, fail or die: the cutoffs a schedule is claimed for strictly increase, so none fires
    * twice; every listed schedule is counted once by its tick; and every claim has fired, failed or is still to run.
    */
  lemma {:induction false} DispatchersStayApart(s: Dispatch, steps: seq<Step>)
    requires Kept(s) && AllFresh(s, steps)
    ensures Kept(NextAll(s, steps))
    decreases |steps|
  {
    if steps != [] {
      StepKeeps(s, steps[0]);
      DispatchersStayApart(Next(s, steps[0]), steps[1..]);
    }
  }

  /** A claim is refused exactly when its schedule is gone or was claimed for that cutoff or a later one. */
  lemma RefusedExactly(s: Dispatch, id: string, cutoff: Time)
    requires Kept(s)
    ensures !Claimable(s.rows, id, cutoff) <==>
      id !in s.rows || exists k :: 0 <= k < |s.claims| && s.claims[k].0 == id && s.claims[k].1 >= cutoff
  {
    if id in s.rows && s.rows[id].Some? {
      var k :| 0 <= k < |s.claims| && s.claims[k] == (id, s.rows[id].value);
    }
  }

  /** Nothing may be taken for Fresh: a deleted schedule whose id is used again can fire twice for one cutoff. */
  lemma ReusedIdFiresAgain(s: Dispatch, schedule: Schedule, cutoff: Cutoff)
    requires (schedule.id, cutoff.at) in s.claims && schedule.id !in s.rows && Judged(schedule, cutoff).Due?
    ensures
      !Increasing(NextAll(s, [Insert(schedule.id), Begin(cutoff, [schedule]), Advance(|s.ticks|, true)]).claims)
  {
    var s1 := Next(s, Insert(schedule.id));
    var s2 := Next(s1, Begin(cutoff, [schedule]));
    var s3 := Next(s2, Advance(|s.ticks|, true));
    var steps := [Insert(schedule.id), Begin(cutoff, [schedule]), Advance(|s.ticks|, true)];
    assert steps[1..] == [steps[1], steps[2]] && steps[1..][1..] == [steps[2]];
    assert NextAll(s, steps) == NextAll(s1, steps[1..]) == NextAll(s2, steps[1..][1..]) == s3;
    var k :| 0 <= k < |s.claims| && s.claims[k] == (schedule.id, cutoff.at);
    assert s3.claims[k] == s3.claims[|s.claims|];
  }
}
