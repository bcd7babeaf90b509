/** Signal delivery over every sequence of backend operations: one row for each waiter, and a key delivers once. */
module Signals {
  import opened Graphs
  import opened Workflows
  import opened Store

  /** The runs that a keyed send has reached: what sending it again returns. */
  ghost function Recipients(t: Tables, signal: string, key: string): set<Id> {
    set a | a in t.signals && Sent(t.signals[a], signal, key) :: t.signals[a].run
  }

  /** The runs that a send returns: those an earlier send with its key has reached, or those it reaches now. */
  ghost function Reached(t: Tables, signal: string, key: Option<string>): set<Id> {
    if AlreadySent(t, signal, key) then Recipients(t, signal, key.value) else TakerRuns(t, signal)
  }

  /** What a keyed send returns is what sending it again returns, from then on. */
  lemma SendReaches(t: Tables, signal: string, key: string, data: Value)
    ensures Recipients(Apply(t, Send(signal, Some(key), data)), signal, key) == Reached(t, signal, Some(key))
  {
    var t' := Apply(t, Send(signal, Some(key), data));
    if !AlreadySent(t, signal, Some(key)) {
      forall a | a in t'.signals && Sent(t'.signals[a], signal, key)
        ensures a in Takers(t, signal)
      {
        assert a in t.signals ==> !Sent(t.signals[a], signal, key);
      }
      forall run | run in TakerRuns(t, signal)
        ensures run in Recipients(t', signal, key)
      {
        var a :| a in Takers(t, signal) && t.attempts[a].run == run;
        assert Sent(t'.signals[a], signal, key) && t'.signals[a].run == run;
      }
    }
  }

  /** Sending again under a key that reached somebody changes nothing at all. */
  lemma ResendChangesNothing(t: Tables, signal: string, key: string, data: Value)
    requires Recipients(t, signal, key) != {}
    ensures Apply(t, Send(signal, Some(key), data)) == t
  {
  }

  /** A delivered row stays as it is, whatever is sent later. */
  lemma OpKeepsDeliveries(t: Tables, op: Op)
    ensures forall a :: a in t.signals ==> a in Apply(t, op).signals && Apply(t, op).signals[a] == t.signals[a]
  {
  }

  lemma OpKeepsRecipients(t: Tables, op: Op, signal: string, key: string)
    requires Recipients(t, signal, key) != {}
    ensures Recipients(Apply(t, op), signal, key) == Recipients(t, signal, key)
  {
  }

  /** Once a key has reached somebody, sending it again later returns the same runs, whatever happened in between. */
  lemma {:induction false} KeyDeliversOnce(t: Tables, ops: seq<Op>, signal: string, key: string, data: Value)
    requires Recipients(t, signal, key) != {}
    ensures
      var t' := ApplyAll(t, ops);
      Recipients(t', signal, key) == Recipients(t, signal, key) && Apply(t', Send(signal, Some(key), data)) == t'
    decreases |ops|
  {
    if ops == [] {
      ResendChangesNothing(t, signal, key, data);
    } else {
      OpKeepsRecipients(t, ops[0], signal, key);
      KeyDeliversOnce(Apply(t, ops[0]), ops[1..], signal, key, data);
    }
  }

  /** A send that reaches nobody leaves no trace of its key, so sending it again may still deliver. */
  lemma UnheardSendLeavesNoTrace(t: Tables, signal: string, key: Option<string>, data: Value)
    requires Takers(t, signal) == {}
    ensures Apply(t, Send(signal, key, data)) == t
  {
  }

  // ---- what a send does, in terms of waits and rows ----

  /** The attempt is a running wait on the signal that has no answer yet. */
  ghost predicate WaitsUnanswered(t: Tables, a: Id, signal: string) {
    && a in t.attempts && a !in t.signals && t.attempts[a].kind == SignalWait && t.attempts[a].status == StepRunning
    && t.attempts[a].context.SignalUntil? && t.attempts[a].context.signal == signal
  }

  /** An earlier send of the signal under the key has reached somebody. */
  ghost predicate ReachedBefore(t: Tables, signal: string, key: Option<string>) {
    key.Some? && exists a :: a in t.signals && t.signals[a].signal == signal && t.signals[a].senderKey == key
  }

  /** The row of a run that is held by nobody is due now at the latest, if one of its waits got an answer. */
  ghost predicate RousedBySend(t: Tables, r: Run, r': Run, id: Id, signal: string) {
    if r.worker.None? && (r.status == Pending || r.status == Running)
       && exists a :: WaitsUnanswered(t, a, signal) && t.attempts[a].run == id then
      && r'.availableAt.Some? && r'.availableAt.value <= t.now
      && r' == r.(availableAt := r'.availableAt) && (r.availableAt.Some? && r.availableAt.value <= t.now ==> r' == r)
    else r' == r
  }

  /**
    * A send that no earlier one anticipates gives its data to exactly the running waits on the signal that have no
    * answer yet, and makes their unclaimed runs due; nothing else changes.
    */
  lemma SendDelivers(t: Tables, signal: string, key: Option<string>, data: Value)
    ensures
      var t' := Apply(t, Send(signal, key, data));
      if ReachedBefore(t, signal, key) then t' == t
      else
        && (forall a :: a in t'.signals <==> a in t.signals || WaitsUnanswered(t, a, signal))
        && (forall a :: a in t.signals ==> t'.signals[a] == t.signals[a])
        && (forall a :: WaitsUnanswered(t, a, signal) ==>
              t'.signals[a] == Delivery(signal, data, key, t.attempts[a].run))
        && t'.runs.Keys == t.runs.Keys && t'.attempts == t.attempts && t'.now == t.now && t'.owed == t.owed
        && forall id :: id in t.runs ==> RousedBySend(t, t.runs[id], t'.runs[id], id, signal)
  {
    SentBefore(t, signal, key);
    TakersWait(t, signal);
  }

  lemma SentBefore(t: Tables, signal: string, key: Option<string>)
    ensures AlreadySent(t, signal, key) <==> ReachedBefore(t, signal, key)
  {
    if ReachedBefore(t, signal, key) {
      var a :| a in t.signals && t.signals[a].signal == signal && t.signals[a].senderKey == key;
      assert Sent(t.signals[a], signal, key.value);
    }
  }

  lemma TakersWait(t: Tables, signal: string)
    ensures forall a :: a in Takers(t, signal) <==> WaitsUnanswered(t, a, signal)
    ensures forall id ::
      id in TakerRuns(t, signal) <==> exists a :: WaitsUnanswered(t, a, signal) && t.attempts[a].run == id
  {
    forall id
      ensures id in TakerRuns(t, signal) <==> exists a :: WaitsUnanswered(t, a, signal) && t.attempts[a].run == id
    {
      if id in TakerRuns(t, signal) {
        var a :| a in Takers(t, signal) && t.attempts[a].run == id;
        assert WaitsUnanswered(t, a, signal);
      }
      if exists a :: WaitsUnanswered(t, a, signal) && t.attempts[a].run == id {
        var a :| WaitsUnanswered(t, a, signal) && t.attempts[a].run == id;
        assert a in Takers(t, signal);
      }
    }
  }
}
